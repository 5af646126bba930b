/** RSSI of mosquitto_broker.c: user nodes, recordings, writer threads, and the two-phase delete. */
module RssiModel {
  import opened Sequences
  import opened Wrappers
  import opened Sessions
  import opened Recorder

  /** An rssi_user_node; `file` is rssi_file_t, None for NULL. */
  datatype Node = Node(connfd: int, file: Option<File>, confirmDelete: int)

  /** What dev_transfer answers to an open or close request: nothing usable, or a status. */
  datatype Reply = NoReply | Answer(ok: bool)

  /** A request to dev_transfer to switch RSSI on or off, and its answer. */
  datatype Request = Request(on: bool, reply: Reply)

  /** g_broker_para. `heap` holds the allocated nodes by address, `list` is rssi_user_node_head,
      `mailbox` the pending CLEAR messages. `next`, `freed` and `cleared` are history: addresses handed
      out so far, addresses freed, and recordings whose file was closed; and so is `requests`: what the device
      was asked. */
  datatype Broker = Broker(heap: map<nat, Node>, next: nat, list: seq<nat>, cnt: int, state: int,
                           mailbox: seq<nat>, freed: seq<nat>, cleared: seq<File>, requests: seq<Request>)

  const EMPTY_BROKER := Broker(map[], 0, [], 0, 0, [], [], [], [])

  /** Every address on the list or in the message queue is allocated. */
  ghost predicate Safe(b: Broker) {
    && (forall p :: p in b.list ==> p in b.heap)
    && (forall p :: p in b.mailbox ==> p in b.heap)
  }

  /** findNode: the first node on the list with the connfd, as a position, or the length. */
  function Find(b: Broker, fd: int): (i: nat)
    requires Safe(b)
    ensures i <= |b.list|
    ensures i < |b.list| ==> b.heap[b.list[i]].connfd == fd
    ensures forall j :: 0 <= j < i ==> b.heap[b.list[j]].connfd != fd
  {
    FindFrom(b, fd, 0)
  }

  function FindFrom(b: Broker, fd: int, k: nat): (i: nat)
    requires Safe(b) && k <= |b.list|
    ensures k <= i <= |b.list|
    ensures i < |b.list| ==> b.heap[b.list[i]].connfd == fd
    ensures forall j :: k <= j < i ==> b.heap[b.list[j]].connfd != fd
    decreases |b.list| - k
  {
    if k == |b.list| || b.heap[b.list[k]].connfd == fd then k else FindFrom(b, fd, k + 1)
  }

  function SetFile(b: Broker, p: nat, f: File): Broker
    requires p in b.heap
  {
    b.(heap := b.heap[p := b.heap[p].(file := Some(f))])
  }

  // ----- steps of the event loop -----

  /** control_rssi_state: the state follows any usable answer, the result its status. */
  function Control(b: Broker, newState: int, reply: Reply): (Broker, int) {
    var c := b.(requests := b.requests + [Request(newState == 1, reply)]);
    match reply
    case NoReply => (c, -1)
    case Answer(ok) => (c.(state := newState), if ok then 0 else -1)
  }

  /** malloc a node, append it, count it. */
  function Link(b: Broker, fd: int): Broker {
    b.(heap := b.heap[b.next := Node(fd, None, 0)], next := b.next + 1, list := b.list + [b.next], cnt := b.cnt + 1)
  }

  /** open_rssi_state_external. */
  function Open(b: Broker, fd: int, reply: Reply): (Broker, int) {
    var (c, ret) := if b.cnt == 0 && b.state == 0 then Control(b, 1, reply) else (b, 0);
    if ret != 0 then (c, -1)
    else
      (Link(c, fd), 0)
  }

  /** free(p). */
  function Free(b: Broker, p: nat): Broker
    requires p in b.heap
  {
    b.(heap := b.heap - {p}, freed := b.freed + [p])
  }

  /** What close does with the node it found: free it now, or leave that to CLEAR. */
  function Release(b: Broker, p: nat): Broker
    requires p in b.heap
  {
    if b.heap[p].file.None? then Free(b, p)
    else b.(heap := b.heap[p := b.heap[p].(confirmDelete := 1)])
  }

  /** The node with the connfd is on the list. */
  predicate Opened(b: Broker, fd: int)
    requires Safe(b)
  {
    Find(b, fd) < |b.list|
  }

  function Unlink(b: Broker, i: nat): Broker
    requires i < |b.list|
  {
    b.(list := b.list[..i] + b.list[i + 1..], cnt := b.cnt - 1)
  }

  /** close_rssi_state_external. Without a node for the connfd it releases the last one on the list, and
      leaves that on the list. */
  function Close(b: Broker, fd: int, reply: Reply): Broker
    requires Safe(b)
  {
    var i := Find(b, fd);
    var c := if i < |b.list| then Release(Unlink(b, i), b.list[i])
             else if b.list == [] then b
             else Release(b, b.list[|b.list| - 1]);
    if c.cnt == 0 && c.state == 1 then Control(c, 0, reply).0 else c
  }

  /** The node's recording has a queue to push to. */
  predicate HasQueue(b: Broker, fd: int)
    requires Safe(b) && Opened(b, fd)
  {
    var n := b.heap[b.list[Find(b, fd)]];
    n.file.Some? && n.file.value.started
  }

  /** inform_stop_rssi_write_thread. */
  function InformStop(b: Broker, fd: int): Broker
    requires Safe(b) && (Opened(b, fd) ==> HasQueue(b, fd))
  {
    if !Opened(b, fd) then b
    else
      var p := b.list[Find(b, fd)];
      SetFile(b, p, PushEnd(b.heap[p].file.value))
  }

  /** The write_file_t of a node, allocated on first access. */
  function FileOf(n: Node): File {
    if n.file.None? then Fresh() else n.file.value
  }

  /** process_rssi_save_file; -2 without a node, -1 when there is nothing to stop or start. */
  function ControlSave(b: Broker, fd: int, op: int, fopenOk: bool): (Broker, int)
    requires Safe(b)
  {
    if !Opened(b, fd) then (b, -2)
    else
      var p := b.list[Find(b, fd)];
      var f := FileOf(b.heap[p]);
      if op == 0 then
        if f.enable == 0 then (SetFile(b, p, f), -1) else (SetFile(b, p, PushEnd(f)), 0)
      else if op != 1 then (SetFile(b, p, f), 0)
      else if f.enable == 1 || !fopenOk then (SetFile(b, p, f), -1)
      else (SetFile(b, p, Recorder.Start()), 0)
  }

  /** send_rssi_to_save from position i on: push to every enabled recording up to the first disabled one. */
  function Sample(b: Broker, i: nat, item: Item): Broker
    requires Safe(b) && i <= |b.list|
    decreases |b.list| - i
  {
    if i == |b.list| then b
    else
      var p := b.list[i];
      match b.heap[p].file
      case None => Sample(b, i + 1, item)
      case Some(f) =>
        if f.enable == 0 then b
        else if f.enable == 1 then Sample(SetFile(b, p, PushSample(f, item)), i + 1, item)
        else if f.enable == 2 then Sample(SetFile(b, p, PushEnd(f)), i + 1, item)
        else Sample(b, i + 1, item)
  }

  /** clear_rssi_write_status, for the oldest CLEAR message. */
  function Clear(b: Broker): Broker
    requires Safe(b) && b.mailbox != [] && b.heap[b.mailbox[0]].file.Some?
  {
    var p := b.mailbox[0];
    var n := b.heap[p];
    var c := b.(heap := b.heap[p := n.(file := None)], mailbox := b.mailbox[1..], cleared := b.cleared + [n.file.value]);
    if n.confirmDelete == 1 then Free(c, p) else c
  }

  // ----- a step of a writer thread -----

  predicate WriterCanMove(b: Broker, p: nat) {
    p in b.heap && b.heap[p].file.Some? && CanMove(b.heap[p].file.value)
  }

  function WriterMove(b: Broker, p: nat): Broker
    requires WriterCanMove(b, p)
  {
    var f := b.heap[p].file.value;
    var c := SetFile(b, p, Move(f));
    if f.phase.Exiting? then c.(mailbox := c.mailbox + [p]) else c
  }

  // ----- invariant -----

  /** The list is counted and each node is linked once; a node is off the list exactly when it is marked
      for deletion, and it is then kept only for the sake of its ended recording. */
  ghost predicate Linked(b: Broker) {
    && NoDup(b.list) && b.cnt == |b.list|
    && (forall p :: p in b.list ==> p in b.heap)
    && (forall p :: p in b.heap ==> (p in b.list <==> b.heap[p].confirmDelete == 0))
    && (forall p :: p in b.heap && p !in b.list ==>
          b.heap[p].confirmDelete == 1 && b.heap[p].file.Some? && b.heap[p].file.value.enable == 0)
  }

  /** Every address handed out is allocated or freed, never both, and freed at most once. */
  ghost predicate Allocation(b: Broker) {
    && (forall p :: p in b.heap ==> p < b.next)
    && NoDup(b.freed)
    && (forall p: nat :: p in b.freed <==> p < b.next && p !in b.heap)
  }

  ghost predicate Memory(b: Broker) {
    Linked(b) && Allocation(b) && Safe(b)
  }

  /** Recordings: each is good, and CLEAR is pending exactly for those whose thread has left. */
  ghost predicate Recordings(b: Broker) {
    && Safe(b)
    && (forall p :: p in b.heap && b.heap[p].file.Some? ==> Good(b.heap[p].file.value))
    && NoDup(b.mailbox)
    && (forall p :: p in b.heap ==>
          (p in b.mailbox <==> b.heap[p].file.Some? && b.heap[p].file.value.phase.Posted?))
    && (forall i :: 0 <= i < |b.cleared| ==> b.cleared[i].written == b.cleared[i].pushed)
  }

  predicate Enabled(n: Node) {
    n.file.Some? && n.file.value.enable == 1
  }

  /** Some node on the list belongs to the connfd. */
  ghost predicate Has(b: Broker, fd: int)
    requires Safe(b)
  {
    exists p :: p in b.list && b.heap[p].connfd == fd
  }

  /** Every node on the list belongs to one session, whose flags describe it. */
  ghost predicate Owned(m: map<int, Flags>, b: Broker)
    requires Safe(b)
  {
    && (forall p, q :: p in b.list && q in b.list && b.heap[p].connfd == b.heap[q].connfd ==> p == q)
    && (forall p :: p in b.list ==> b.heap[p].connfd in m && m[b.heap[p].connfd].rssi == 1)
    && (forall p :: p in b.list ==> m[b.heap[p].connfd].rssiSave == if Enabled(b.heap[p]) then 1 else 0)
  }

  /** Every session with RSSI on has its node. */
  ghost predicate Served(m: map<int, Flags>, b: Broker)
    requires Safe(b)
  {
    forall fd :: fd in m ==> (m[fd].rssi == 0 && m[fd].rssiSave == 0) || (m[fd].rssi == 1 && Has(b, fd))
  }

  ghost predicate Matches(m: map<int, Flags>, b: Broker) {
    Safe(b) && Owned(m, b) && Served(m, b)
  }

  ghost predicate BrokerInv(m: map<int, Flags>, b: Broker) {
    Memory(b) && Recordings(b) && Matches(m, b)
  }

  lemma Parts(m: map<int, Flags>, b: Broker)
    ensures BrokerInv(m, b) <==> Memory(b) && Recordings(b) && Matches(m, b)
    ensures Memory(b) ==> Safe(b)
  {
  }

  lemma InitialBroker()
    ensures BrokerInv(map[], EMPTY_BROKER)
  {
  }

  /** Has depends on the list and on the owners of its nodes only. */
  lemma HasSame(b: Broker, c: Broker)
    requires Safe(b) && Safe(c) && b.list == c.list
    requires forall p :: p in b.list ==> b.heap[p].connfd == c.heap[p].connfd
    ensures forall fd :: Has(b, fd) <==> Has(c, fd)
  {
    forall fd ensures Has(b, fd) <==> Has(c, fd) {
      if Has(b, fd) {
        var p :| p in b.list && b.heap[p].connfd == fd;
        assert p in c.list && c.heap[p].connfd == fd;
      }
      if Has(c, fd) {
        var p :| p in c.list && c.heap[p].connfd == fd;
        assert p in b.list && b.heap[p].connfd == fd;
      }
    }
  }

  /** findNode finds the session's node. */
  lemma FindNode(m: map<int, Flags>, b: Broker, fd: int)
    requires Matches(m, b)
    ensures Opened(b, fd) <==> Has(b, fd)
    ensures Opened(b, fd) ==> var p := b.list[Find(b, fd)];
                              && p in b.list && b.heap[p].connfd == fd
                              && forall q :: q in b.list && b.heap[q].connfd == fd ==> q == p
  {
    if Opened(b, fd) {
      assert b.list[Find(b, fd)] in b.list;
    }
    if Has(b, fd) {
      var p :| p in b.list && b.heap[p].connfd == fd;
      var i :| 0 <= i < |b.list| && b.list[i] == p;
    }
  }

  /** No recording is restarted before the previous one of the same node has been CLEARed. */
  predicate MayStart(b: Broker, fd: int)
    requires Safe(b)
  {
    Opened(b, fd) ==>
      var f := FileOf(b.heap[b.list[Find(b, fd)]]);
      f.started ==> f.enable == 1
  }

  // ----- opening -----

  lemma LinkMemory(b: Broker, fd: int)
    requires Memory(b)
    ensures Memory(Link(b, fd))
  {
    var c := Link(b, fd);
    assert forall p :: p in c.list <==> p in b.list || p == b.next;
    forall i | 0 <= i < |b.list| ensures c.list[i] != b.next {
      assert b.list[i] in b.list;
    }
  }

  lemma LinkRecordings(b: Broker, fd: int)
    requires Memory(b) && Recordings(b)
    ensures Recordings(Link(b, fd))
  {
    hide Good;
    var c := Link(b, fd);
    assert forall p :: p in c.list <==> p in b.list || p == b.next;
  }

  lemma LinkMatches(m: map<int, Flags>, b: Broker, fd: int)
    requires Memory(b) && Matches(m, b) && fd in m && m[fd].rssi == 0
    ensures Matches(m[fd := m[fd].(rssi := 1)], Link(b, fd))
  {
    hide Memory;
    hide Has;
    Parts(m, b);
    NextIsNew(b);
    LinkHas(b, fd);
    LinkOwned(m, b, fd);
    hide Owned;
  }

  lemma NextIsNew(b: Broker)
    requires Memory(b)
    ensures b.next !in b.heap && b.next !in b.list
  {
  }

  lemma LinkOwned(m: map<int, Flags>, b: Broker, fd: int)
    requires Safe(b) && Owned(m, b) && Safe(Link(b, fd)) && b.next !in b.heap
    requires fd in m && m[fd].rssi == 0 && m[fd].rssiSave == 0
    ensures Owned(m[fd := m[fd].(rssi := 1)], Link(b, fd))
  {
    var c := Link(b, fd);
    assert forall p :: p in c.list <==> p in b.list || p == b.next;
  }

  lemma LinkHas(b: Broker, fd: int)
    requires Memory(b)
    ensures Safe(Link(b, fd)) && forall g :: g == fd || Has(b, g) ==> Has(Link(b, fd), g)
  {
    var c := Link(b, fd);
    assert forall p :: p in c.list <==> p in b.list || p == b.next;
    forall g | g == fd || Has(b, g) ensures Has(c, g) {
      if g == fd {
        assert b.next in c.list && c.heap[b.next].connfd == fd;
      } else {
        var p :| p in b.list && b.heap[p].connfd == g;
        assert p in c.list && c.heap[p].connfd == g;
      }
    }
  }

  lemma StateKeeps(m: map<int, Flags>, b: Broker, state: int, requests: seq<Request>)
    requires BrokerInv(m, b)
    ensures BrokerInv(m, b.(state := state, requests := requests))
  {
    hide Good;
    HasSame(b, b.(state := state, requests := requests));
    hide Has;
  }

  lemma OpenKeeps(m: map<int, Flags>, b: Broker, fd: int, reply: Reply)
    requires BrokerInv(m, b) && fd in m && m[fd].rssi == 0
    ensures var (c, ret) := Open(b, fd, reply);
            && (ret == 0 || ret == -1)
            && BrokerInv(if ret == 0 then m[fd := m[fd].(rssi := 1)] else m, c)
  {
    var c := if b.cnt == 0 && b.state == 0 then Control(b, 1, reply).0 else b;
    StateKeeps(m, b, c.state, c.requests);
    assert c == b.(state := c.state, requests := c.requests);
    hide Memory;
    hide Recordings;
    hide Matches;
    hide Link;
    LinkMemory(c, fd);
    LinkRecordings(c, fd);
    LinkMatches(m, c, fd);
  }

  // ----- replacing the write_file_t of a node -----

  lemma SetFileMemory(b: Broker, p: nat, f: File)
    requires Memory(b) && p in b.heap && (p !in b.list ==> f.enable == 0)
    ensures Memory(SetFile(b, p, f))
  {
  }

  lemma SetFileRecordings(b: Broker, p: nat, f: File)
    requires Recordings(b) && p in b.heap && Good(f) && (p in b.mailbox <==> f.phase.Posted?)
    ensures Recordings(SetFile(b, p, f))
  {
    hide Good;
  }

  /** The session's save flag has to follow `enable`. */
  lemma SetFileMatches(m: map<int, Flags>, b: Broker, p: nat, f: File)
    requires Matches(m, b) && p in b.list
    ensures var fd := b.heap[p].connfd;
            Matches(m[fd := m[fd].(rssiSave := if f.enable == 1 then 1 else 0)], SetFile(b, p, f))
  {
    var c, fd := SetFile(b, p, f), b.heap[p].connfd;
    assert Has(b, fd);
    HasSame(b, c);
    hide Has;
  }

  /** A node that is off the list is no longer any session's business. */
  lemma SetClosedFileMatches(m: map<int, Flags>, b: Broker, p: nat, f: File)
    requires Matches(m, b) && p in b.heap && p !in b.list
    ensures Matches(m, SetFile(b, p, f))
  {
    HasSame(b, SetFile(b, p, f));
    hide Has;
  }

  /** Replacing a file by one with the same `enable` leaves the flags as they are. */
  lemma SameEnableKeeps(m: map<int, Flags>, b: Broker, p: nat, f: File)
    requires BrokerInv(m, b) && p in b.heap
    requires b.heap[p].file.Some? && b.heap[p].file.value.enable == f.enable
    requires Good(f) && (p in b.mailbox <==> f.phase.Posted?)
    ensures BrokerInv(m, SetFile(b, p, f))
  {
    SetFileMemory(b, p, f);
    SetFileRecordings(b, p, f);
    if p in b.list {
      var fd := b.heap[p].connfd;
      SetFileMatches(m, b, p, f);
      assert m[fd := m[fd].(rssiSave := if f.enable == 1 then 1 else 0)] == m;
    } else {
      SetClosedFileMatches(m, b, p, f);
    }
  }

  // ----- stopping and starting a recording -----

  /** The session's node, and what the flags say about its recording. */
  lemma SessionNode(m: map<int, Flags>, b: Broker, fd: int)
    requires BrokerInv(m, b) && fd in m
    ensures Opened(b, fd) <==> m[fd].rssi == 1
    ensures Opened(b, fd) ==> var p := b.list[Find(b, fd)];
                              && p in b.list && p in b.heap && b.heap[p].connfd == fd
                              && (m[fd].rssiSave == 1 <==> Enabled(b.heap[p]))
                              && Good(FileOf(b.heap[p]))
                              && (p in b.mailbox <==> FileOf(b.heap[p]).phase.Posted?)
    ensures m[fd].rssiSave == 1 ==> m[fd].rssi == 1
    ensures m[fd].rssiSave == 0 || m[fd].rssiSave == 1
  {
    FindNode(m, b, fd);
    StartIsGood();
  }

  /** del_user finds a queue to push the terminator to whenever the save flag is set. */
  lemma StopHasQueue(m: map<int, Flags>, b: Broker, fd: int)
    requires BrokerInv(m, b) && fd in m && m[fd].rssiSave == 1
    ensures Opened(b, fd) && HasQueue(b, fd)
  {
    SessionNode(m, b, fd);
  }

  lemma InformStopKeeps(m: map<int, Flags>, b: Broker, fd: int)
    requires BrokerInv(m, b) && fd in m && m[fd].rssiSave == 1
    requires Opened(b, fd) && HasQueue(b, fd)
    ensures BrokerInv(m[fd := m[fd].(rssiSave := 0)], InformStop(b, fd))
  {
    SessionNode(m, b, fd);
    var p := b.list[Find(b, fd)];
    PushEndGood(b.heap[p].file.value);
    SetFileMemory(b, p, PushEnd(b.heap[p].file.value));
    SetFileRecordings(b, p, PushEnd(b.heap[p].file.value));
    SetFileMatches(m, b, p, PushEnd(b.heap[p].file.value));
  }

  /** After a control request the save flag is the requested one if it succeeded, else unchanged. */
  lemma ControlSaveKeeps(m: map<int, Flags>, b: Broker, fd: int, op: int, fopenOk: bool)
    requires BrokerInv(m, b) && fd in m && (op == 0 || op == 1)
    requires op == 1 ==> MayStart(b, fd)
    ensures var (c, ret) := ControlSave(b, fd, op, fopenOk);
            && BrokerInv(if ret == 0 then m[fd := m[fd].(rssiSave := op)] else m, c)
            && (ret == 0 <==> m[fd].rssi == 1 && m[fd].rssiSave != op && (op == 1 ==> fopenOk))
  {
    hide BrokerInv;
    hide Memory;
    hide Recordings;
    hide Matches;
    SessionNode(m, b, fd);
    Parts(m, b);
    if Opened(b, fd) {
      var p := b.list[Find(b, fd)];
      var f := FileOf(b.heap[p]);
      var (c, ret) := ControlSave(b, fd, op, fopenOk);
      var g := if ret != 0 then f else if op == 0 then PushEnd(f) else Recorder.Start();
      assert c == SetFile(b, p, g);
      StartIsGood();
      if ret == 0 && op == 0 {
        PushEndGood(f);
      }
      SetFileMemory(b, p, g);
      SetFileRecordings(b, p, g);
      SetFileMatches(m, b, p, g);
      var m' := m[fd := m[fd].(rssiSave := if g.enable == 1 then 1 else 0)];
      Parts(m', c);
      if ret != 0 {
        assert m' == m;
      }
    }
  }

  /** A control request gives -2 without a node, and -1 when there is nothing to stop, or nothing to start, or
      the file cannot be created. */
  lemma ControlSaveResult(m: map<int, Flags>, b: Broker, fd: int, op: int, fopenOk: bool)
    requires BrokerInv(m, b) && fd in m && Safe(b)
    ensures ControlSave(b, fd, op, fopenOk).1 ==
              if m[fd].rssi == 0 then -2
              else if (op == 0 && m[fd].rssiSave == 0) || (op == 1 && (m[fd].rssiSave == 1 || !fopenOk)) then -1
              else 0
  {
    hide BrokerInv;
    hide Memory;
    hide Good;
    hide Find;
    SessionNode(m, b, fd);
    EnableIsFlag(m, b, fd);
  }

  lemma EnableIsFlag(m: map<int, Flags>, b: Broker, fd: int)
    requires BrokerInv(m, b) && fd in m && Safe(b)
    ensures m[fd].rssi == if Opened(b, fd) then 1 else 0
    ensures Opened(b, fd) ==> FileOf(b.heap[b.list[Find(b, fd)]]).enable == m[fd].rssiSave
  {
    hide Memory;
    SessionNode(m, b, fd);
  }

  /** The flag that the event loop stores after a request that succeeded is right exactly when the operation
      code is 0 or 1, or the session has no node. */
  lemma ControlSaveKeepsIff(m: map<int, Flags>, b: Broker, fd: int, op: int, fopenOk: bool)
    requires BrokerInv(m, b) && fd in m && (op == 1 ==> MayStart(b, fd))
    ensures var (c, ret) := ControlSave(b, fd, op, fopenOk);
            BrokerInv(if ret == 0 then m[fd := m[fd].(rssiSave := SaveFlag(op))] else m, c) <==>
              op == 0 || op == 1 || m[fd].rssi == 0
  {
    SessionNode(m, b, fd);
    if op == 0 || op == 1 {
      ControlSaveKeeps(m, b, fd, op, fopenOk);
    } else if Opened(b, fd) {
      var p := b.list[Find(b, fd)];
      var (c, ret) := ControlSave(b, fd, op, fopenOk);
      assert p in c.list && c.heap[p].connfd == fd;
      assert !Owned(m[fd := m[fd].(rssiSave := -1)], c);
    }
  }

  /** What del_user relies on after a request: if the flag that was stored is set, the session has a node with
      a queue. It does exactly when the code is 0 or 1, or the session has no node, or it had a queue before;
      otherwise del_user goes on to push to a queue that is NULL. */
  lemma StopHasQueueIff(m: map<int, Flags>, b: Broker, fd: int, op: int, fopenOk: bool)
    requires BrokerInv(m, b) && fd in m
    ensures var (c, ret) := ControlSave(b, fd, op, fopenOk);
            && Safe(c)
            && ((ret == 0 && SaveFlag(op) != 0 ==> Opened(c, fd) && HasQueue(c, fd)) <==>
                  op == 0 || op == 1 || m[fd].rssi == 0 || HasQueue(b, fd))
  {
    SessionNode(m, b, fd);
    hide BrokerInv;
    hide Good;
    if Opened(b, fd) {
      ControlSaveFinds(b, fd, op, fopenOk);
    }
  }

  lemma ControlSaveFinds(b: Broker, fd: int, op: int, fopenOk: bool)
    requires Safe(b) && Opened(b, fd)
    ensures var c := ControlSave(b, fd, op, fopenOk).0;
            Safe(c) && Opened(c, fd) && Find(c, fd) == Find(b, fd)
  {
    var c := ControlSave(b, fd, op, fopenOk).0;
    var i := Find(b, fd);
    assert c.list == b.list && c.mailbox == b.mailbox;
    assert forall p :: p in b.heap ==> p in c.heap && c.heap[p].connfd == b.heap[p].connfd;
    assert c.heap[c.list[i]].connfd == fd;
  }

  /** One client is enough: it opens RSSI and sends a request with another operation code. */
  lemma StopWithoutQueue()
    ensures var b := Open(EMPTY_BROKER, 1, Answer(true)).0;
            && Safe(b)
            && var (c, ret) := ControlSave(b, 1, 2, true);
               ret == 0 && SaveFlag(2) != 0 && Safe(c) && Opened(c, 1) && !HasQueue(c, 1)
  {
  }

  // ----- samples and the writer -----

  lemma NodeRecording(m: map<int, Flags>, b: Broker, i: nat)
    requires BrokerInv(m, b) && i < |b.list|
    ensures var p := b.list[i];
            && p in b.heap && Safe(b)
            && (b.heap[p].file.Some? ==>
                  var f := b.heap[p].file.value;
                  && Good(f) && (f.enable == 0 || f.enable == 1)
                  && (p in b.mailbox <==> f.phase.Posted?))
  {
    assert b.list[i] in b.list;
  }

  lemma SampleStep(m: map<int, Flags>, b: Broker, i: nat, item: Item)
    requires BrokerInv(m, b) && i < |b.list| && item != []
    requires b.list[i] in b.heap && b.heap[b.list[i]].file.Some? && b.heap[b.list[i]].file.value.enable == 1
    ensures BrokerInv(m, SetFile(b, b.list[i], PushSample(b.heap[b.list[i]].file.value, item)))
  {
    NodeRecording(m, b, i);
    hide BrokerInv;
    var p := b.list[i];
    PushSampleGood(b.heap[p].file.value, item);
    hide Good;
    SameEnableKeeps(m, b, p, PushSample(b.heap[p].file.value, item));
  }

  lemma SampleCases(b: Broker, i: nat, item: Item)
    requires Safe(b) && i < |b.list|
    ensures var p := b.list[i];
            var f := b.heap[p].file;
            if f.None? then Sample(b, i, item) == Sample(b, i + 1, item)
            else if f.value.enable == 0 then Sample(b, i, item) == b
            else f.value.enable == 1 ==>
                   var c := SetFile(b, p, PushSample(f.value, item));
                   c.list == b.list && Safe(c) && Sample(b, i, item) == Sample(c, i + 1, item)
  {
  }

  lemma {:induction false} SampleKeeps(m: map<int, Flags>, b: Broker, i: nat, item: Item)
    requires BrokerInv(m, b) && i <= |b.list| && item != []
    ensures BrokerInv(m, Sample(b, i, item))
    decreases |b.list| - i
  {
    if i < |b.list| {
      NodeRecording(m, b, i);
      SampleCases(b, i, item);
      hide *;
      var p := b.list[i];
      if b.heap[p].file.None? {
        SampleKeeps(m, b, i + 1, item);
      } else if b.heap[p].file.value.enable == 1 {
        SampleStep(m, b, i, item);
        SampleKeeps(m, SetFile(b, p, PushSample(b.heap[p].file.value, item)), i + 1, item);
      }
    }
  }

  /** The loop stops at a node with a disabled recording. */
  predicate Blocks(b: Broker, i: nat)
    requires Safe(b) && i < |b.list|
  {
    b.heap[b.list[i]].file.Some? && b.heap[b.list[i]].file.value.enable == 0
  }

  ghost predicate OpenFrom(b: Broker, i: nat, j: nat)
    requires Safe(b) && j < |b.list|
  {
    i <= j && forall k :: i <= k < j ==> !Blocks(b, k)
  }

  /** What one sample does to the node at position j, when the loop is at position i. */
  lemma {:induction false} SampleEffect(b: Broker, i: nat, item: Item, j: nat)
    requires Safe(b) && NoDup(b.list) && i <= |b.list| && j < |b.list|
    requires forall p :: p in b.list && b.heap[p].file.Some? && b.heap[p].file.value.enable != 0 ==>
                           b.heap[p].file.value.enable == 1
    ensures var p := b.list[j];
            p in Sample(b, i, item).heap &&
            Sample(b, i, item).heap[p] ==
              if OpenFrom(b, i, j) && Enabled(b.heap[p]) then b.heap[p].(file := Some(PushSample(b.heap[p].file.value, item)))
              else b.heap[p]
    decreases |b.list| - i
  {
    hide Sample;
    if i == |b.list| {
      SampleEnd(b, item);
    } else {
      SampleCases(b, i, item);
      var p := b.list[i];
      assert p in b.list && b.list[j] in b.list;
      if b.heap[p].file.None? {
        SampleEffect(b, i + 1, item, j);
      } else if !Blocks(b, i) {
        var c := SetFile(b, p, PushSample(b.heap[p].file.value, item));
        assert forall k :: i < k < |b.list| ==> c.heap[b.list[k]] == b.heap[b.list[k]];
        assert forall k :: i < k < |b.list| ==> (Blocks(c, k) <==> Blocks(b, k));
        SampleEffect(c, i + 1, item, j);
      }
    }
  }

  lemma {:induction false} SampleLists(b: Broker, i: nat, item: Item)
    requires Safe(b) && i <= |b.list|
    ensures var c := Sample(b, i, item);
            && c.list == b.list && c.heap.Keys == b.heap.Keys && c.mailbox == b.mailbox && c.freed == b.freed
            && forall p :: p in b.heap && p !in b.list ==> c.heap[p] == b.heap[p]
    decreases |b.list| - i
  {
    if i < |b.list| {
      var p := b.list[i];
      assert p in b.list;
      if b.heap[p].file.None? || b.heap[p].file.value.enable !in {0, 1, 2} {
        SampleLists(b, i + 1, item);
      } else if b.heap[p].file.value.enable == 1 {
        SampleLists(SetFile(b, p, PushSample(b.heap[p].file.value, item)), i + 1, item);
      } else if b.heap[p].file.value.enable == 2 {
        SampleLists(SetFile(b, p, PushEnd(b.heap[p].file.value)), i + 1, item);
      }
    }
  }

  lemma SampleEnd(b: Broker, item: Item)
    requires Safe(b)
    ensures Sample(b, |b.list|, item) == b
  {
  }

  /** A recording on the list receives the sample exactly when it is enabled and none before it on the list
      is disabled; whatever else is on the list is left alone. */
  lemma SampleReachesIff(m: map<int, Flags>, b: Broker, item: Item, j: nat)
    requires BrokerInv(m, b) && j < |b.list| && Safe(b)
    ensures var p, c := b.list[j], Sample(b, 0, item);
            p in c.heap &&
            c.heap[p] == if Enabled(b.heap[p]) && (forall k :: 0 <= k < j ==> !Blocks(b, k))
                         then b.heap[p].(file := Some(b.heap[p].file.value.(queue := b.heap[p].file.value.queue + [item], pushed := b.heap[p].file.value.pushed + [item])))
                         else b.heap[p]
  {
    hide Sample;
    forall p | p in b.list && b.heap[p].file.Some? ensures b.heap[p].file.value.enable == 0 || b.heap[p].file.value.enable == 1 {
      var i :| 0 <= i < |b.list| && b.list[i] == p;
      NodeRecording(m, b, i);
    }
    hide BrokerInv;
    SampleEffect(b, 0, item, j);
  }

  lemma PostKeeps(m: map<int, Flags>, b: Broker, p: nat)
    requires BrokerInv(m, b) && WriterCanMove(b, p) && b.heap[p].file.value.phase.Exiting?
    ensures BrokerInv(m, WriterMove(b, p))
  {
    var f := b.heap[p].file.value;
    MoveGood(f);
    var c := WriterMove(b, p);
    SetFileMemory(b, p, Move(f));
    assert Memory(c);
    if p in b.list {
      SetFileMatches(m, b, p, Move(f));
      var fd := b.heap[p].connfd;
      assert m[fd := m[fd].(rssiSave := if f.enable == 1 then 1 else 0)] == m;
    } else {
      SetClosedFileMatches(m, b, p, Move(f));
    }
    MailMatches(m, SetFile(b, p, Move(f)), c.mailbox);
    PostRecordings(b, p);
  }

  lemma MailMatches(m: map<int, Flags>, b: Broker, mailbox: seq<nat>)
    requires Matches(m, b) && forall p :: p in mailbox ==> p in b.heap
    ensures Matches(m, b.(mailbox := mailbox))
  {
    HasSame(b, b.(mailbox := mailbox));
    hide Has;
  }

  lemma PostRecordings(b: Broker, p: nat)
    requires Recordings(b) && WriterCanMove(b, p) && b.heap[p].file.value.phase.Exiting?
    ensures Recordings(WriterMove(b, p))
  {
    MoveGood(b.heap[p].file.value);
    hide Good;
    var c := WriterMove(b, p);
    assert forall q :: q in c.mailbox <==> q in b.mailbox || q == p;
    forall i | 0 <= i < |b.mailbox| ensures c.mailbox[i] != p {
      assert b.mailbox[i] in b.mailbox;
    }
  }

  lemma WriterKeeps(m: map<int, Flags>, b: Broker, p: nat)
    requires BrokerInv(m, b) && WriterCanMove(b, p)
    ensures BrokerInv(m, WriterMove(b, p))
  {
    var f := b.heap[p].file.value;
    MoveGood(f);
    if f.phase.Exiting? {
      PostKeeps(m, b, p);
    } else {
      SameEnableKeeps(m, b, p, Move(f));
    }
  }

  // ----- closing: the first phase of the delete -----

  lemma UnlinkSet(b: Broker, i: nat)
    requires NoDup(b.list) && i < |b.list|
    ensures NoDup(Unlink(b, i).list)
    ensures forall q :: q in Unlink(b, i).list <==> q in b.list && q != b.list[i]
  {
    var l, r := b.list, Unlink(b, i).list;
    forall j | 0 <= j < |r| ensures r[j] == l[if j < i then j else j + 1] {
    }
    forall q | q in l && q != l[i] ensures q in r {
      var k :| 0 <= k < |l| && l[k] == q;
      assert r[if k < i then k else k - 1] == q;
    }
  }

  /** Take a node off the list and release it. */
  function Detach(b: Broker, i: nat): Broker
    requires i < |b.list| && b.list[i] in b.heap
  {
    Release(Unlink(b, i), b.list[i])
  }

  lemma DetachEffect(b: Broker, i: nat)
    requires NoDup(b.list) && i < |b.list| && b.list[i] in b.heap
    ensures var p, c := b.list[i], Detach(b, i);
            && NoDup(c.list) && |c.list| == |b.list| - 1 && c.cnt == b.cnt - 1
            && c.list == b.list[..i] + b.list[i + 1..]
            && (forall q :: q in c.list <==> q in b.list && q != p)
            && c.next == b.next && c.mailbox == b.mailbox && c.cleared == b.cleared
            && c.heap == (if b.heap[p].file.None? then b.heap - {p} else b.heap[p := b.heap[p].(confirmDelete := 1)])
            && c.freed == b.freed + (if b.heap[p].file.None? then [p] else [])
  {
    UnlinkSet(b, i);
  }

  lemma CloseIsDetach(b: Broker, fd: int, reply: Reply)
    requires Safe(b) && Opened(b, fd)
    ensures Find(b, fd) < |b.list| && b.list[Find(b, fd)] in b.heap
    ensures var d := Detach(b, Find(b, fd));
            Close(b, fd, reply) == if d.cnt == 0 && d.state == 1 then Control(d, 0, reply).0 else d
  {
    hide Release;
    hide Unlink;
  }

  /** What a close does for a session with a node. */
  lemma CloseEffect(b: Broker, fd: int, reply: Reply)
    requires Memory(b) && Opened(b, fd)
    ensures var p, c := b.list[Find(b, fd)], Close(b, fd, reply);
            && p in b.list && p in b.heap
            && c.list == b.list[..Find(b, fd)] + b.list[Find(b, fd) + 1..] && c.cnt == b.cnt - 1
            && (forall q :: q in c.list <==> q in b.list && q != p)
            && c.mailbox == b.mailbox
            && c.heap == (if b.heap[p].file.None? then b.heap - {p} else b.heap[p := b.heap[p].(confirmDelete := 1)])
            && c.freed == b.freed + (if b.heap[p].file.None? then [p] else [])
  {
    hide Close;
    hide Detach;
    assert b.list[Find(b, fd)] in b.list;
    CloseIsDetach(b, fd, reply);
    DetachEffect(b, Find(b, fd));
  }

  lemma LinkedOnce(b: Broker)
    requires Linked(b)
    ensures NoDup(b.list) && b.cnt == |b.list|
  {
  }

  lemma DetachLinked(b: Broker, i: nat)
    requires Linked(b) && i < |b.list| && b.list[i] in b.heap
    requires b.heap[b.list[i]].file.Some? ==> b.heap[b.list[i]].file.value.enable == 0
    ensures Linked(Detach(b, i))
  {
    DetachEffect(b, i);
    hide Detach;
    assert b.list[i] in b.list;
  }

  lemma DetachAllocation(b: Broker, i: nat)
    requires NoDup(b.list) && Allocation(b) && i < |b.list| && b.list[i] in b.heap
    ensures Allocation(Detach(b, i))
  {
    DetachEffect(b, i);
    var p, c := b.list[i], Detach(b, i);
    hide Detach;
    assert forall q :: q in c.freed <==> q in b.freed || (q == p && b.heap[p].file.None?);
  }

  lemma DetachSafe(b: Broker, i: nat)
    requires NoDup(b.list) && Recordings(b) && i < |b.list| && b.list[i] in b.heap
    ensures Safe(Detach(b, i))
  {
    hide Good;
    DetachEffect(b, i);
    hide Detach;
  }

  lemma DetachRecordings(b: Broker, i: nat)
    requires NoDup(b.list) && Recordings(b) && i < |b.list| && b.list[i] in b.heap
    ensures Safe(Detach(b, i)) && Recordings(Detach(b, i))
  {
    hide Good;
    DetachSafe(b, i);
    DetachEffect(b, i);
    hide Detach;
  }

  lemma DetachHas(b: Broker, i: nat)
    requires NoDup(b.list) && i < |b.list| && b.list[i] in b.heap && Safe(b) && Safe(Detach(b, i))
    ensures forall g :: g != b.heap[b.list[i]].connfd && Has(b, g) ==> Has(Detach(b, i), g)
  {
    DetachEffect(b, i);
    var c := Detach(b, i);
    hide Detach;
    forall g | g != b.heap[b.list[i]].connfd && Has(b, g) ensures Has(c, g) {
      var q :| q in b.list && b.heap[q].connfd == g;
      assert q in c.list && c.heap[q].connfd == g;
    }
  }

  lemma DetachOwned(m: map<int, Flags>, b: Broker, i: nat)
    requires NoDup(b.list) && i < |b.list| && b.list[i] in b.heap && Safe(b) && Safe(Detach(b, i)) && Owned(m, b)
    ensures Owned(m - {b.heap[b.list[i]].connfd}, Detach(b, i))
  {
    DetachEffect(b, i);
    hide Detach;
    assert b.list[i] in b.list;
  }

  lemma DetachMatches(m: map<int, Flags>, b: Broker, i: nat)
    requires NoDup(b.list) && Matches(m, b) && i < |b.list| && b.list[i] in b.heap && Safe(Detach(b, i))
    ensures Matches(m - {b.heap[b.list[i]].connfd}, Detach(b, i))
  {
    DetachOwned(m, b, i);
    DetachHas(b, i);
    hide Owned;
    hide Detach;
    hide Has;
  }

  lemma CloseKeeps(m: map<int, Flags>, b: Broker, fd: int, reply: Reply)
    requires BrokerInv(m, b) && fd in m && m[fd].rssi == 1 && m[fd].rssiSave == 0
    ensures Opened(b, fd) && BrokerInv(m - {fd}, Close(b, fd, reply))
  {
    hide Linked;
    hide Allocation;
    hide Recordings;
    hide Matches;
    hide Detach;
    hide Close;
    SessionNode(m, b, fd);
    var i := Find(b, fd);
    NodeRecording(m, b, i);
    CloseIsDetach(b, fd, reply);
    LinkedOnce(b);
    DetachLinked(b, i);
    DetachAllocation(b, i);
    DetachRecordings(b, i);
    DetachMatches(m, b, i);
    var c := Detach(b, i);
    var d := Close(b, fd, reply);
    StateKeeps(m - {fd}, c, d.state, d.requests);
    assert d == c.(state := d.state, requests := d.requests);
  }

  /** A close releases a node that stays on the list exactly when the session has none of its own there
      and others do. */
  lemma CloseReleasesLinkedIff(m: map<int, Flags>, b: Broker, fd: int, reply: Reply)
    requires BrokerInv(m, b)
    ensures var c := Close(b, fd, reply);
            (exists p :: p in c.list && (p !in c.heap || c.heap[p].confirmDelete == 1)) <==>
              !Opened(b, fd) && b.list != []
  {
    var c := Close(b, fd, reply);
    hide Recordings;
    hide Matches;
    if Opened(b, fd) {
      UnlinkSet(b, Find(b, fd));
      assert b.list[Find(b, fd)] in b.list;
    } else if b.list != [] {
      var p := b.list[|b.list| - 1];
      assert p in c.list;
    }
  }

  // ----- CLEAR: the second phase -----

  lemma ClearMayRun(m: map<int, Flags>, b: Broker)
    requires BrokerInv(m, b) && b.mailbox != []
    ensures Clearable(b)
  {
    assert b.mailbox[0] in b.mailbox;
  }

  lemma MailboxTail(b: Broker)
    requires NoDup(b.mailbox) && b.mailbox != []
    ensures NoDup(b.mailbox[1..])
    ensures forall q :: q in b.mailbox[1..] <==> q in b.mailbox && q != b.mailbox[0]
  {
    forall q | q in b.mailbox && q != b.mailbox[0] ensures q in b.mailbox[1..] {
      var k :| 0 <= k < |b.mailbox| && b.mailbox[k] == q;
      assert b.mailbox[1..][k - 1] == q;
    }
  }

  /** A CLEAR message that may be processed: its node is there, its thread is gone. */
  ghost predicate Clearable(b: Broker) {
    && b.mailbox != [] && b.mailbox[0] in b.heap && b.heap[b.mailbox[0]].file.Some?
    && b.heap[b.mailbox[0]].file.value.phase.Posted? && Safe(b)
  }

  lemma ClearEffect(b: Broker)
    requires Clearable(b) && NoDup(b.mailbox)
    ensures var p, c := b.mailbox[0], Clear(b);
            && NoDup(c.mailbox) && (forall q :: q in c.mailbox <==> q in b.mailbox && q != p)
            && c.list == b.list && c.cnt == b.cnt && c.next == b.next
            && c.cleared == b.cleared + [b.heap[p].file.value]
            && c.heap == (if b.heap[p].confirmDelete == 1 then b.heap - {p} else b.heap[p := b.heap[p].(file := None)])
            && c.freed == b.freed + (if b.heap[p].confirmDelete == 1 then [p] else [])
  {
    MailboxTail(b);
    var p := b.mailbox[0];
    assert b.heap[p := b.heap[p].(file := None)] - {p} == b.heap - {p};
  }

  lemma ClearMemory(b: Broker)
    requires Memory(b) && NoDup(b.mailbox) && Clearable(b)
    ensures Memory(Clear(b))
  {
    ClearEffect(b);
    var p, c := b.mailbox[0], Clear(b);
    hide Clear;
    assert forall q :: q in c.freed <==> q in b.freed || (q == p && b.heap[p].confirmDelete == 1);
  }

  lemma ClearRecordings(b: Broker)
    requires Memory(b) && Recordings(b) && Clearable(b)
    ensures Safe(Clear(b)) && Recordings(Clear(b))
  {
    ClearEffect(b);
    ClearedIsComplete(b.heap[b.mailbox[0]].file.value);
    hide Good;
    hide Clear;
  }

  lemma ClearOwned(m: map<int, Flags>, b: Broker)
    requires Linked(b) && NoDup(b.mailbox) && Clearable(b) && Owned(m, b) && Safe(Clear(b))
    requires !Enabled(b.heap[b.mailbox[0]])
    ensures Owned(m, Clear(b))
  {
    ClearEffect(b);
    hide Clear;
  }

  lemma ClearHas(b: Broker)
    requires Linked(b) && NoDup(b.mailbox) && Clearable(b) && Safe(Clear(b))
    ensures forall fd :: Has(b, fd) <==> Has(Clear(b), fd)
  {
    ClearEffect(b);
    hide Clear;
    HasSame(b, Clear(b));
  }

  lemma ClearMatches(m: map<int, Flags>, b: Broker)
    requires Memory(b) && Recordings(b) && Matches(m, b) && Clearable(b) && Safe(Clear(b))
    ensures Matches(m, Clear(b))
  {
    ClearedIsComplete(b.heap[b.mailbox[0]].file.value);
    hide Good;
    ClearOwned(m, b);
    ClearHas(b);
    hide Clear;
    hide Owned;
    hide Has;
    hide Linked;
    hide Allocation;
    hide Recordings;
    hide Safe;
  }

  lemma ClearKeeps(m: map<int, Flags>, b: Broker)
    requires BrokerInv(m, b) && b.mailbox != []
    ensures b.mailbox[0] in b.heap && b.heap[b.mailbox[0]].file.Some? && BrokerInv(m, Clear(b))
  {
    ClearMayRun(m, b);
    hide Memory;
    hide Recordings;
    hide Matches;
    hide Clear;
    ClearMemory(b);
    ClearRecordings(b);
    ClearMatches(m, b);
  }

  // ----- events of other features -----

  /** Changes of other flags, and admissions. */
  lemma OtherFlagsKeep(m: map<int, Flags>, b: Broker, fd: int, flags: Flags)
    requires BrokerInv(m, b)
    requires if fd in m then m[fd].rssi == flags.rssi && m[fd].rssiSave == flags.rssiSave
             else flags.rssi == 0 && flags.rssiSave == 0
    ensures BrokerInv(m[fd := flags], b)
  {
    hide Memory;
    hide Recordings;
    hide Has;
  }

  /** A session that never opened RSSI leaves no trace. */
  lemma DepartureKeeps(m: map<int, Flags>, b: Broker, fd: int)
    requires BrokerInv(m, b) && fd in m && m[fd].rssi == 0
    ensures BrokerInv(m - {fd}, b)
  {
    hide Memory;
    hide Recordings;
    hide Has;
  }

  // ----- the two-phase delete as a whole -----

  /** Where a node that is off the list can be: freed, once; or kept for a thread that still runs or a CLEAR
      that is still pending; or, if its recording was allocated but never started, kept for ever. */
  lemma ClosedNodeFate(m: map<int, Flags>, b: Broker, p: nat)
    requires BrokerInv(m, b) && p < b.next && p !in b.list
    ensures multiset(b.freed)[p] == if p in b.heap then 0 else 1
    ensures p in b.heap ==>
              && b.heap[p].confirmDelete == 1 && b.heap[p].file.Some?
              && var f := b.heap[p].file.value;
                 f.enable == 0 && (!f.started || Running(f) || p in b.mailbox)
  {
    FreedOnce(b.freed, p);
    if p in b.heap {
      assert Good(b.heap[p].file.value);
    }
  }

  lemma {:induction false} FreedOnce(s: seq<nat>, p: nat)
    requires NoDup(s)
    ensures multiset(s)[p] == if p in s then 1 else 0
  {
    if s != [] {
      var n := |s| - 1;
      assert s == s[..n] + [s[n]];
      FreedOnce(s[..n], p);
      assert p in s <==> p in s[..n] || p == s[n];
    }
  }

  /** Closing a session frees its node only if no recording hangs on it, so no thread and no CLEAR does. */
  lemma CloseFreesUnused(m: map<int, Flags>, b: Broker, fd: int, reply: Reply, p: nat)
    requires BrokerInv(m, b) && Opened(b, fd) && p in b.heap
    ensures p !in Close(b, fd, reply).heap <==> p == b.list[Find(b, fd)] && b.heap[p].file.None?
    ensures p !in Close(b, fd, reply).heap ==> p !in b.mailbox
    ensures p != b.list[Find(b, fd)] ==> Close(b, fd, reply).heap[p] == b.heap[p]
  {
    hide Good;
    hide Matches;
    hide Linked;
    hide Allocation;
  }

  /** CLEAR runs when the thread is gone; it frees the node exactly when the session has closed. */
  lemma ClearFreesClosed(m: map<int, Flags>, b: Broker, p: nat)
    requires BrokerInv(m, b) && b.mailbox != [] && p in b.heap
    requires b.mailbox[0] in b.heap && b.heap[b.mailbox[0]].file.Some?
    ensures !Running(b.heap[b.mailbox[0]].file.value)
    ensures p !in Clear(b).heap <==> p == b.mailbox[0] && p !in b.list
    ensures p !in Clear(b).heap ==> p in Clear(b).freed && p !in Clear(b).mailbox
    ensures p == b.mailbox[0] && p in b.list ==> Clear(b).heap[p].file.None?
  {
    ClearMayRun(m, b);
    ClearEffect(b);
    hide Clear;
    hide Good;
  }

  /** The thread of an ended recording can always move, and every move brings its CLEAR one step nearer. */
  lemma ClosedNodeProgress(m: map<int, Flags>, b: Broker, p: nat)
    requires BrokerInv(m, b) && p in b.heap && p !in b.list && b.heap[p].file.Some?
    requires b.heap[p].file.value.started && p !in b.mailbox
    ensures WriterCanMove(b, p)
    ensures p in WriterMove(b, p).heap && WriterMove(b, p).heap[p].file.Some?
    ensures StepsLeft(b.heap[p].file.value) > 0
    ensures StepsLeft(WriterMove(b, p).heap[p].file.value) == StepsLeft(b.heap[p].file.value) - 1
  {
    WriterFinishes(b.heap[p].file.value);
  }
}
