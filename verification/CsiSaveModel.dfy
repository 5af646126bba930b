/** CSI recording of dma_handler.c: save nodes, their writer threads, and CLEAR. */
module CsiSaveModel {
  import opened Sequences
  import opened Sessions
  import opened Recorder

  /** A csi_save_user_node. It stays on the list until CLEAR, even when its session is gone. */
  datatype Node = Node(connfd: int, file: File)

  /** The save part of g_dma_para; fields as for RSSI. */
  datatype Saver = Saver(heap: map<nat, Node>, next: nat, list: seq<nat>, cnt: int,
                         mailbox: seq<nat>, freed: seq<nat>, cleared: seq<File>)

  const EMPTY_SAVER := Saver(map[], 0, [], 0, [], [], [])

  ghost predicate Safe(v: Saver) {
    && (forall p :: p in v.list ==> p in v.heap)
    && (forall p :: p in v.mailbox ==> p in v.heap)
  }

  /** findCsiSaveUserNode, as a position, or the length. */
  function Find(v: Saver, fd: int): (i: nat)
    requires Safe(v)
    ensures i <= |v.list|
    ensures i < |v.list| ==> v.heap[v.list[i]].connfd == fd
    ensures forall j :: 0 <= j < i ==> v.heap[v.list[j]].connfd != fd
  {
    FindFrom(v, fd, 0)
  }

  function FindFrom(v: Saver, fd: int, k: nat): (i: nat)
    requires Safe(v) && k <= |v.list|
    ensures k <= i <= |v.list|
    ensures i < |v.list| ==> v.heap[v.list[i]].connfd == fd
    ensures forall j :: k <= j < i ==> v.heap[v.list[j]].connfd != fd
    decreases |v.list| - k
  {
    if k == |v.list| || v.heap[v.list[k]].connfd == fd then k else FindFrom(v, fd, k + 1)
  }

  predicate Present(v: Saver, fd: int)
    requires Safe(v)
  {
    Find(v, fd) < |v.list|
  }

  function SetFile(v: Saver, p: nat, f: File): Saver
    requires p in v.heap
  {
    v.(heap := v.heap[p := v.heap[p].(file := f)])
  }

  // ----- steps of the event loop -----

  /** malloc a node with a fresh write_file_t, append it, count it. */
  function Link(v: Saver, fd: int): Saver {
    v.(heap := v.heap[v.next := Node(fd, Fresh())], next := v.next + 1, list := v.list + [v.next], cnt := v.cnt + 1)
  }

  /** The node of the connfd, created on first access. */
  function Access(v: Saver, fd: int): (Saver, nat)
    requires Safe(v)
  {
    if Present(v, fd) then (v, v.list[Find(v, fd)]) else (Link(v, fd), v.next)
  }

  /** process_csi_save_file: -1 when the file cannot be created, 0 otherwise. */
  function ControlSave(v: Saver, fd: int, op: int, fopenOk: bool): (Saver, int)
    requires Safe(v)
  {
    var (w, p) := Access(v, fd);
    var f := w.heap[p].file;
    if op == 0 then
      if f.enable == 0 then (w, 0) else (SetFile(w, p, PushEnd(f)), 0)
    else if op != 1 || f.enable == 1 then (w, 0)
    else if !fopenOk then (w, -1)
    else (SetFile(w, p, Recorder.Start()), 0)
  }

  /** inform_stop_csi_write_thread. */
  function InformStop(v: Saver, fd: int): Saver
    requires Safe(v) && (Present(v, fd) ==> v.heap[v.list[Find(v, fd)]].file.started)
  {
    if !Present(v, fd) then v
    else
      var p := v.list[Find(v, fd)];
      SetFile(v, p, PushEnd(v.heap[p].file))
  }

  /** send_csi_to_save from position i on. */
  function Sample(v: Saver, i: nat, item: Item): Saver
    requires Safe(v) && i <= |v.list|
    decreases |v.list| - i
  {
    if i == |v.list| then v
    else
      var p := v.list[i];
      var f := v.heap[p].file;
      if f.enable == 0 then v
      else if f.enable == 1 then Sample(SetFile(v, p, PushSample(f, item)), i + 1, item)
      else Sample(v, i + 1, item)
  }

  /** The position of an address on the list, or the length. */
  function IndexOf(s: seq<nat>, p: nat): (i: nat)
    ensures i <= |s|
    ensures i < |s| <==> p in s
    ensures i < |s| ==> s[i] == p
    ensures forall j :: 0 <= j < i ==> s[j] != p
  {
    if s == [] || s[0] == p then 0 else 1 + IndexOf(s[1..], p)
  }

  function Unlink(s: seq<nat>, p: nat): seq<nat> {
    var i := IndexOf(s, p);
    if i == |s| then s else s[..i] + s[i + 1..]
  }

  /** clear_csi_write_status, for the oldest CLEAR message: unlink, close the file, free. */
  function Clear(v: Saver): Saver
    requires Safe(v) && v.mailbox != []
  {
    var p := v.mailbox[0];
    Saver(v.heap - {p}, v.next, Unlink(v.list, p), if p in v.list then v.cnt - 1 else v.cnt,
          v.mailbox[1..], v.freed + [p], v.cleared + [v.heap[p].file])
  }

  // ----- a step of a writer thread -----

  predicate WriterCanMove(v: Saver, p: nat) {
    p in v.heap && CanMove(v.heap[p].file)
  }

  function WriterMove(v: Saver, p: nat): Saver
    requires WriterCanMove(v, p)
  {
    var f := v.heap[p].file;
    var w := SetFile(v, p, Move(f));
    if f.phase.Exiting? then w.(mailbox := w.mailbox + [p]) else w
  }

  // ----- invariant -----

  /** The allocated nodes are those on the list, each once, and counted; addresses are freed at most once. */
  ghost predicate Memory(v: Saver) {
    && NoDup(v.list) && v.cnt == |v.list|
    && (forall p :: p in v.list <==> p in v.heap)
    && (forall p :: p in v.mailbox ==> p in v.heap)
    && (forall p :: p in v.heap ==> p < v.next)
    && NoDup(v.freed)
    && (forall p: nat :: p in v.freed <==> p < v.next && p !in v.heap)
  }

  ghost predicate Recordings(v: Saver) {
    && (forall p :: p in v.heap ==> Good(v.heap[p].file))
    && NoDup(v.mailbox)
    && (forall p :: p in v.mailbox ==> p in v.heap)
    && (forall p :: p in v.heap ==> (p in v.mailbox <==> v.heap[p].file.phase.Posted?))
    && (forall i :: 0 <= i < |v.cleared| ==> v.cleared[i].written == v.cleared[i].pushed)
  }

  /** One node per connfd; its recording is enabled exactly when a live session has the save flag. */
  ghost predicate Owned(m: map<int, Flags>, v: Saver) {
    && (forall p, q :: p in v.heap && q in v.heap && v.heap[p].connfd == v.heap[q].connfd ==> p == q)
    && (forall p :: p in v.heap ==>
          (v.heap[p].file.enable == 1 <==> v.heap[p].connfd in m && m[v.heap[p].connfd].csiSave == 1))
  }

  ghost predicate Has(v: Saver, fd: int) {
    exists p :: p in v.heap && v.heap[p].connfd == fd
  }

  ghost predicate Served(m: map<int, Flags>, v: Saver) {
    forall fd :: fd in m ==> m[fd].csiSave == 0 || (m[fd].csiSave == 1 && Has(v, fd))
  }

  ghost predicate SaverInv(m: map<int, Flags>, v: Saver) {
    Memory(v) && Recordings(v) && Owned(m, v) && Served(m, v)
  }

  /** No recording is restarted before the previous one of the same connfd has been CLEARed. */
  predicate MayStart(v: Saver, fd: int)
    requires Safe(v)
  {
    Present(v, fd) ==>
      var f := v.heap[v.list[Find(v, fd)]].file;
      f.started ==> f.enable == 1
  }

  lemma InitialSaver()
    ensures SaverInv(map[], EMPTY_SAVER)
  {
  }

  lemma FindNode(m: map<int, Flags>, v: Saver, fd: int)
    requires SaverInv(m, v)
    ensures Safe(v) && (Present(v, fd) <==> Has(v, fd))
    ensures fd in m ==> m[fd].csiSave == 0 || m[fd].csiSave == 1
    ensures Present(v, fd) ==> var p := v.list[Find(v, fd)];
                               && p in v.heap && v.heap[p].connfd == fd && Good(v.heap[p].file)
                               && (p in v.mailbox <==> v.heap[p].file.phase.Posted?)
                               && (v.heap[p].file.enable == 1 <==> fd in m && m[fd].csiSave == 1)
  {
    hide Good;
    if Present(v, fd) {
      assert v.list[Find(v, fd)] in v.list;
    }
    if Has(v, fd) {
      var p :| p in v.heap && v.heap[p].connfd == fd;
      assert p in v.list;
      var i :| 0 <= i < |v.list| && v.list[i] == p;
    }
  }

  // ----- creating a node -----

  lemma LinkMemory(v: Saver, fd: int)
    requires Memory(v)
    ensures Memory(Link(v, fd))
  {
    var w := Link(v, fd);
    assert forall p :: p in w.list <==> p in v.list || p == v.next;
    forall i | 0 <= i < |v.list| ensures w.list[i] != v.next {
      assert v.list[i] in v.list;
    }
  }

  lemma LinkRecordings(v: Saver, fd: int)
    requires Memory(v) && Recordings(v)
    ensures Recordings(Link(v, fd))
  {
    StartIsGood();
    hide Good;
  }

  lemma LinkFlags(m: map<int, Flags>, v: Saver, fd: int)
    requires Memory(v) && Owned(m, v) && Served(m, v) && !Has(v, fd)
    ensures Owned(m, Link(v, fd)) && Served(m, Link(v, fd)) && Has(Link(v, fd), fd)
  {
    var w := Link(v, fd);
    assert v.next in w.heap && w.heap[v.next].connfd == fd;
    forall g | Has(v, g) ensures Has(w, g) {
      var p :| p in v.heap && v.heap[p].connfd == g;
      assert p in w.heap && w.heap[p].connfd == g;
    }
  }

  lemma AccessKeeps(m: map<int, Flags>, v: Saver, fd: int)
    requires SaverInv(m, v)
    ensures Safe(v)
    ensures var (w, p) := Access(v, fd);
            && SaverInv(m, w) && p in w.heap && w.heap[p].connfd == fd && Good(w.heap[p].file)
            && (p in w.mailbox <==> w.heap[p].file.phase.Posted?)
            && (w.heap[p].file == if Present(v, fd) then v.heap[v.list[Find(v, fd)]].file else Fresh())
            && (w.heap[p].file.enable == 1 <==> fd in m && m[fd].csiSave == 1)
  {
    FindNode(m, v, fd);
    if !Present(v, fd) {
      StartIsGood();
      LinkMemory(v, fd);
      LinkRecordings(v, fd);
      LinkFlags(m, v, fd);
      var w := Link(v, fd);
      hide Good;
      assert v.next in w.heap;
    }
  }

  // ----- replacing a recording -----

  lemma SetFileMemory(v: Saver, p: nat, f: File)
    requires Memory(v) && p in v.heap
    ensures Memory(SetFile(v, p, f))
  {
  }

  lemma SetFileRecordings(v: Saver, p: nat, f: File)
    requires Recordings(v) && p in v.heap && Good(f) && (p in v.mailbox <==> f.phase.Posted?)
    ensures Recordings(SetFile(v, p, f))
  {
    hide Good;
  }

  lemma SetFileHas(v: Saver, p: nat, f: File)
    requires p in v.heap
    ensures forall g :: Has(v, g) <==> Has(SetFile(v, p, f), g)
  {
    var w := SetFile(v, p, f);
    forall g ensures Has(v, g) <==> Has(w, g) {
      if Has(v, g) {
        var q :| q in v.heap && v.heap[q].connfd == g;
        assert q in w.heap && w.heap[q].connfd == g;
      }
      if Has(w, g) {
        var q :| q in w.heap && w.heap[q].connfd == g;
        assert q in v.heap && v.heap[q].connfd == g;
      }
    }
  }

  lemma SetFileOwned(m: map<int, Flags>, m': map<int, Flags>, v: Saver, p: nat, f: File)
    requires Owned(m, v) && p in v.heap
    requires forall fd :: fd != v.heap[p].connfd ==> (fd in m' <==> fd in m) && (fd in m ==> m'[fd] == m[fd])
    requires f.enable == 1 <==> v.heap[p].connfd in m' && m'[v.heap[p].connfd].csiSave == 1
    ensures Owned(m', SetFile(v, p, f))
  {
  }

  /** With the flag set as requested, the recording may be replaced. */
  lemma SetFileKeeps(m: map<int, Flags>, v: Saver, p: nat, f: File)
    requires SaverInv(m, v) && p in v.heap && v.heap[p].connfd in m
    requires Good(f) && (p in v.mailbox <==> f.phase.Posted?)
    ensures var fd := v.heap[p].connfd;
            SaverInv(m[fd := m[fd].(csiSave := if f.enable == 1 then 1 else 0)], SetFile(v, p, f))
  {
    var fd := v.heap[p].connfd;
    SetFileMemory(v, p, f);
    SetFileRecordings(v, p, f);
    SetFileHas(v, p, f);
    SetFileOwned(m, m[fd := m[fd].(csiSave := if f.enable == 1 then 1 else 0)], v, p, f);
    assert Has(v, fd);
    hide Has;
    hide Good;
    hide Memory;
    hide Recordings;
    hide Owned;
    hide SetFile;
  }

  lemma SameEnableKeeps(m: map<int, Flags>, v: Saver, p: nat, f: File)
    requires SaverInv(m, v) && p in v.heap && v.heap[p].file.enable == f.enable
    requires Good(f) && (p in v.mailbox <==> f.phase.Posted?)
    ensures SaverInv(m, SetFile(v, p, f))
  {
    SetFileMemory(v, p, f);
    SetFileRecordings(v, p, f);
    SetFileHas(v, p, f);
    SetFileOwned(m, m, v, p, f);
    hide Has;
    hide Good;
    hide Memory;
    hide Recordings;
    hide Owned;
    hide SetFile;
  }

  /** The recording that a control request leaves behind. */
  function Controlled(f: File, op: int): File {
    if f.enable == op then f else if op == 0 then PushEnd(f) else Recorder.Start()
  }

  lemma ControlledGood(f: File, op: int)
    requires Good(f) && (op == 0 || op == 1)
    requires op == 1 && f.started ==> f.enable == 1
    ensures var g := Controlled(f, op);
            && Good(g) && g.enable == op && (g.phase.Posted? <==> f.phase.Posted?)
  {
    StartIsGood();
    if f.enable == 1 && op == 0 {
      PushEndGood(f);
    }
  }

  /** After a control request the save flag, which is recorded whatever happened, is right. */
  lemma ControlSaveKeeps(m: map<int, Flags>, v: Saver, fd: int, op: int, fopenOk: bool)
    requires SaverInv(m, v) && fd in m && (op == 0 || op == 1)
    requires Safe(v) && (op == 1 ==> MayStart(v, fd) && (fopenOk || m[fd].csiSave == 1))
    ensures SaverInv(m[fd := m[fd].(csiSave := op)], ControlSave(v, fd, op, fopenOk).0)
  {
    hide SaverInv;
    hide Access;
    hide ControlSave;
    hide Controlled;
    hide Good;
    hide SetFile;
    AccessKeeps(m, v, fd);
    var (w, p) := Access(v, fd);
    var f := w.heap[p].file;
    MayStartIs(v, fd);
    EnableIsFlag(f);
    ControlledGood(f, op);
    ControlSaveIs(v, fd, op, fopenOk);
    SetFileKeeps(m, w, p, Controlled(f, op));
  }

  lemma EnableIsFlag(f: File)
    requires Good(f)
    ensures f.enable == 0 || f.enable == 1
  {
  }

  lemma MayStartIs(v: Saver, fd: int)
    requires Safe(v)
    ensures MayStart(v, fd) && Present(v, fd) ==>
              var f := v.heap[v.list[Find(v, fd)]].file; f.started ==> f.enable == 1
  {
  }

  /** What a control request does to the node it found or made. */
  lemma ControlSaveIs(v: Saver, fd: int, op: int, fopenOk: bool)
    requires Safe(v)
    ensures var (w, p) := Access(v, fd);
            var f := w.heap[p].file;
            (f.enable == 0 || f.enable == 1) && (op == 0 || (op == 1 && (fopenOk || f.enable == 1))) ==>
              ControlSave(v, fd, op, fopenOk).0 == SetFile(w, p, Controlled(f, op))
  {
    var (w, p) := Access(v, fd);
    assert SetFile(w, p, w.heap[p].file) == w;
  }

  /** Because the flag is recorded whatever happened, it is right exactly when the operation code is 0, or is
      1 and the file could be created or did not have to be. Otherwise the session counts as recording, and
      no recording of its is enabled. */
  lemma ControlSaveKeepsIff(m: map<int, Flags>, v: Saver, fd: int, op: int, fopenOk: bool)
    requires SaverInv(m, v) && fd in m && Safe(v) && (op == 1 ==> MayStart(v, fd))
    ensures SaverInv(m[fd := m[fd].(csiSave := SaveFlag(op))], ControlSave(v, fd, op, fopenOk).0) <==>
              op == 0 || (op == 1 && (fopenOk || m[fd].csiSave == 1))
  {
    if op == 0 || (op == 1 && (fopenOk || m[fd].csiSave == 1)) {
      ControlSaveKeeps(m, v, fd, op, fopenOk);
    } else {
      AccessKeeps(m, v, fd);
      var (w, p) := Access(v, fd);
      assert ControlSave(v, fd, op, fopenOk).0 == w;
      var m' := m[fd := m[fd].(csiSave := SaveFlag(op))];
      assert p in w.heap && w.heap[p].connfd == fd && (op == 1 ==> w.heap[p].file.enable != 1);
      hide Access;
      hide Good;
      assert op == 1 ==> !Owned(m', w);
      assert fd in m' && m'[fd].csiSave == SaveFlag(op);
      assert op != 1 ==> !Served(m', w);
    }
  }

  /** A control request fails exactly when it would start a recording and cannot create the file. */
  lemma ControlSaveResult(m: map<int, Flags>, v: Saver, fd: int, op: int, fopenOk: bool)
    requires SaverInv(m, v) && fd in m && Safe(v)
    ensures ControlSave(v, fd, op, fopenOk).1 == if op == 1 && m[fd].csiSave == 0 && !fopenOk then -1 else 0
  {
    hide SaverInv;
    hide Good;
    FindNode(m, v, fd);
    AccessKeeps(m, v, fd);
    hide Access;
  }

  /** del_user finds a queue to push the terminator to whenever the save flag is set. */
  lemma StopHasQueue(m: map<int, Flags>, v: Saver, fd: int)
    requires SaverInv(m, v) && fd in m && m[fd].csiSave == 1
    ensures Safe(v) && Present(v, fd) && v.heap[v.list[Find(v, fd)]].file.started
  {
    FindNode(m, v, fd);
  }

  predicate HasQueue(v: Saver, fd: int)
    requires Safe(v)
  {
    Present(v, fd) && v.heap[v.list[Find(v, fd)]].file.started
  }

  /** What del_user relies on after a request, whose flag is stored in any case: if that is set, there is a
      node with a queue. There is exactly when the code is 0, or is 1 and the file can be created, or there
      was one before; otherwise del_user goes on to push to a queue that is NULL. */
  lemma StopHasQueueIff(v: Saver, fd: int, op: int, fopenOk: bool)
    requires Safe(v) && forall p :: p in v.heap ==> Good(v.heap[p].file) && p < v.next
    ensures var w := ControlSave(v, fd, op, fopenOk).0;
            && Safe(w)
            && ((SaveFlag(op) != 0 ==> HasQueue(w, fd)) <==> op == 0 || (op == 1 && fopenOk) || HasQueue(v, fd))
  {
    ControlSaveFinds(v, fd, op, fopenOk);
    if Present(v, fd) {
      assert Good(v.heap[v.list[Find(v, fd)]].file);
    }
  }

  lemma AccessFinds(v: Saver, fd: int)
    requires Safe(v) && forall p :: p in v.heap ==> p < v.next
    ensures var (w, p) := Access(v, fd);
            Safe(w) && Present(w, fd) && w.list[Find(w, fd)] == p
  {
    var (w, p) := Access(v, fd);
    if !Present(v, fd) {
      assert w.list[|v.list|] == p && w.heap[p].connfd == fd;
      forall j | 0 <= j < |v.list| ensures w.list[j] in v.heap && w.heap[w.list[j]].connfd != fd {
        assert w.list[j] == v.list[j] && v.list[j] in v.list;
      }
    }
  }

  lemma ControlSaveFinds(v: Saver, fd: int, op: int, fopenOk: bool)
    requires Safe(v) && forall p :: p in v.heap ==> p < v.next
    ensures var (w, p) := Access(v, fd);
            && Safe(w) && Present(w, fd) && w.list[Find(w, fd)] == p
            && var x := ControlSave(v, fd, op, fopenOk).0;
               Safe(x) && Present(x, fd) && x.list[Find(x, fd)] == p
  {
    hide Access;
    AccessFinds(v, fd);
    SameFind(Access(v, fd).0, ControlSave(v, fd, op, fopenOk).0, fd);
  }

  lemma SameFind(v: Saver, w: Saver, fd: int)
    requires Safe(v) && w.list == v.list && w.mailbox == v.mailbox && Present(v, fd)
    requires forall p :: p in v.heap ==> p in w.heap && w.heap[p].connfd == v.heap[p].connfd
    ensures Safe(w) && Find(w, fd) == Find(v, fd)
  {
    assert w.heap[w.list[Find(v, fd)]].connfd == fd;
  }

  /** One request is enough: the file cannot be created, or the operation code is another one. */
  lemma StopWithoutQueue()
    ensures var (v, w) := (ControlSave(EMPTY_SAVER, 1, 1, false).0, ControlSave(EMPTY_SAVER, 1, 2, true).0);
            && Safe(v) && Present(v, 1) && !HasQueue(v, 1) && SaveFlag(1) != 0
            && Safe(w) && Present(w, 1) && !HasQueue(w, 1) && SaveFlag(2) != 0
  {
    ControlSaveFinds(EMPTY_SAVER, 1, 1, false);
    ControlSaveFinds(EMPTY_SAVER, 1, 2, true);
  }

  lemma InformStopKeeps(m: map<int, Flags>, v: Saver, fd: int)
    requires SaverInv(m, v) && fd in m && m[fd].csiSave == 1
    requires Safe(v) && Present(v, fd) && v.heap[v.list[Find(v, fd)]].file.started
    ensures SaverInv(m[fd := m[fd].(csiSave := 0)], InformStop(v, fd))
  {
    FindNode(m, v, fd);
    hide SaverInv;
    var p := v.list[Find(v, fd)];
    PushEndGood(v.heap[p].file);
    SetFileKeeps(m, v, p, PushEnd(v.heap[p].file));
  }

  // ----- samples and the writer -----

  lemma NodeRecording(m: map<int, Flags>, v: Saver, i: nat)
    requires SaverInv(m, v) && i < |v.list|
    ensures var p := v.list[i];
            && Safe(v) && p in v.heap && Good(v.heap[p].file)
            && (v.heap[p].file.enable == 0 || v.heap[p].file.enable == 1)
            && (p in v.mailbox <==> v.heap[p].file.phase.Posted?)
  {
    assert v.list[i] in v.list;
  }

  lemma SampleStep(m: map<int, Flags>, v: Saver, i: nat, item: Item)
    requires SaverInv(m, v) && i < |v.list| && item != []
    requires v.list[i] in v.heap && v.heap[v.list[i]].file.enable == 1
    ensures SaverInv(m, SetFile(v, v.list[i], PushSample(v.heap[v.list[i]].file, item)))
  {
    NodeRecording(m, v, i);
    hide SaverInv;
    var p := v.list[i];
    PushSampleGood(v.heap[p].file, item);
    hide Good;
    SameEnableKeeps(m, v, p, PushSample(v.heap[p].file, item));
  }

  lemma SampleCases(v: Saver, i: nat, item: Item)
    requires Safe(v) && i < |v.list|
    ensures var p := v.list[i];
            var f := v.heap[p].file;
            if f.enable == 0 then Sample(v, i, item) == v
            else f.enable == 1 ==>
                   var w := SetFile(v, p, PushSample(f, item));
                   w.list == v.list && Safe(w) && Sample(v, i, item) == Sample(w, i + 1, item)
  {
  }

  lemma {:induction false} SampleKeeps(m: map<int, Flags>, v: Saver, i: nat, item: Item)
    requires SaverInv(m, v) && Safe(v) && i <= |v.list| && item != []
    ensures SaverInv(m, Sample(v, i, item))
    decreases |v.list| - i
  {
    if i < |v.list| {
      NodeRecording(m, v, i);
      SampleCases(v, i, item);
      hide *;
      var p := v.list[i];
      if v.heap[p].file.enable == 1 {
        SampleStep(m, v, i, item);
        SampleKeeps(m, SetFile(v, p, PushSample(v.heap[p].file, item)), i + 1, item);
      }
    }
  }

  /** The loop stops at a node with a disabled recording. */
  predicate Blocks(v: Saver, i: nat)
    requires Safe(v) && i < |v.list|
  {
    v.heap[v.list[i]].file.enable == 0
  }

  ghost predicate OpenFrom(v: Saver, i: nat, j: nat)
    requires Safe(v) && j < |v.list|
  {
    i <= j && forall k :: i <= k < j ==> !Blocks(v, k)
  }

  /** What one sample does to the node at position j, when the loop is at position i. */
  lemma {:induction false} SampleEffect(v: Saver, i: nat, item: Item, j: nat)
    requires Safe(v) && NoDup(v.list) && i <= |v.list| && j < |v.list|
    requires forall p :: p in v.list && v.heap[p].file.enable != 0 ==> v.heap[p].file.enable == 1
    ensures var p := v.list[j];
            p in Sample(v, i, item).heap &&
            Sample(v, i, item).heap[p] ==
              if OpenFrom(v, i, j) && v.heap[p].file.enable == 1 then v.heap[p].(file := PushSample(v.heap[p].file, item))
              else v.heap[p]
    decreases |v.list| - i
  {
    hide Sample;
    if i == |v.list| {
      SampleEnd(v, item);
    } else {
      SampleCases(v, i, item);
      var p := v.list[i];
      assert p in v.list && v.list[j] in v.list;
      if !Blocks(v, i) {
        var c := SetFile(v, p, PushSample(v.heap[p].file, item));
        assert forall k :: i < k < |v.list| ==> c.heap[v.list[k]] == v.heap[v.list[k]];
        assert forall k :: i < k < |v.list| ==> (Blocks(c, k) <==> Blocks(v, k));
        SampleEffect(c, i + 1, item, j);
      }
    }
  }

  lemma {:induction false} SampleLists(v: Saver, i: nat, item: Item)
    requires Safe(v) && i <= |v.list|
    ensures Sample(v, i, item).list == v.list && Sample(v, i, item).heap.Keys == v.heap.Keys
    ensures Sample(v, i, item).mailbox == v.mailbox && Sample(v, i, item).freed == v.freed
    decreases |v.list| - i
  {
    if i < |v.list| {
      var p := v.list[i];
      var f := v.heap[p].file;
      if f.enable == 1 {
        SampleLists(SetFile(v, p, PushSample(f, item)), i + 1, item);
      } else if f.enable != 0 {
        SampleLists(v, i + 1, item);
      }
    }
  }

  lemma SampleEnd(v: Saver, item: Item)
    requires Safe(v)
    ensures Sample(v, |v.list|, item) == v
  {
  }

  /** A recording on the list receives the sample exactly when it is enabled and none before it on the list
      is disabled; whatever else is on the list is left alone. */
  lemma SampleReachesIff(m: map<int, Flags>, v: Saver, item: Item, j: nat)
    requires SaverInv(m, v) && j < |v.list| && Safe(v)
    ensures var p, c := v.list[j], Sample(v, 0, item);
            p in c.heap &&
            c.heap[p] == if v.heap[p].file.enable == 1 && (forall k :: 0 <= k < j ==> !Blocks(v, k))
                         then v.heap[p].(file := v.heap[p].file.(queue := v.heap[p].file.queue + [item], pushed := v.heap[p].file.pushed + [item]))
                         else v.heap[p]
  {
    hide Sample;
    forall p | p in v.list ensures v.heap[p].file.enable == 0 || v.heap[p].file.enable == 1 {
      var i :| 0 <= i < |v.list| && v.list[i] == p;
      NodeRecording(m, v, i);
    }
    hide SaverInv;
    SampleEffect(v, 0, item, j);
  }

  lemma WriterKeeps(m: map<int, Flags>, v: Saver, p: nat)
    requires SaverInv(m, v) && WriterCanMove(v, p)
    ensures SaverInv(m, WriterMove(v, p))
  {
    var f := v.heap[p].file;
    MoveGood(f);
    if f.phase.Exiting? {
      PostKeeps(m, v, p);
    } else {
      assert p in v.mailbox <==> f.phase.Posted?;
      hide SaverInv;
      hide Good;
      hide Move;
      SameEnableKeeps(m, v, p, Move(f));
    }
  }

  lemma PostKeeps(m: map<int, Flags>, v: Saver, p: nat)
    requires SaverInv(m, v) && WriterCanMove(v, p) && v.heap[p].file.phase.Exiting?
    ensures SaverInv(m, WriterMove(v, p))
  {
    hide Memory;
    hide Owned;
    hide Served;
    hide Recordings;
    PostMemory(v, p);
    PostRecordings(v, p);
    PostOwned(m, v, p);
  }

  lemma PostMemory(v: Saver, p: nat)
    requires Memory(v) && WriterCanMove(v, p)
    ensures Memory(WriterMove(v, p))
  {
    hide Move;
  }

  lemma PostOwned(m: map<int, Flags>, v: Saver, p: nat)
    requires Owned(m, v) && Served(m, v) && WriterCanMove(v, p) && v.heap[p].file.phase.Exiting?
    ensures Owned(m, WriterMove(v, p)) && Served(m, WriterMove(v, p))
  {
    var w := SetFile(v, p, Move(v.heap[p].file));
    SetFileHas(v, p, Move(v.heap[p].file));
    PostFlags(m, w, p);
    hide Has;
  }

  lemma PostFlags(m: map<int, Flags>, v: Saver, p: nat)
    ensures Owned(m, v) ==> Owned(m, v.(mailbox := v.mailbox + [p]))
    ensures Served(m, v) ==> Served(m, v.(mailbox := v.mailbox + [p]))
  {
    var w := v.(mailbox := v.mailbox + [p]);
    forall g | Has(v, g) ensures Has(w, g) {
      var q :| q in v.heap && v.heap[q].connfd == g;
      assert q in w.heap && w.heap[q].connfd == g;
    }
  }

  lemma PostRecordings(v: Saver, p: nat)
    requires Recordings(v) && WriterCanMove(v, p) && v.heap[p].file.phase.Exiting?
    ensures Recordings(WriterMove(v, p))
  {
    MoveGood(v.heap[p].file);
    hide Good;
    var w := WriterMove(v, p);
    assert forall q :: q in w.mailbox <==> q in v.mailbox || q == p;
    forall i | 0 <= i < |v.mailbox| ensures w.mailbox[i] != p {
      assert v.mailbox[i] in v.mailbox;
    }
  }

  // ----- CLEAR -----

  lemma UnlinkSet(s: seq<nat>, p: nat)
    requires NoDup(s)
    ensures NoDup(Unlink(s, p))
    ensures forall q :: q in Unlink(s, p) <==> q in s && q != p
    ensures |Unlink(s, p)| == if p in s then |s| - 1 else |s|
  {
    var i, r := IndexOf(s, p), Unlink(s, p);
    if p in s {
      forall j | 0 <= j < |r| ensures r[j] == s[if j < i then j else j + 1] {
      }
      forall q | q in s && q != p ensures q in r {
        var k :| 0 <= k < |s| && s[k] == q;
        assert r[if k < i then k else k - 1] == q;
      }
    }
  }

  lemma MailboxTail(s: seq<nat>)
    requires NoDup(s) && s != []
    ensures NoDup(s[1..]) && forall q :: q in s[1..] <==> q in s && q != s[0]
  {
    forall q | q in s && q != s[0] ensures q in s[1..] {
      var k :| 0 <= k < |s| && s[k] == q;
      assert s[1..][k - 1] == q;
    }
  }

  /** What CLEAR does: the recording at the head of the queue is closed and its node unlinked and freed. */
  lemma ClearEffect(v: Saver)
    requires Safe(v) && v.mailbox != [] && NoDup(v.mailbox) && NoDup(v.list) && v.mailbox[0] in v.list
    ensures var p, w := v.mailbox[0], Clear(v);
            && w.cleared == v.cleared + [v.heap[p].file] && w.freed == v.freed + [p]
            && w.heap == v.heap - {p} && w.mailbox == v.mailbox[1..] && p !in w.mailbox
            && (forall q :: q in w.list <==> q in v.list && q != p) && w.cnt == v.cnt - 1 && w.next == v.next
  {
    UnlinkSet(v.list, v.mailbox[0]);
    MailboxTail(v.mailbox);
  }

  lemma ClearMemory(v: Saver)
    requires Memory(v) && Safe(v) && NoDup(v.mailbox) && v.mailbox != []
    ensures Memory(Clear(v))
  {
    UnlinkSet(v.list, v.mailbox[0]);
    MailboxTail(v.mailbox);
    hide Unlink;
    var p, w := v.mailbox[0], Clear(v);
    assert p in v.mailbox;
    assert forall q :: q in w.freed <==> q in v.freed || q == p;
  }

  lemma ClearRecordings(v: Saver)
    requires Recordings(v) && Safe(v) && v.mailbox != []
    ensures Recordings(Clear(v)) && v.heap[v.mailbox[0]].file.phase.Posted?
    ensures v.heap[v.mailbox[0]].file.enable == 0
  {
    var p := v.mailbox[0];
    assert p in v.mailbox;
    ClearedIsComplete(v.heap[p].file);
    MailboxTail(v.mailbox);
    hide Good;
  }

  lemma ClearFlags(m: map<int, Flags>, v: Saver)
    requires Owned(m, v) && Served(m, v) && Safe(v) && v.mailbox != []
    requires v.mailbox[0] in v.heap && v.heap[v.mailbox[0]].file.enable == 0
    ensures Owned(m, Clear(v)) && Served(m, Clear(v))
  {
    var p, w := v.mailbox[0], Clear(v);
    forall g | g in m && m[g].csiSave == 1 ensures Has(w, g) {
      var q :| q in v.heap && v.heap[q].connfd == g;
      assert q in w.heap && w.heap[q].connfd == g;
    }
  }

  /** CLEAR runs when the thread is gone and frees the node, once. */
  lemma ClearKeeps(m: map<int, Flags>, v: Saver)
    requires SaverInv(m, v) && v.mailbox != []
    ensures Safe(v) && v.mailbox[0] in v.heap && !Running(v.heap[v.mailbox[0]].file)
    ensures SaverInv(m, Clear(v))
  {
    assert v.mailbox[0] in v.mailbox;
    ClearMemory(v);
    ClearRecordings(v);
    hide Memory;
    hide Recordings;
    hide Good;
    ClearFlags(m, v);
  }

  // ----- events of other features -----

  lemma OtherFlagsKeep(m: map<int, Flags>, v: Saver, fd: int, flags: Flags)
    requires SaverInv(m, v)
    requires if fd in m then m[fd].csiSave == flags.csiSave else flags.csiSave == 0
    ensures SaverInv(m[fd := flags], v)
  {
    hide Memory;
    hide Recordings;
    hide Has;
  }

  lemma DepartureKeeps(m: map<int, Flags>, v: Saver, fd: int)
    requires SaverInv(m, v) && fd in m && m[fd].csiSave == 0
    ensures SaverInv(m - {fd}, v)
  {
    hide Memory;
    hide Recordings;
    hide Has;
  }
}
