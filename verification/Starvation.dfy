/** What the break in the sample loops does to runs: a node without a recording cuts off those behind it. */
module Starvation {
  import opened Sequences
  import opened Wrappers
  import opened Sessions
  import opened EventModel
  import opened Runs
  import opened Recorder
  import B = RssiModel
  import V = CsiSaveModel

  // ----- two inputs -----

  const CSI_STOPPED := V.Saver(map[0 := V.Node(1, Fresh())], 1, [0], 1, [], [], [])
  const CSI_STARTED := V.Saver(map[0 := V.Node(1, Fresh()), 1 := V.Node(2, Start())], 2, [0, 1], 2, [], [], [])

  lemma CsiRequests(item: Item)
    ensures V.ControlSave(V.EMPTY_SAVER, 1, 0, true) == (CSI_STOPPED, 0)
    ensures V.ControlSave(CSI_STOPPED, 2, 1, true) == (CSI_STARTED, 0) && V.MayStart(CSI_STOPPED, 2)
    ensures V.Sample(CSI_STARTED, 0, item) == CSI_STARTED
  {
    assert !V.Present(V.EMPTY_SAVER, 1) && !V.Present(CSI_STOPPED, 2);
    assert V.Link(V.EMPTY_SAVER, 1) == CSI_STOPPED;
    assert V.SetFile(V.Link(CSI_STOPPED, 2), 1, Start()) == CSI_STARTED;
  }

  /** Storing flags does not end sessions. */
  lemma RecordLive(s: Server, fd: int, flags: Flags, g: int)
    ensures Live(Record(s, fd, flags), g) <==> Live(s, g)
  {
    var i, t := IndexOfFd(s.sessions, fd), Record(s, fd, flags).sessions;
    assert |t| == |s.sessions| && forall k :: 0 <= k < |t| ==> t[k].connfd == s.sessions[k].connfd;
  }

  /** Session 1 stops a CSI recording that it never started; session 2 starts one, is told CMD_OK, and has an
      enabled recording that gets no sample. */
  lemma CsiStarves(item: Item)
    requires item != []
    ensures var es := [Accept(1), Accept(2), SaveCsi(1, 0, true), SaveCsi(2, 1, true)];
            && PossibleFrom(true, es)
            && var t := RunFrom(true, es);
               && t.replies == [(1, CMD_OK), (2, CMD_OK)]
               && t.saver == CSI_STARTED
               && MayHappen(t, CsiReady(item)) && After(t, CsiReady(item)) == t
  {
    hide SaveStep;
    hide Allowed;
    hide Inv;
    hide PossibleFrom;
    hide RunFrom;
    hide V.Sample;
    var es2 := [] + [Accept(1)] + [Accept(2)];
    var a, b := SaveCsi(1, 0, true), SaveCsi(2, 1, true);
    TwoSessions();
    StopThenStartCsi(RunFrom(true, es2));
    ExtendFrom(true, es2, a);
    ExtendFrom(true, es2 + [a], b);
    var t := RunFrom(true, es2 + [a] + [b]);
    assert ReachedBy(t, true, es2 + [a] + [b]);
    SampleIgnoredCsi(t, item);
    assert es2 + [a] + [b] == [Accept(1), Accept(2), a, b];
  }

  lemma StopThenStartCsi(s: Sys)
    requires Inv(s) && Live(s.server, 1) && Live(s.server, 2) && s.saver == V.EMPTY_SAVER
    ensures var a, b := SaveCsi(1, 0, true), SaveCsi(2, 1, true);
            && Allowed(s, a) && Inv(Step(s, a)) && Allowed(Step(s, a), b) && Inv(Step(Step(s, a), b))
            && var t := Step(Step(s, a), b);
               t.saver == CSI_STARTED && t.replies == s.replies + [(1, CMD_OK), (2, CMD_OK)]
  {
    hide Inv;
    hide V.ControlSave;
    hide V.MayStart;
    hide V.Safe;
    hide Live;
    hide Record;
    CsiRequests([]);
    InvSafe(s);
    var t := Step(s, SaveCsi(1, 0, true));
    StepKeeps(s, SaveCsi(1, 0, true));
    InvSafe(t);
    RecordLive(s.server, 1, FlagsOf(s.server, 1).(csiSave := 0), 2);
    StepKeeps(t, SaveCsi(2, 1, true));
  }

  lemma SampleIgnoredCsi(t: Sys, item: Item)
    requires Inv(t) && t.saver == CSI_STARTED && item != []
    ensures Allowed(t, CsiReady(item)) && Step(t, CsiReady(item)) == t
  {
    CsiRequests(item);
    InvSafe(t);
  }

  lemma TwoSessions()
    ensures PossibleFrom(true, [] + [Accept(1)] + [Accept(2)])
    ensures var t := RunFrom(true, [] + [Accept(1)] + [Accept(2)]);
            && Live(t.server, 1) && Live(t.server, 2)
            && FlagsOf(t.server, 1) == FlagsOf(t.server, 2) == NO_FLAGS
            && t.server.sessions == [Session(1, 1, 0, NO_FLAGS), Session(2, 2, 1, NO_FLAGS)]
            && t.broker == B.EMPTY_BROKER && t.saver == V.EMPTY_SAVER && t.replies == []
  {
    hide Inv;
    NoEvents(true);
    ExtendFrom(true, [], Accept(1));
    ExtendFrom(true, [] + [Accept(1)], Accept(2));
  }

  const RSSI_OPENED := B.Broker(map[0 := B.Node(1, None, 0), 1 := B.Node(2, None, 0)], 2, [0, 1], 2, 1,
                                [], [], [], [B.Request(true, B.Answer(true))])
  const RSSI_STOPPED := RSSI_OPENED.(heap := map[0 := B.Node(1, Some(Fresh()), 0), 1 := B.Node(2, None, 0)])
  const RSSI_STARTED := RSSI_OPENED.(heap := map[0 := B.Node(1, Some(Fresh()), 0), 1 := B.Node(2, Some(Start()), 0)])

  lemma RssiRequests(item: Item)
    ensures B.Open(B.Open(B.EMPTY_BROKER, 1, B.Answer(true)).0, 2, B.Answer(true)) == (RSSI_OPENED, 0)
    ensures B.Open(B.EMPTY_BROKER, 1, B.Answer(true)).1 == 0
    ensures B.ControlSave(RSSI_OPENED, 1, 0, true) == (RSSI_STOPPED, -1)
    ensures B.ControlSave(RSSI_STOPPED, 2, 1, true) == (RSSI_STARTED, 0) && B.MayStart(RSSI_STOPPED, 2)
    ensures B.Sample(RSSI_STARTED, 0, item) == RSSI_STARTED
  {
    var one := B.Open(B.EMPTY_BROKER, 1, B.Answer(true)).0;
    assert one == B.Broker(map[0 := B.Node(1, None, 0)], 1, [0], 1, 1, [], [], [],
                           [B.Request(true, B.Answer(true))]);
    assert B.Link(one, 2) == RSSI_OPENED;
    assert B.Find(RSSI_OPENED, 1) == 0 && B.Find(RSSI_STOPPED, 2) == 1;
    assert B.SetFile(RSSI_OPENED, 0, Fresh()) == RSSI_STOPPED;
    assert B.SetFile(RSSI_STOPPED, 1, Start()) == RSSI_STARTED;
  }

  /** The same with RSSI, once both have opened it. */
  lemma RssiStarves(item: Item)
    requires item != []
    ensures var es := [Accept(1), Accept(2), OpenRssi(1, B.Answer(true)), OpenRssi(2, B.Answer(true)),
                       ControlRssi(1, 0, true), ControlRssi(2, 1, true)];
            && PossibleFrom(true, es)
            && var t := RunFrom(true, es);
               && t.replies == [(1, CMD_FAIL), (2, CMD_OK)]
               && t.broker == RSSI_STARTED
               && MayHappen(t, RssiReady(item)) && After(t, RssiReady(item)) == t
  {
    var es4 := [] + [Accept(1)] + [Accept(2)] + [OpenRssi(1, B.Answer(true))] + [OpenRssi(2, B.Answer(true))];
    var c, d := ControlRssi(1, 0, true), ControlRssi(2, 1, true);
    hide RssiStep;
    hide Allowed;
    hide Inv;
    hide PossibleFrom;
    hide RunFrom;
    hide B.Sample;
    BothOpen();
    var s4 := RunFrom(true, es4);
    StopThenStart(s4);
    ExtendFrom(true, es4, c);
    ExtendFrom(true, es4 + [c], d);
    var t := RunFrom(true, es4 + [c] + [d]);
    assert ReachedBy(t, true, es4 + [c] + [d]);
    SampleIgnored(t, item);
    assert es4 + [c] + [d] == [Accept(1), Accept(2), OpenRssi(1, B.Answer(true)), OpenRssi(2, B.Answer(true)), c, d];
  }

  lemma StopThenStart(s: Sys)
    requires Inv(s) && Live(s.server, 1) && Live(s.server, 2) && s.broker == RSSI_OPENED
    ensures var c, d := ControlRssi(1, 0, true), ControlRssi(2, 1, true);
            && Allowed(s, c) && Inv(Step(s, c)) && Allowed(Step(s, c), d) && Inv(Step(Step(s, c), d))
            && var t := Step(Step(s, c), d);
               t.broker == RSSI_STARTED && t.replies == s.replies + [(1, CMD_FAIL), (2, CMD_OK)]
  {
    hide Inv;
    hide B.ControlSave;
    hide B.MayStart;
    hide B.Safe;
    hide Live;
    RssiRequests([]);
    InvSafe(s);
    var t := Step(s, ControlRssi(1, 0, true));
    StepKeeps(s, ControlRssi(1, 0, true));
    InvSafe(t);
    StepKeeps(t, ControlRssi(2, 1, true));
  }

  lemma SampleIgnored(t: Sys, item: Item)
    requires Inv(t) && t.broker == RSSI_STARTED && item != []
    ensures Allowed(t, RssiReady(item)) && Step(t, RssiReady(item)) == t
  {
    RssiRequests(item);
    InvSafe(t);
  }

  lemma BothOpen()
    ensures var es := [] + [Accept(1)] + [Accept(2)] + [OpenRssi(1, B.Answer(true))] + [OpenRssi(2, B.Answer(true))];
            && PossibleFrom(true, es)
            && var t := RunFrom(true, es);
               Live(t.server, 1) && Live(t.server, 2) && t.broker == RSSI_OPENED && t.replies == []
  {
    hide Inv;
    hide FlagMap;
    hide B.Open;
    hide B.Safe;
    var es2 := [] + [Accept(1)] + [Accept(2)];
    var a, b := OpenRssi(1, B.Answer(true)), OpenRssi(2, B.Answer(true));
    TwoSessions();
    RssiRequests([]);
    var s2 := RunFrom(true, es2);
    InvSafe(s2);
    ExtendFrom(true, es2, a);
    var s3 := RunFrom(true, es2 + [a]);
    InvSafe(s3);
    assert s3.server.sessions == [Session(1, 1, 0, NO_FLAGS.(rssi := 1)), Session(2, 2, 1, NO_FLAGS)];
    ExtendFrom(true, es2 + [a], b);
    RecordLive(s3.server, 2, FlagsOf(s3.server, 2).(rssi := 1), 1);
    RecordLive(s3.server, 2, FlagsOf(s3.server, 2).(rssi := 1), 2);
  }

  // ----- every run -----

  /** q stands behind p on the list. */
  predicate Behind(l: seq<nat>, p: nat, q: nat) {
    V.IndexOf(l, p) < V.IndexOf(l, q) < |l|
  }

  /** A node on the list whose recording was asked for once and never started. */
  predicate NeverStarted(v: V.Saver, p: nat) {
    p in v.heap && p in v.list && !v.heap[p].file.started
  }

  /** From v0 to v, p has kept its place, and no recording behind it has received anything: each has what
      it had, behind p, or, if it was started since, nothing. */
  ghost predicate Starved(v0: V.Saver, v: V.Saver, p: nat) {
    && NeverStarted(v0, p) && NeverStarted(v, p) && v.heap[p] == v0.heap[p]
    && forall q :: q in v.heap && Behind(v.list, p, q) ==>
         || v.heap[q].file.pushed == []
         || (q in v0.heap && Behind(v0.list, p, q) && v.heap[q].file.pushed == v0.heap[q].file.pushed)
  }

  lemma StarvedOn(v0: V.Saver, v: V.Saver, w: V.Saver, p: nat)
    requires Starved(v0, v, p) && Starved(v, w, p)
    ensures Starved(v0, w, p)
  {
    hide Behind;
  }

  lemma SetFileStarves(v: V.Saver, p: nat, q: nat, f: File)
    requires NeverStarted(v, p) && q in v.heap && q != p
    requires f.pushed == [] || f.pushed == v.heap[q].file.pushed
    ensures Starved(v, V.SetFile(v, q, f), p)
  {
    hide Behind;
  }

  lemma LinkStarves(m: map<int, Flags>, v: V.Saver, fd: int, p: nat)
    requires V.SaverInv(m, v) && NeverStarted(v, p)
    ensures Starved(v, V.Link(v, fd), p)
  {
    hide Good;
    var w := V.Link(v, fd);
    IndexOfAppend(v.list, v.next, p);
    forall q | q in w.heap && Behind(w.list, p, q) && q != v.next ensures Behind(v.list, p, q) {
      assert q in w.list;
      IndexOfAppend(v.list, v.next, q);
    }
  }

  lemma {:induction false} IndexOfAppend(l: seq<nat>, x: nat, p: nat)
    requires p in l
    ensures V.IndexOf(l + [x], p) == V.IndexOf(l, p)
  {
    assert (l + [x])[V.IndexOf(l, p)] == p;
    assert forall k :: 0 <= k < |l| ==> (l + [x])[k] == l[k];
  }

  lemma FreshNode(m: map<int, Flags>, v: V.Saver, p: nat)
    requires V.SaverInv(m, v) && NeverStarted(v, p)
    ensures V.Safe(v) && NoDup(v.list) && v.heap[p].file == Fresh() && p !in v.mailbox
    ensures forall q :: q in v.heap <==> q in v.list
  {
    assert Good(v.heap[p].file);
  }

  lemma SampleStarves(m: map<int, Flags>, v: V.Saver, item: Item, p: nat)
    requires V.SaverInv(m, v) && NeverStarted(v, p) && V.Safe(v)
    ensures Starved(v, V.Sample(v, 0, item), p)
  {
    hide V.SaverInv;
    hide V.Sample;
    hide NoDup;
    FreshNode(m, v, p);
    var w, i := V.Sample(v, 0, item), V.IndexOf(v.list, p);
    V.SampleLists(v, 0, item);
    V.SampleReachesIff(m, v, item, i);
    assert V.Blocks(v, i);
    assert p in w.heap;
    forall q | q in w.heap && Behind(w.list, p, q) ensures w.heap[q] == v.heap[q] {
      V.SampleReachesIff(m, v, item, V.IndexOf(v.list, q));
    }
  }

  lemma ClearStarves(m: map<int, Flags>, v: V.Saver, p: nat)
    requires V.SaverInv(m, v) && NeverStarted(v, p) && V.Safe(v) && v.mailbox != []
    ensures Starved(v, V.Clear(v), p)
  {
    hide V.SaverInv;
    hide V.Unlink;
    hide NoDup;
    FreshNode(m, v, p);
    var x, w := v.mailbox[0], V.Clear(v);
    assert x in v.mailbox;
    hide Behind;
    V.UnlinkSet(v.list, x);
    IndexOfUnlink(v.list, x, p);
    forall q | q in w.heap && Behind(w.list, p, q) ensures Behind(v.list, p, q) {
      BehindUnlinked(v.list, x, p, q);
    }
  }

  lemma BehindUnlinked(l: seq<nat>, x: nat, p: nat, q: nat)
    requires NoDup(l) && p in l && p != x && Behind(V.Unlink(l, x), p, q)
    ensures Behind(l, p, q)
  {
    hide V.Unlink;
    V.UnlinkSet(l, x);
    IndexOfUnlink(l, x, p);
    IndexOfUnlink(l, x, q);
  }

  lemma IndexOfUnlink(l: seq<nat>, x: nat, p: nat)
    requires NoDup(l) && p in l && p != x
    ensures V.IndexOf(V.Unlink(l, x), p) == V.IndexOf(l, p) - if V.IndexOf(l, x) < V.IndexOf(l, p) then 1 else 0
  {
    var i, j, r := V.IndexOf(l, x), V.IndexOf(l, p), V.Unlink(l, x);
    if i < |l| {
      var k := if i < j then j - 1 else j;
      assert r[k] == p;
      forall h | 0 <= h < k ensures r[h] != p {
        assert r[h] == l[if h < i then h else h + 1];
      }
    }
  }

  lemma WriterStarves(m: map<int, Flags>, v: V.Saver, p: nat, q: nat)
    requires V.SaverInv(m, v) && NeverStarted(v, p) && V.WriterCanMove(v, q)
    ensures Starved(v, V.WriterMove(v, q), p)
  {
    assert Good(v.heap[p].file) && Good(v.heap[q].file);
    MoveGood(v.heap[q].file);
    hide Good;
    hide V.SaverInv;
    SetFileStarves(v, p, q, Move(v.heap[q].file));
    hide Move;
  }

  lemma AccessStarves(m: map<int, Flags>, v: V.Saver, fd: int, p: nat)
    requires V.SaverInv(m, v) && V.Safe(v) && NeverStarted(v, p)
    ensures var (w, q) := V.Access(v, fd);
            && Starved(v, w, p) && NeverStarted(w, p) && q in w.heap
            && (q == p ==> v.heap[p].connfd == fd && w.heap[q].file == Fresh())
  {
    hide Good;
    V.FindNode(m, v, fd);
    FreshNode(m, v, p);
    if V.Present(v, fd) {
      NothingStarves(v, p);
    } else {
      LinkStarves(m, v, fd, p);
    }
  }

  lemma ControlStarves(m: map<int, Flags>, v: V.Saver, fd: int, op: int, fopenOk: bool, p: nat)
    requires V.SaverInv(m, v) && V.Safe(v) && NeverStarted(v, p) && (op == 1 ==> v.heap[p].connfd != fd)
    ensures Starved(v, V.ControlSave(v, fd, op, fopenOk).0, p)
  {
    hide V.SaverInv;
    hide NeverStarted;
    hide Starved;
    hide V.Access;
    AccessStarves(m, v, fd, p);
    var (w, q) := V.Access(v, fd);
    if q != p {
      var f := w.heap[q].file;
      SetFileStarves(w, p, q, PushEnd(f));
      StarvedOn(v, w, V.SetFile(w, q, PushEnd(f)), p);
      SetFileStarves(w, p, q, Start());
      StarvedOn(v, w, V.SetFile(w, q, Start()), p);
    }
  }

  /** The connfd of p is not asked to start a recording. */
  predicate NoStart(es: seq<Event>, fd: int) {
    forall k :: 0 <= k < |es| && es[k].SaveCsi? && es[k].op == 1 ==> es[k].fd != fd
  }

  lemma StarvedStep(s: Sys, e: Event, p: nat)
    requires Inv(s) && Allowed(s, e) && NeverStarted(s.saver, p)
    requires e.SaveCsi? && e.op == 1 ==> e.fd != s.saver.heap[p].connfd
    ensures Starved(s.saver, Step(s, e).saver, p)
  {
    hide Starved;
    hide NeverStarted;
    var m, v := Flagged(s), s.saver;
    InvSafe(s);
    SaverOfStep(s, e);
    if e.Disconnect? && FlagsOf(s.server, e.fd).csiSave != 0 {
      LeaveStarves(s, e.fd, p);
    } else if e.SaveCsi? {
      ControlStarves(m, v, e.fd, e.op, e.fopenOk, p);
    } else if e.CsiReady? {
      SampleStarves(m, v, e.item, p);
    } else if e.ClearCsi? {
      ClearStarves(m, v, p);
    } else if e.CsiWriter? {
      WriterStarves(m, v, p, e.node);
    } else {
      NothingStarves(v, p);
    }
  }

  lemma NothingStarves(v: V.Saver, p: nat)
    requires NeverStarted(v, p)
    ensures Starved(v, v, p)
  {
  }

  lemma LeaveStarves(s: Sys, fd: int, p: nat)
    requires Inv(s) && Live(s.server, fd) && FlagsOf(s.server, fd).csiSave != 0 && NeverStarted(s.saver, p)
    ensures V.Safe(s.saver) && V.Present(s.saver, fd) && s.saver.heap[s.saver.list[V.Find(s.saver, fd)]].file.started
    ensures Starved(s.saver, V.InformStop(s.saver, fd), p)
  {
    LookUp(s, fd);
    V.StopHasQueue(Flagged(s), s.saver, fd);
    var q := s.saver.list[V.Find(s.saver, fd)];
    SetFileStarves(s.saver, p, q, PushEnd(s.saver.heap[q].file));
  }

  /** A node that was never started stays where it is, also after its session has gone, and starves every
      recording behind it - in every run in which its connfd starts none. */
  lemma {:induction false} StarvedRun(s: Sys, es: seq<Event>, p: nat)
    requires Inv(s) && Possible(s, es) && NeverStarted(s.saver, p) && NoStart(es, s.saver.heap[p].connfd)
    ensures Starved(s.saver, Run(s, es).saver, p)
    decreases |es|
  {
    hide Inv;
    hide Allowed;
    hide Step;
    hide Behind;
    if es != [] {
      StarvedStep(s, es[0], p);
      StepKeeps(s, es[0]);
      var t := Step(s, es[0]);
      StarvedRun(t, es[1..], p);
      StarvedOn(s.saver, t.saver, Run(t, es[1..]).saver, p);
    }
  }

  // ----- every run, for RSSI -----

  /** A node on the list with a recording that was allocated and never started. */
  predicate NeverStartedRssi(b: B.Broker, p: nat) {
    p in b.heap && p in b.list && b.heap[p].file.Some? && !b.heap[p].file.value.started
  }

  function Pushed(n: B.Node): seq<Item> {
    if n.file.None? then [] else n.file.value.pushed
  }

  ghost predicate StarvedRssi(b0: B.Broker, b: B.Broker, p: nat) {
    && NeverStartedRssi(b0, p) && NeverStartedRssi(b, p) && b.heap[p] == b0.heap[p]
    && forall q :: q in b.heap && Behind(b.list, p, q) ==>
         || Pushed(b.heap[q]) == []
         || (q in b0.heap && Behind(b0.list, p, q) && Pushed(b.heap[q]) == Pushed(b0.heap[q]))
  }

  lemma StarvedOnRssi(b0: B.Broker, b: B.Broker, c: B.Broker, p: nat)
    requires StarvedRssi(b0, b, p) && StarvedRssi(b, c, p)
    ensures StarvedRssi(b0, c, p)
  {
    hide Behind;
  }

  /** Every node behind p holds what it held before, or nothing, and stood behind p before. */
  lemma SameListStarves(b: B.Broker, c: B.Broker, p: nat)
    requires NeverStartedRssi(b, p) && c.list == b.list && p in c.heap && c.heap[p] == b.heap[p]
    requires forall q :: q in c.heap ==> Pushed(c.heap[q]) == [] || (q in b.heap && Pushed(c.heap[q]) == Pushed(b.heap[q]))
    ensures StarvedRssi(b, c, p)
  {
    hide Behind;
  }

  lemma FreshRssi(m: map<int, Flags>, b: B.Broker, p: nat)
    requires B.BrokerInv(m, b) && NeverStartedRssi(b, p)
    ensures B.Memory(b) && B.Safe(b) && NoDup(b.list)
    ensures b.heap[p].file.value == Fresh() && p !in b.mailbox
  {
    assert Good(b.heap[p].file.value);
  }

  lemma LinkStarvesRssi(b: B.Broker, fd: int, p: nat)
    requires B.Memory(b) && NeverStartedRssi(b, p)
    ensures StarvedRssi(b, B.Link(b, fd), p)
  {
    hide B.Memory;
    B.NextIsNew(b);
    var c := B.Link(b, fd);
    IndexOfAppend(b.list, b.next, p);
    forall q | q in c.heap && Behind(c.list, p, q) && q != b.next ensures Behind(b.list, p, q) {
      assert q in c.list;
      IndexOfAppend(b.list, b.next, q);
    }
  }

  lemma OpenStarves(b: B.Broker, fd: int, reply: B.Reply, p: nat)
    requires B.Memory(b) && NeverStartedRssi(b, p)
    ensures StarvedRssi(b, B.Open(b, fd, reply).0, p)
  {
    hide B.Memory;
    hide B.Link;
    hide Behind;
    LinkStarvesRssi(b, fd, p);
    var c := B.Control(b, 1, reply).0;
    LinkOfState(b, fd, c.state, c.requests);
  }

  lemma LinkOfState(b: B.Broker, fd: int, state: int, requests: seq<B.Request>)
    ensures var c := b.(state := state, requests := requests);
            B.Link(c, fd) == B.Link(b, fd).(state := state, requests := requests)
  {
  }

  lemma SampleStarvesRssi(m: map<int, Flags>, b: B.Broker, item: Item, p: nat)
    requires B.BrokerInv(m, b) && NeverStartedRssi(b, p) && B.Safe(b)
    ensures StarvedRssi(b, B.Sample(b, 0, item), p)
  {
    hide B.BrokerInv;
    hide B.Sample;
    hide NoDup;
    hide B.Memory;
    FreshRssi(m, b, p);
    var c, i := B.Sample(b, 0, item), V.IndexOf(b.list, p);
    B.SampleLists(b, 0, item);
    B.SampleReachesIff(m, b, item, i);
    assert B.Blocks(b, i);
    assert p in c.heap;
    forall q | q in c.heap && Behind(c.list, p, q) ensures c.heap[q] == b.heap[q] {
      B.SampleReachesIff(m, b, item, V.IndexOf(b.list, q));
    }
  }

  lemma CloseStarves(b: B.Broker, fd: int, reply: B.Reply, p: nat)
    requires B.Memory(b) && B.Opened(b, fd) && NeverStartedRssi(b, p) && b.heap[p].connfd != fd
    ensures StarvedRssi(b, B.Close(b, fd, reply), p)
  {
    hide B.Close;
    hide B.Memory;
    hide NoDup;
    hide V.Unlink;
    hide Behind;
    NoDupOf(b);
    B.CloseEffect(b, fd, reply);
    var i := B.Find(b, fd);
    var x, c := b.list[i], B.Close(b, fd, reply);
    UnlinkAt(b.list, i);
    forall q | q in c.heap && Behind(c.list, p, q) ensures Behind(b.list, p, q) {
      BehindUnlinked(b.list, x, p, q);
    }
  }

  lemma NoDupOf(b: B.Broker)
    requires B.Memory(b)
    ensures B.Safe(b) && NoDup(b.list)
  {
  }

  lemma UnlinkAt(l: seq<nat>, i: nat)
    requires NoDup(l) && i < |l|
    ensures V.Unlink(l, l[i]) == l[..i] + l[i + 1..]
  {
    assert l[i] in l;
  }

  lemma LeaveStarvesRssi(s: Sys, fd: int, flags: Flags, reply: B.Reply, p: nat)
    requires Leavable(s, fd, flags) && NeverStartedRssi(s.broker, p) && s.broker.heap[p].connfd != fd
    ensures StarvedRssi(s.broker, LeaveRssi(s.broker, fd, flags, reply), p)
  {
    var b, c := s.broker, s.broker;
    if flags.rssiSave != 0 {
      var q := b.list[B.Find(b, fd)];
      assert q in b.list;
      c := B.InformStop(b, fd);
      B.SetFileMemory(b, q, PushEnd(b.heap[q].file.value));
    }
    SameListStarves(b, c, p);
    LeaveRssiOpened(b, fd, flags);
    hide StarvedRssi;
    hide B.Memory;
    if flags.rssi != 0 {
      CloseStarves(c, fd, reply, p);
      StarvedOnRssi(b, c, B.Close(c, fd, reply), p);
    }
  }

  lemma ControlStarvesRssi(b: B.Broker, fd: int, op: int, fopenOk: bool, p: nat)
    requires B.Safe(b) && NeverStartedRssi(b, p) && b.heap[p].file.value == Fresh()
    requires op == 1 && fopenOk ==> b.heap[p].connfd != fd
    ensures StarvedRssi(b, B.ControlSave(b, fd, op, fopenOk).0, p)
  {
    hide StarvedRssi;
    SameListStarves(b, B.ControlSave(b, fd, op, fopenOk).0, p);
  }

  lemma ClearStarvesRssi(b: B.Broker, p: nat)
    requires B.Clearable(b) && NeverStartedRssi(b, p) && b.mailbox[0] != p
    ensures StarvedRssi(b, B.Clear(b), p)
  {
    hide StarvedRssi;
    SameListStarves(b, B.Clear(b), p);
  }

  lemma WriterStarvesRssi(b: B.Broker, q: nat, p: nat)
    requires NeverStartedRssi(b, p) && b.heap[p].file.value == Fresh() && B.WriterCanMove(b, q)
    ensures StarvedRssi(b, B.WriterMove(b, q), p)
  {
    hide StarvedRssi;
    SameListStarves(b, B.WriterMove(b, q), p);
  }

  /** The event starts a recording for the connfd, or ends its session. */
  predicate StartsOrLeaves(e: Event, fd: int) {
    || (e.ControlRssi? && e.fd == fd && e.op == 1 && e.fopenOk)
    || (e.Disconnect? && e.fd == fd)
  }

  lemma StarvedStepRssi(s: Sys, e: Event, p: nat)
    requires Inv(s) && Allowed(s, e) && NeverStartedRssi(s.broker, p) && !StartsOrLeaves(e, s.broker.heap[p].connfd)
    ensures StarvedRssi(s.broker, Step(s, e).broker, p)
  {
    hide StarvedRssi;
    hide Allowed;
    var m, b := Flagged(s), s.broker;
    FreshRssi(m, b, p);
    BrokerOfStep(s, e);
    if e.Disconnect? {
      DisconnectStarves(s, e, p);
    } else if e.OpenRssi? {
      hide Step;
      OpenStarves(b, e.fd, e.reply, p);
    } else if e.ControlRssi? {
      hide Step;
      ControlStarvesRssi(b, e.fd, e.op, e.fopenOk, p);
    } else if e.RssiReady? {
      hide Step;
      SampleStarvesRssi(m, b, e.item, p);
    } else if e.ClearRssi? {
      hide Step;
      ClearStarvesRssi(b, p);
    } else if e.RssiWriter? {
      hide Step;
      WriterStarvesRssi(b, e.node, p);
    } else {
      hide Step;
      SameListStarves(b, b, p);
    }
  }

  lemma DisconnectStarves(s: Sys, e: Event, p: nat)
    requires Inv(s) && Allowed(s, e) && e.Disconnect? && NeverStartedRssi(s.broker, p) && s.broker.heap[p].connfd != e.fd
    ensures StarvedRssi(s.broker, Step(s, e).broker, p)
  {
    hide Inv;
    hide Leavable;
    hide LeaveRssi;
    hide StarvedRssi;
    ReadyToLeave(s, e.fd, e.reply);
    LeaveStarvesRssi(s, e.fd, FlagsOf(s.server, e.fd), e.reply, p);
  }

  /** An RSSI node whose recording was never started keeps its place and starves every recording behind it,
      in every run in which its session neither starts one nor leaves. */
  lemma {:induction false} StarvedRunRssi(s: Sys, es: seq<Event>, p: nat)
    requires Inv(s) && Possible(s, es) && NeverStartedRssi(s.broker, p)
    requires forall k :: 0 <= k < |es| ==> !StartsOrLeaves(es[k], s.broker.heap[p].connfd)
    ensures StarvedRssi(s.broker, Run(s, es).broker, p)
    decreases |es|
  {
    hide Inv;
    hide Allowed;
    hide Step;
    hide Behind;
    if es == [] {
      SameListStarves(s.broker, s.broker, p);
    } else {
      StarvedStepRssi(s, es[0], p);
      StepKeeps(s, es[0]);
      var t := Step(s, es[0]);
      StarvedRunRssi(t, es[1..], p);
      StarvedOnRssi(s.broker, t.broker, Run(t, es[1..]).broker, p);
    }
  }
}
