/** Recordings over runs: a file holds exactly the samples that reached its recording from its start on. */
module FileRuns {
  import opened Sessions
  import opened EventModel
  import opened Runs
  import S = Sequences
  import W = Wrappers
  import R = Recorder
  import D = DmaModel
  import B = RssiModel
  import V = CsiSaveModel

  // ----- CSI -----

  /** A sample reaches node p: its recording is enabled, and none before it on the list is disabled. */
  ghost predicate CsiReached(v: V.Saver, p: nat)
    requires V.Safe(v)
  {
    exists j :: && 0 <= j < |v.list| && v.list[j] == p && v.heap[p].file.enable == 1
                && forall k :: 0 <= k < j ==> v.heap[v.list[k]].file.enable != 0
  }

  ghost function CsiGiven(v: V.Saver, e: Event, p: nat): seq<R.Item>
    requires V.Safe(v)
  {
    if e.CsiReady? && CsiReached(v, p) then [e.item] else []
  }

  /** The event closes the recording in node p. */
  predicate ClosesCsi(v: V.Saver, e: Event, p: nat) {
    e.ClearCsi? && v.mailbox != [] && v.mailbox[0] == p
  }

  predicate StartsCsi(v: V.Saver, e: Event, p: nat)
    requires p in v.heap
  {
    e.SaveCsi? && e.op == 1 && v.heap[p].connfd == e.fd && v.heap[p].file.enable == 0
  }

  /** What an event does to one recording. A start makes it empty, and is made only if it had not started; a stop
      and a disconnect disable it; a CLEAR closes it as it is; and only samples that reach it are added. */
  ghost predicate CsiFollows(v: V.Saver, w: V.Saver, e: Event, p: nat)
    requires V.Safe(v) && p in v.heap
  {
    var f, fd := v.heap[p].file, v.heap[p].connfd;
    && (if ClosesCsi(v, e, p) then p !in w.heap && w.cleared == v.cleared + [f]
        else
          p in w.heap && w.heap[p].connfd == fd &&
          var g := w.heap[p].file;
          if StartsCsi(v, e, p) then
            !f.started && g == R.File(1, true, [], R.Idle, [], [])
          else
            && g.started == f.started && g.pushed == f.pushed + CsiGiven(v, e, p)
            && g.enable == if (e.SaveCsi? && e.op == 0 && e.fd == fd) || (e.Disconnect? && e.fd == fd) then 0 else f.enable)
    && (!e.ClearCsi? ==> w.cleared == v.cleared)
  }

  lemma CsiControl(m: map<int, Flags>, v: V.Saver, e: Event, p: nat)
    requires V.SaverInv(m, v) && V.Safe(v) && p in v.heap && e.SaveCsi? && e.fd in m
    requires e.op == 0 || (e.op == 1 && V.MayStart(v, e.fd) && (e.fopenOk || m[e.fd].csiSave == 1))
    ensures CsiFollows(v, V.ControlSave(v, e.fd, e.op, e.fopenOk).0, e, p)
  {
    hide V.SaverInv;
    hide V.ControlSave;
    hide V.MayStart;
    hide R.Good;
    V.AccessKeeps(m, v, e.fd);
    V.MayStartIs(v, e.fd);
    OwnNode(m, v, e.fd, p);
    V.FindNode(m, v, e.fd);
    var (w, q) := V.Access(v, e.fd);
    EnableIs(m, w, q);
    V.ControlSaveIs(v, e.fd, e.op, e.fopenOk);
    hide V.Find;
    ControlledFollows(v, w, q, e, p);
  }

  lemma EnableIs(m: map<int, Flags>, v: V.Saver, p: nat)
    requires V.SaverInv(m, v) && p in v.heap
    ensures v.heap[p].file.enable == 0 || v.heap[p].file.enable == 1
  {
  }

  lemma ControlledFollows(v: V.Saver, w: V.Saver, q: nat, e: Event, p: nat)
    requires V.Safe(v) && p in v.heap && e.SaveCsi? && (e.op == 0 || e.op == 1)
    requires p in w.heap && q in w.heap && w.heap[p] == v.heap[p] && w.cleared == v.cleared
    requires v.heap[p].connfd == e.fd <==> p == q
    requires v.heap[p].file.enable == 0 || v.heap[p].file.enable == 1
    requires p == q && e.op == 1 && v.heap[p].file.started ==> v.heap[p].file.enable == 1
    ensures CsiFollows(v, V.SetFile(w, q, V.Controlled(w.heap[q].file, e.op)), e, p)
  {
  }

  /** The node that a connfd finds is its only one. */
  lemma OwnNode(m: map<int, Flags>, v: V.Saver, fd: int, p: nat)
    requires V.SaverInv(m, v) && V.Safe(v) && p in v.heap
    ensures p < v.next && (v.heap[p].file.enable == 0 || v.heap[p].file.enable == 1)
    ensures v.heap[p].connfd == fd <==> V.Present(v, fd) && v.list[V.Find(v, fd)] == p
    ensures v.heap[p].file.enable == 1 && v.heap[p].connfd == fd ==> fd in m && m[fd].csiSave == 1
    ensures exists j :: 0 <= j < |v.list| && v.list[j] == p
  {
    assert p in v.list;
    V.FindNode(m, v, fd);
    if v.heap[p].connfd == fd {
      assert V.Has(v, fd);
    }
  }

  lemma CsiSampled(m: map<int, Flags>, v: V.Saver, item: R.Item, p: nat)
    requires V.SaverInv(m, v) && V.Safe(v) && p in v.heap
    ensures CsiFollows(v, V.Sample(v, 0, item), CsiReady(item), p)
  {
    hide V.SaverInv;
    hide V.Sample;
    OwnNode(m, v, 0, p);
    var j :| 0 <= j < |v.list| && v.list[j] == p;
    V.SampleReachesIff(m, v, item, j);
    CsiSampleCleared(v, 0, item);
    OncePlaced(m, v, j);
    ReachedAt(v, j);
    hide CsiReached;
  }

  lemma ReachedAt(v: V.Saver, j: nat)
    requires V.Safe(v) && j < |v.list|
    requires forall k :: 0 <= k < |v.list| && v.list[k] == v.list[j] ==> k == j
    ensures CsiReached(v, v.list[j]) <==> v.heap[v.list[j]].file.enable == 1 && (forall k :: 0 <= k < j ==> !V.Blocks(v, k))
  {
    if forall k :: 0 <= k < j ==> !V.Blocks(v, k) {
      forall k | 0 <= k < j ensures v.heap[v.list[k]].file.enable != 0 {
        assert !V.Blocks(v, k);
      }
    }
    if CsiReached(v, v.list[j]) {
      forall k | 0 <= k < j ensures !V.Blocks(v, k) {
        assert v.heap[v.list[k]].file.enable != 0;
      }
    }
  }

  lemma OncePlaced(m: map<int, Flags>, v: V.Saver, j: nat)
    requires V.SaverInv(m, v) && j < |v.list|
    ensures forall k :: 0 <= k < |v.list| && v.list[k] == v.list[j] ==> k == j
  {
  }

  lemma {:induction false} CsiSampleCleared(v: V.Saver, i: nat, item: R.Item)
    requires V.Safe(v) && i <= |v.list|
    ensures V.Sample(v, i, item).cleared == v.cleared
    decreases |v.list| - i
  {
    if i < |v.list| {
      var p := v.list[i];
      var f := v.heap[p].file;
      if f.enable == 1 {
        CsiSampleCleared(V.SetFile(v, p, R.PushSample(f, item)), i + 1, item);
      } else if f.enable != 0 {
        CsiSampleCleared(v, i + 1, item);
      }
    }
  }

  lemma CsiCleared(m: map<int, Flags>, v: V.Saver, p: nat)
    requires V.SaverInv(m, v) && V.Safe(v) && p in v.heap && v.mailbox != []
    ensures CsiFollows(v, V.Clear(v), ClearCsi, p)
  {
    hide V.SaverInv;
    hide V.Clear;
    hide V.IndexOf;
    MailedOnce(m, v);
    V.ClearEffect(v);
  }

  lemma MailedOnce(m: map<int, Flags>, v: V.Saver)
    requires V.SaverInv(m, v) && v.mailbox != []
    ensures S.NoDup(v.mailbox) && S.NoDup(v.list) && v.mailbox[0] in v.list
  {
    assert v.mailbox[0] in v.mailbox;
  }

  lemma CsiMoved(m: map<int, Flags>, v: V.Saver, q: nat, p: nat)
    requires V.SaverInv(m, v) && V.Safe(v) && p in v.heap && V.WriterCanMove(v, q)
    ensures CsiFollows(v, V.WriterMove(v, q), CsiWriter(q), p)
  {
    hide V.SaverInv;
    hide R.Move;
    hide R.Good;
    GoodNode(m, v, q);
    R.MoveGood(v.heap[q].file);
    EnableIs(m, v, p);
  }

  lemma GoodNode(m: map<int, Flags>, v: V.Saver, p: nat)
    requires V.SaverInv(m, v) && p in v.heap
    ensures R.Good(v.heap[p].file)
    ensures v.heap[p].file.phase.Idle? || v.heap[p].file.phase.Holding? || v.heap[p].file.phase.Exiting? ==> v.heap[p].file.started
  {
  }

  lemma CsiStopped(m: map<int, Flags>, v: V.Saver, e: Event, p: nat)
    requires V.SaverInv(m, v) && V.Safe(v) && p in v.heap && e.Disconnect? && e.fd in m
    requires m[e.fd].csiSave != 0 ==> V.Present(v, e.fd) && v.heap[v.list[V.Find(v, e.fd)]].file.started
    ensures CsiFollows(v, if m[e.fd].csiSave != 0 then V.InformStop(v, e.fd) else v, e, p)
  {
    hide V.SaverInv;
    OwnNode(m, v, e.fd, p);
  }

  lemma CsiFileStep(s: Sys, e: Event, p: nat)
    requires Inv(s) && Allowed(s, e) && p in s.saver.heap
    ensures V.Safe(s.saver) && CsiFollows(s.saver, Step(s, e).saver, e, p)
  {
    hide Step;
    hide V.Sample;
    hide V.ControlSave;
    hide V.Clear;
    hide V.WriterMove;
    hide V.SaverInv;
    hide V.InformStop;
    hide V.MayStart;
    hide CsiFollows;
    SaverOfStep(s, e);
    var m := Flagged(s);
    if e.SaveCsi? {
      LookUp(s, e.fd);
      CsiControl(m, s.saver, e, p);
    } else if e.CsiReady? {
      CsiSampled(m, s.saver, e.item, p);
    } else if e.ClearCsi? {
      CsiCleared(m, s.saver, p);
    } else if e.CsiWriter? {
      CsiMoved(m, s.saver, e.node, p);
    } else if e.Disconnect? {
      LookUp(s, e.fd);
      CsiStopped(m, s.saver, e, p);
    } else {
      CsiUntouched(s.saver, e, p);
    }
  }

  lemma CsiUntouched(v: V.Saver, e: Event, p: nat)
    requires V.Safe(v) && p in v.heap && !IsSave(e) && !e.Disconnect?
    ensures CsiFollows(v, v, e, p)
  {
  }

  /** The samples that reach node p in a run, in order. */
  ghost function CsiSamples(s: Sys, es: seq<Event>, p: nat): seq<R.Item>
    requires Inv(s) && Possible(s, es)
    decreases |es|
  {
    if es == [] then []
    else
      InvSafe(s);
      StepKeeps(s, es[0]);
      CsiGiven(s.saver, es[0], p) + CsiSamples(Step(s, es[0]), es[1..], p)
  }

  /** No CLEAR of the run is for node p. */
  ghost predicate CsiStays(s: Sys, es: seq<Event>, p: nat)
    requires Inv(s) && Possible(s, es)
    decreases |es|
  {
    es == [] || (!ClosesCsi(s.saver, es[0], p) && (StepKeeps(s, es[0]); CsiStays(Step(s, es[0]), es[1..], p)))
  }

  lemma {:induction false} CsiFileRun(s: Sys, es: seq<Event>, p: nat)
    requires Inv(s) && Possible(s, es) && CsiStays(s, es, p)
    requires p in s.saver.heap && s.saver.heap[p].file.started
    ensures p in Run(s, es).saver.heap
    ensures Run(s, es).saver.heap[p].file.pushed == s.saver.heap[p].file.pushed + CsiSamples(s, es, p)
    decreases |es|
  {
    hide Inv;
    hide Allowed;
    hide Step;
    if es != [] {
      StepKeeps(s, es[0]);
      CsiFileStep(s, es[0], p);
      hide CsiGiven;
      CsiFileRun(Step(s, es[0]), es[1..], p);
    }
  }

  /** A session starts a recording; whatever happens then; and when the CLEAR of that recording arrives, the file
      that it closes holds exactly the samples that reached the recording since, in order. */
  lemma CsiFileIsSamples(s: Sys, fd: int, u: Sys, p: nat, es: seq<Event>, t: Sys)
    requires MayHappen(s, SaveCsi(fd, 1, true)) && u == After(s, SaveCsi(fd, 1, true))
    requires Live(s.server, fd) && FlagsOf(s.server, fd).csiSave == 0
    requires p in u.saver.heap && u.saver.heap[p].connfd == fd
    requires Inv(u) && Possible(u, es) && CsiStays(u, es, p) && t == Run(u, es)
    requires t.saver.mailbox != [] && t.saver.mailbox[0] == p
    ensures u.saver.heap[p].file == R.File(1, true, [], R.Idle, [], [])
    ensures Allowed(t, ClearCsi) && p in t.saver.heap
    ensures Step(t, ClearCsi).saver.cleared == t.saver.cleared + [t.saver.heap[p].file]
    ensures t.saver.heap[p].file.written == CsiSamples(u, es, p)
  {
    hide Reachable;
    hide Inv;
    hide Allowed;
    hide Step;
    hide CsiSamples;
    hide Run;
    hide Possible;
    hide CsiStays;
    ReachableInv(s);
    CsiStarted(s, fd, p);
    CsiFileRun(u, es, p);
    CsiAllWritten(t, p);
    CsiFileStep(t, ClearCsi, p);
  }

  lemma CsiAllWritten(t: Sys, p: nat)
    requires Inv(t) && t.saver.mailbox != [] && t.saver.mailbox[0] == p && p in t.saver.heap
    ensures t.saver.heap[p].file.written == t.saver.heap[p].file.pushed && Allowed(t, ClearCsi)
  {
    assert p in t.saver.mailbox;
    R.ClearedIsComplete(t.saver.heap[p].file);
  }

  lemma CsiStarted(s: Sys, fd: int, p: nat)
    requires Inv(s) && Allowed(s, SaveCsi(fd, 1, true)) && Live(s.server, fd) && FlagsOf(s.server, fd).csiSave == 0
    requires var u := Step(s, SaveCsi(fd, 1, true)); p in u.saver.heap && u.saver.heap[p].connfd == fd
    ensures Step(s, SaveCsi(fd, 1, true)).saver.heap[p].file == R.File(1, true, [], R.Idle, [], [])
  {
    hide Step;
    hide V.SaverInv;
    hide V.ControlSave;
    SaverOfStep(s, SaveCsi(fd, 1, true));
    LookUp(s, fd);
    NewRecording(Flagged(s), s.saver, fd, p);
  }

  lemma NewRecording(m: map<int, Flags>, v: V.Saver, fd: int, p: nat)
    requires V.SaverInv(m, v) && V.Safe(v) && fd in m && m[fd].csiSave == 0
    requires var w := V.ControlSave(v, fd, 1, true).0; p in w.heap && w.heap[p].connfd == fd
    ensures V.ControlSave(v, fd, 1, true).0.heap[p].file == R.File(1, true, [], R.Idle, [], [])
  {
    hide V.SaverInv;
    hide R.Good;
    V.AccessKeeps(m, v, fd);
    var (w, q) := V.Access(v, fd);
    EnableIs(m, w, q);
    if p in w.heap && w.heap[p].connfd == fd {
      SameNode(m, w, p, q);
    }
    hide V.Access;
  }

  lemma SameNode(m: map<int, Flags>, v: V.Saver, p: nat, q: nat)
    requires V.SaverInv(m, v) && p in v.heap && q in v.heap && v.heap[p].connfd == v.heap[q].connfd
    ensures p == q
  {
  }

  // ----- RSSI -----

  ghost predicate RssiReached(b: B.Broker, p: nat)
    requires B.Safe(b)
  {
    exists j :: && 0 <= j < |b.list| && b.list[j] == p && B.Enabled(b.heap[p])
                && forall k :: 0 <= k < j ==> b.heap[b.list[k]].file.None? || b.heap[b.list[k]].file.value.enable != 0
  }

  ghost function RssiGiven(b: B.Broker, e: Event, p: nat): seq<R.Item>
    requires B.Safe(b)
  {
    if e.RssiReady? && RssiReached(b, p) then [e.item] else []
  }

  predicate ClosesRssi(b: B.Broker, e: Event, p: nat) {
    e.ClearRssi? && b.mailbox != [] && b.mailbox[0] == p
  }

  /** The event is about the session of node p, which is on the list. */
  predicate AboutRssi(b: B.Broker, e: Event, p: nat)
    requires p in b.heap && (e.ControlRssi? || e.Disconnect?)
  {
    p in b.list && b.heap[p].connfd == e.fd
  }

  /** What an event does to the recording of node p. The node of a session that has gone is off the list, and no
      request is about it. */
  ghost predicate RssiFollows(b: B.Broker, c: B.Broker, e: Event, p: nat)
    requires B.Safe(b) && p in b.heap && b.heap[p].file.Some?
  {
    var f := b.heap[p].file.value;
    && (if ClosesRssi(b, e, p) then (p in c.heap ==> c.heap[p].file.None?) && c.cleared == b.cleared + [f]
        else
          p in c.heap && c.heap[p].connfd == b.heap[p].connfd && c.heap[p].file.Some? &&
          var g := c.heap[p].file.value;
          if e.ControlRssi? && AboutRssi(b, e, p) && e.op == 1 && f.enable == 0 && e.fopenOk then
            !f.started && g == R.File(1, true, [], R.Idle, [], [])
          else
            && g.started == f.started && g.pushed == f.pushed + RssiGiven(b, e, p)
            && g.enable == if (e.ControlRssi? && e.op == 0 && AboutRssi(b, e, p)) || (e.Disconnect? && AboutRssi(b, e, p)) then 0
                           else f.enable)
    && (!e.ClearRssi? ==> c.cleared == b.cleared)
  }

  /** What the invariant says about the node p. */
  lemma RssiNode(m: map<int, Flags>, b: B.Broker, p: nat)
    requires B.BrokerInv(m, b) && p in b.heap && b.heap[p].file.Some?
    ensures B.Safe(b) && B.Memory(b) && p < b.next && R.Good(b.heap[p].file.value)
    ensures b.heap[p].file.value.enable == 0 || b.heap[p].file.value.enable == 1
    ensures b.heap[p].file.value.phase.Idle? || b.heap[p].file.value.phase.Holding? || b.heap[p].file.value.phase.Exiting? ==>
              b.heap[p].file.value.started
    ensures p in b.list <==> exists j :: 0 <= j < |b.list| && b.list[j] == p
    ensures p !in b.list ==> b.heap[p].file.value.enable == 0
    ensures p in b.list && b.heap[p].connfd in m ==>
              (m[b.heap[p].connfd].rssiSave == 1 <==> b.heap[p].file.value.enable == 1)
  {
  }

  lemma OwnRssiNode(m: map<int, Flags>, b: B.Broker, fd: int, p: nat)
    requires B.BrokerInv(m, b) && B.Safe(b) && p in b.heap
    ensures p in b.list && b.heap[p].connfd == fd <==> B.Opened(b, fd) && b.list[B.Find(b, fd)] == p
  {
    B.FindNode(m, b, fd);
    if p in b.list && b.heap[p].connfd == fd {
      assert B.Has(b, fd);
    }
  }

  lemma RssiControl(m: map<int, Flags>, b: B.Broker, e: Event, p: nat)
    requires B.BrokerInv(m, b) && B.Safe(b) && p in b.heap && b.heap[p].file.Some? && e.ControlRssi?
    requires e.op == 0 || (e.op == 1 && B.MayStart(b, e.fd))
    ensures RssiFollows(b, B.ControlSave(b, e.fd, e.op, e.fopenOk).0, e, p)
  {
    hide B.BrokerInv;
    hide B.Memory;
    hide B.Find;
    hide R.Good;
    RssiNode(m, b, p);
    OwnRssiNode(m, b, e.fd, p);
  }

  lemma RssiSampled(m: map<int, Flags>, b: B.Broker, item: R.Item, p: nat)
    requires B.BrokerInv(m, b) && B.Safe(b) && p in b.heap && b.heap[p].file.Some?
    ensures RssiFollows(b, B.Sample(b, 0, item), RssiReady(item), p)
  {
    hide B.BrokerInv;
    hide B.Sample;
    hide B.Memory;
    RssiNode(m, b, p);
    B.SampleLists(b, 0, item);
    RssiSampleCleared(b, 0, item);
    if p in b.list {
      var j :| 0 <= j < |b.list| && b.list[j] == p;
      B.SampleReachesIff(m, b, item, j);
      RssiOncePlaced(m, b, j);
      RssiReachedAt(b, j);
    }
    hide RssiReached;
    if p !in b.list {
      NotReached(b, p);
    }
  }

  lemma NotReached(b: B.Broker, p: nat)
    requires B.Safe(b) && p !in b.list
    ensures !RssiReached(b, p)
  {
  }

  lemma RssiOncePlaced(m: map<int, Flags>, b: B.Broker, j: nat)
    requires B.BrokerInv(m, b) && j < |b.list|
    ensures forall k :: 0 <= k < |b.list| && b.list[k] == b.list[j] ==> k == j
  {
  }

  lemma RssiReachedAt(b: B.Broker, j: nat)
    requires B.Safe(b) && j < |b.list|
    requires forall k :: 0 <= k < |b.list| && b.list[k] == b.list[j] ==> k == j
    ensures RssiReached(b, b.list[j]) <==> B.Enabled(b.heap[b.list[j]]) && (forall k :: 0 <= k < j ==> !B.Blocks(b, k))
  {
    if forall k :: 0 <= k < j ==> !B.Blocks(b, k) {
      forall k | 0 <= k < j ensures b.heap[b.list[k]].file.None? || b.heap[b.list[k]].file.value.enable != 0 {
        assert !B.Blocks(b, k);
      }
    }
    if RssiReached(b, b.list[j]) {
      forall k | 0 <= k < j ensures !B.Blocks(b, k) {
        assert b.heap[b.list[k]].file.None? || b.heap[b.list[k]].file.value.enable != 0;
      }
    }
  }

  lemma {:induction false} RssiSampleCleared(b: B.Broker, i: nat, item: R.Item)
    requires B.Safe(b) && i <= |b.list|
    ensures B.Sample(b, i, item).cleared == b.cleared
    ensures forall q :: q in b.heap ==>
              q in B.Sample(b, i, item).heap && B.Sample(b, i, item).heap[q].connfd == b.heap[q].connfd
    decreases |b.list| - i
  {
    if i < |b.list| {
      var p := b.list[i];
      if b.heap[p].file.None? || b.heap[p].file.value.enable !in {0, 1, 2} {
        RssiSampleCleared(b, i + 1, item);
      } else if b.heap[p].file.value.enable == 1 {
        RssiSampleCleared(B.SetFile(b, p, R.PushSample(b.heap[p].file.value, item)), i + 1, item);
      } else if b.heap[p].file.value.enable == 2 {
        RssiSampleCleared(B.SetFile(b, p, R.PushEnd(b.heap[p].file.value)), i + 1, item);
      }
    }
  }

  lemma RssiCleared(b: B.Broker, p: nat)
    requires B.Clearable(b) && S.NoDup(b.mailbox) && p in b.heap && b.heap[p].file.Some?
    ensures RssiFollows(b, B.Clear(b), ClearRssi, p)
  {
    hide B.Clear;
    B.ClearEffect(b);
  }

  lemma RssiMailedOnce(m: map<int, Flags>, b: B.Broker)
    requires B.BrokerInv(m, b)
    ensures S.NoDup(b.mailbox)
  {
  }

  lemma RssiMoved(m: map<int, Flags>, b: B.Broker, q: nat, p: nat)
    requires B.BrokerInv(m, b) && B.Safe(b) && p in b.heap && b.heap[p].file.Some? && B.WriterCanMove(b, q)
    ensures RssiFollows(b, B.WriterMove(b, q), RssiWriter(q), p)
  {
    hide B.BrokerInv;
    hide B.Memory;
    hide R.Move;
    hide R.Good;
    RssiNode(m, b, q);
    R.MoveGood(b.heap[q].file.value);
  }

  lemma RssiOpened(b: B.Broker, e: Event, p: nat)
    requires B.Safe(b) && p in b.heap && b.heap[p].file.Some? && p < b.next && e.OpenRssi?
    ensures RssiFollows(b, B.Open(b, e.fd, e.reply).0, e, p)
  {
  }

  lemma RssiUntouched(b: B.Broker, e: Event, p: nat)
    requires B.Safe(b) && p in b.heap && b.heap[p].file.Some? && !IsRssi(e) && !e.Disconnect?
    ensures RssiFollows(b, b, e, p)
  {
  }

  lemma RssiStopped(s: Sys, e: Event, p: nat)
    requires Inv(s) && e.Disconnect? && Live(s.server, e.fd) && Leavable(s, e.fd, FlagsOf(s.server, e.fd))
    requires p in s.broker.heap && s.broker.heap[p].file.Some?
    ensures RssiFollows(s.broker, LeaveRssi(s.broker, e.fd, FlagsOf(s.server, e.fd), e.reply), e, p)
  {
    hide Inv;
    hide B.Memory;
    hide B.BrokerInv;
    hide R.Good;
    LeaveFacts(s, e.fd, p);
    LeaveCases(s, e, FlagsOf(s.server, e.fd), p);
  }

  /** What the flags of a session that leaves say about node p. */
  lemma LeaveFacts(s: Sys, fd: int, p: nat)
    requires Inv(s) && Live(s.server, fd) && p in s.broker.heap && s.broker.heap[p].file.Some?
    ensures var b, flags := s.broker, FlagsOf(s.server, fd);
            && B.Safe(b)
            && (p in b.list && b.heap[p].connfd == fd <==> B.Opened(b, fd) && b.list[B.Find(b, fd)] == p)
            && (p in b.list && b.heap[p].connfd == fd ==> (flags.rssiSave == 1 <==> b.heap[p].file.value.enable == 1))
            && (b.heap[p].file.value.enable == 0 || b.heap[p].file.value.enable == 1)
            && (flags.rssiSave == 0 || flags.rssiSave == 1)
  {
    hide B.BrokerInv;
    hide B.Memory;
    hide R.Good;
    hide D.DmaInv;
    hide V.SaverInv;
    LookUp(s, fd);
    RssiNode(Flagged(s), s.broker, p);
    OwnRssiNode(Flagged(s), s.broker, fd, p);
    B.SessionNode(Flagged(s), s.broker, fd);
  }

  lemma LeaveCases(s: Sys, e: Event, flags: Flags, p: nat)
    requires e.Disconnect? && Leavable(s, e.fd, flags)
    requires var b := s.broker;
             && B.Safe(b) && p in b.heap && b.heap[p].file.Some?
             && (p in b.list && b.heap[p].connfd == e.fd <==> B.Opened(b, e.fd) && b.list[B.Find(b, e.fd)] == p)
             && (p in b.list && b.heap[p].connfd == e.fd ==> (flags.rssiSave == 1 <==> b.heap[p].file.value.enable == 1))
             && (b.heap[p].file.value.enable == 0 || b.heap[p].file.value.enable == 1)
             && (flags.rssiSave == 0 || flags.rssiSave == 1)
    ensures RssiFollows(s.broker, LeaveRssi(s.broker, e.fd, flags, e.reply), e, p)
  {
    hide B.Memory;
    hide B.Close;
    var b, fd := s.broker, e.fd;
    var c := if flags.rssiSave != 0 then B.InformStop(b, fd) else b;
    LeaveRssiOpened(b, fd, flags);
    if flags.rssiSave != 0 {
      var q := b.list[B.Find(b, fd)];
      NodeOff(b, q);
      B.SetFileMemory(b, q, R.PushEnd(b.heap[q].file.value));
    }
    if flags.rssi != 0 {
      B.CloseEffect(c, fd, e.reply);
      CloseCleared(c, fd, e.reply);
    }
  }

  lemma NodeOff(b: B.Broker, q: nat)
    requires B.Memory(b) && q in b.list
    ensures q in b.heap
  {
  }

  lemma CloseCleared(b: B.Broker, fd: int, reply: B.Reply)
    requires B.Memory(b) && B.Opened(b, fd)
    ensures B.Close(b, fd, reply).cleared == b.cleared
  {
  }

  lemma RssiFileStep(s: Sys, e: Event, p: nat)
    requires Inv(s) && Allowed(s, e) && p in s.broker.heap && s.broker.heap[p].file.Some?
    ensures B.Safe(s.broker) && RssiFollows(s.broker, Step(s, e).broker, e, p)
  {
    hide Step;
    hide B.Sample;
    hide B.ControlSave;
    hide B.Clear;
    hide B.WriterMove;
    hide B.Open;
    hide B.BrokerInv;
    hide B.Memory;
    hide B.MayStart;
    hide R.Good;
    hide LeaveRssi;
    hide Leavable;
    hide RssiFollows;
    BrokerOfStep(s, e);
    var m := Flagged(s);
    RssiNode(m, s.broker, p);
    if e.ControlRssi? {
      RssiControl(m, s.broker, e, p);
    } else if e.RssiReady? {
      RssiSampled(m, s.broker, e.item, p);
    } else if e.ClearRssi? {
      RssiMailedOnce(m, s.broker);
      RssiCleared(s.broker, p);
    } else if e.RssiWriter? {
      RssiMoved(m, s.broker, e.node, p);
    } else if e.OpenRssi? {
      RssiOpened(s.broker, e, p);
    } else if e.Disconnect? {
      RssiLeft(s, e, p);
    } else {
      RssiUntouched(s.broker, e, p);
    }
  }

  lemma RssiLeft(s: Sys, e: Event, p: nat)
    requires Inv(s) && Allowed(s, e) && e.Disconnect? && p in s.broker.heap && s.broker.heap[p].file.Some?
    ensures B.Safe(s.broker) && RssiFollows(s.broker, Step(s, e).broker, e, p)
  {
    hide Inv;
    hide LeaveRssi;
    hide Leavable;
    hide RssiFollows;
    InvSafe(s);
    ReadyToLeave(s, e.fd, e.reply);
    RssiStopped(s, e, p);
  }

  ghost function RssiSamples(s: Sys, es: seq<Event>, p: nat): seq<R.Item>
    requires Inv(s) && Possible(s, es)
    decreases |es|
  {
    if es == [] then []
    else
      InvSafe(s);
      StepKeeps(s, es[0]);
      RssiGiven(s.broker, es[0], p) + RssiSamples(Step(s, es[0]), es[1..], p)
  }

  ghost predicate RssiStays(s: Sys, es: seq<Event>, p: nat)
    requires Inv(s) && Possible(s, es)
    decreases |es|
  {
    es == [] || (!ClosesRssi(s.broker, es[0], p) && (StepKeeps(s, es[0]); RssiStays(Step(s, es[0]), es[1..], p)))
  }

  ghost predicate Recording(b: B.Broker, p: nat) {
    p in b.heap && b.heap[p].file.Some? && b.heap[p].file.value.started
  }

  lemma {:induction false} RssiFileRun(s: Sys, es: seq<Event>, p: nat)
    requires Inv(s) && Possible(s, es) && RssiStays(s, es, p) && Recording(s.broker, p)
    ensures Recording(Run(s, es).broker, p)
    ensures Run(s, es).broker.heap[p].file.value.pushed == s.broker.heap[p].file.value.pushed + RssiSamples(s, es, p)
    decreases |es|
  {
    hide Inv;
    hide Allowed;
    hide Step;
    if es != [] {
      StepKeeps(s, es[0]);
      RssiFileStep(s, es[0], p);
      hide RssiGiven;
      RssiFileRun(Step(s, es[0]), es[1..], p);
    }
  }

  /** The same for RSSI. The recording is that of the session's node, and it may be closed after the session has
      gone. */
  lemma RssiFileIsSamples(s: Sys, fd: int, u: Sys, p: nat, es: seq<Event>, t: Sys)
    requires MayHappen(s, ControlRssi(fd, 1, true)) && u == After(s, ControlRssi(fd, 1, true))
    requires Live(s.server, fd) && FlagsOf(s.server, fd).rssiSave == 0
    requires p in u.broker.list && p in u.broker.heap && u.broker.heap[p].connfd == fd
    requires Inv(u) && Possible(u, es) && RssiStays(u, es, p) && t == Run(u, es)
    requires t.broker.mailbox != [] && t.broker.mailbox[0] == p
    ensures u.broker.heap[p].file == W.Some(R.File(1, true, [], R.Idle, [], []))
    ensures Allowed(t, ClearRssi) && Recording(t.broker, p)
    ensures Step(t, ClearRssi).broker.cleared == t.broker.cleared + [t.broker.heap[p].file.value]
    ensures t.broker.heap[p].file.value.written == RssiSamples(u, es, p)
  {
    hide Reachable;
    hide Inv;
    hide Allowed;
    hide Step;
    hide RssiSamples;
    hide Run;
    hide Possible;
    hide RssiStays;
    ReachableInv(s);
    RssiStarted(s, fd, p);
    RssiFileRun(u, es, p);
    RssiAllWritten(t, p);
    RssiFileStep(t, ClearRssi, p);
  }

  lemma RssiAllWritten(t: Sys, p: nat)
    requires Inv(t) && t.broker.mailbox != [] && t.broker.mailbox[0] == p && Recording(t.broker, p)
    ensures t.broker.heap[p].file.value.written == t.broker.heap[p].file.value.pushed && Allowed(t, ClearRssi)
  {
    assert p in t.broker.mailbox;
    R.ClearedIsComplete(t.broker.heap[p].file.value);
  }

  lemma RssiStarted(s: Sys, fd: int, p: nat)
    requires Inv(s) && Allowed(s, ControlRssi(fd, 1, true)) && Live(s.server, fd) && FlagsOf(s.server, fd).rssiSave == 0
    requires var b := Step(s, ControlRssi(fd, 1, true)).broker; p in b.list && p in b.heap && b.heap[p].connfd == fd
    ensures Step(s, ControlRssi(fd, 1, true)).broker.heap[p].file == W.Some(R.File(1, true, [], R.Idle, [], []))
  {
    hide Step;
    hide B.BrokerInv;
    hide B.Memory;
    hide B.ControlSave;
    BrokerOfStep(s, ControlRssi(fd, 1, true));
    LookUp(s, fd);
    NewRssiRecording(Flagged(s), s.broker, fd, p);
  }

  lemma NewRssiRecording(m: map<int, Flags>, b: B.Broker, fd: int, p: nat)
    requires B.BrokerInv(m, b) && B.Safe(b) && fd in m && m[fd].rssiSave == 0
    requires var c := B.ControlSave(b, fd, 1, true).0; p in c.list && p in c.heap && c.heap[p].connfd == fd
    ensures B.ControlSave(b, fd, 1, true).0.heap[p].file == W.Some(R.File(1, true, [], R.Idle, [], []))
  {
    hide B.BrokerInv;
    hide B.Find;
    hide R.Good;
    OwnRssiNode(m, b, fd, p);
    B.SessionNode(m, b, fd);
  }

  // ----- the lists and the messages, in their order -----

  /** A list without its entry at some position, which satisfies the predicate. */
  ghost predicate Without(s: seq<nat>, t: seq<nat>, hit: nat -> bool) {
    exists i :: 0 <= i < |s| && hit(s[i]) && t == s[..i] + s[i + 1..]
  }

  /** CLEARs are posted at the end and taken from the front; a node is added at the end, for a connfd that has
      none; and only a CLEAR takes a node out, its own, and leaves the others in their order. */
  lemma CsiOrder(t: Sys, e: Event)
    requires MayHappen(t, e)
    ensures var v, w := t.saver, After(t, e).saver;
            && (if e.ClearCsi? then
                  v.mailbox != [] && w.mailbox == v.mailbox[1..] && Without(v.list, w.list, p => p == v.mailbox[0])
                else if e.CsiWriter? then
                  && e.node in v.heap && w.list == v.list
                  && w.mailbox == v.mailbox + if v.heap[e.node].file.phase.Exiting? then [e.node] else []
                else
                  && w.mailbox == v.mailbox
                  && w.list == v.list + if e.SaveCsi? && !V.Has(v, e.fd) then [v.next] else [])
  {
    hide Reachable;
    hide Inv;
    hide Allowed;
    hide Step;
    hide V.Sample;
    hide V.Clear;
    hide V.ControlSave;
    hide V.Find;
    hide V.Has;
    ReachableInv(t);
    SaverOfStep(t, e);
    if e.ClearCsi? {
      CsiUnlinked(t);
    } else if e.CsiReady? {
      V.SampleLists(t.saver, 0, e.item);
    } else if e.SaveCsi? {
      PresentIsHas(t, e.fd);
      LinkedLast(t.saver, e);
    }
  }

  lemma CsiUnlinked(s: Sys)
    requires Inv(s) && V.Safe(s.saver) && s.saver.mailbox != []
    ensures var v, w := s.saver, V.Clear(s.saver);
            w.mailbox == v.mailbox[1..] && Without(v.list, w.list, p => p == v.mailbox[0])
  {
    hide V.SaverInv;
    hide B.BrokerInv;
    hide D.DmaInv;
    var v := s.saver;
    var p := v.mailbox[0];
    MailedOnce(Flagged(s), v);
    var i := V.IndexOf(v.list, p);
    assert v.list[i] == p;
  }

  lemma PresentIsHas(s: Sys, fd: int)
    requires Inv(s)
    ensures V.Safe(s.saver) && (V.Present(s.saver, fd) <==> V.Has(s.saver, fd))
  {
    hide V.SaverInv;
    V.FindNode(Flagged(s), s.saver, fd);
  }

  lemma LinkedLast(v: V.Saver, e: Event)
    requires V.Safe(v) && e.SaveCsi?
    ensures var w := V.ControlSave(v, e.fd, e.op, e.fopenOk).0;
            w.mailbox == v.mailbox && w.list == v.list + if V.Present(v, e.fd) then [] else [v.next]
  {
  }

  /** For RSSI a node is added by a request to open that succeeds, at the end, and only a disconnect takes one out,
      that of its session. */
  lemma RssiOrder(t: Sys, e: Event)
    requires MayHappen(t, e)
    ensures var b, c := t.broker, After(t, e).broker;
            && (if e.ClearRssi? then b.mailbox != [] && c.mailbox == b.mailbox[1..]
                else if e.RssiWriter? then
                  && e.node in b.heap && b.heap[e.node].file.Some?
                  && c.mailbox == b.mailbox + if b.heap[e.node].file.value.phase.Exiting? then [e.node] else []
                else c.mailbox == b.mailbox)
            && (if e.Disconnect? && Live(t.server, e.fd) && FlagsOf(t.server, e.fd).rssi == 1 then
                  Without(b.list, c.list, p => p in b.heap && b.heap[p].connfd == e.fd)
                else c.list == b.list || (e.OpenRssi? && c.list == b.list + [b.next]))
  {
    hide Reachable;
    hide Inv;
    hide Allowed;
    hide Step;
    hide B.Sample;
    hide B.Memory;
    ReachableInv(t);
    BrokerOfStep(t, e);
    if e.RssiReady? {
      B.SampleLists(t.broker, 0, e.item);
    } else if e.Disconnect? {
      RssiUnlinked(t, e);
    }
  }

  lemma RssiUnlinked(s: Sys, e: Event)
    requires Inv(s) && Allowed(s, e) && e.Disconnect?
    ensures var b, c := s.broker, Step(s, e).broker;
            && Live(s.server, e.fd) && c.mailbox == b.mailbox
            && if FlagsOf(s.server, e.fd).rssi == 1 then Without(b.list, c.list, p => p in b.heap && b.heap[p].connfd == e.fd)
               else c.list == b.list
  {
    hide Inv;
    hide LeaveRssi;
    hide Leavable;
    ReadyToLeave(s, e.fd, e.reply);
    RssiFlagIs(s, e.fd);
    LeaveOrder(s, e.fd, FlagsOf(s.server, e.fd), e.reply);
  }

  lemma RssiFlagIs(s: Sys, fd: int)
    requires Inv(s) && Live(s.server, fd)
    ensures FlagsOf(s.server, fd).rssi == 0 || FlagsOf(s.server, fd).rssi == 1
  {
    hide B.Memory;
    hide B.Recordings;
    hide D.DmaInv;
    hide V.SaverInv;
    LookUp(s, fd);
  }

  lemma LeaveOrder(s: Sys, fd: int, flags: Flags, reply: B.Reply)
    requires Leavable(s, fd, flags) && (flags.rssi == 0 || flags.rssi == 1)
    ensures var b, c := s.broker, LeaveRssi(s.broker, fd, flags, reply);
            && c.mailbox == b.mailbox
            && if flags.rssi == 1 then Without(b.list, c.list, p => p in b.heap && b.heap[p].connfd == fd)
               else c.list == b.list
  {
    hide B.Memory;
    hide B.Close;
    var b := s.broker;
    B.Parts(map[], b);
    var c := if flags.rssiSave != 0 then B.InformStop(b, fd) else b;
    LeaveRssiOpened(b, fd, flags);
    if flags.rssiSave != 0 {
      var q := b.list[B.Find(b, fd)];
      NodeOff(b, q);
      B.SetFileMemory(b, q, R.PushEnd(b.heap[q].file.value));
    }
    if flags.rssi == 1 {
      B.CloseEffect(c, fd, reply);
      var i := B.Find(c, fd);
      assert b.list[i] in b.heap && b.heap[b.list[i]].connfd == fd;
    }
  }
}
