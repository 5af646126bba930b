/** What holds in every run of the event loop and the writer threads. */
module Runs {
  import opened Sequences
  import opened Sessions
  import opened EventModel
  import R = Recorder
  import D = DmaModel
  import B = RssiModel
  import V = CsiSaveModel

  /** Each event is allowed in the state it meets. */
  ghost predicate Possible(s: Sys, es: seq<Event>)
    requires Inv(s)
    decreases |es|
  {
    es != [] ==> Allowed(s, es[0]) && (StepKeeps(s, es[0]); Possible(Step(s, es[0]), es[1..]))
  }

  ghost function Run(s: Sys, es: seq<Event>): (t: Sys)
    requires Inv(s) && Possible(s, es)
    ensures Inv(t)
    decreases |es|
  {
    if es == [] then s
    else
      StepKeeps(s, es[0]);
      Run(Step(s, es[0]), es[1..])
  }

  lemma InitialInv(deviceOpen: bool)
    ensures Inv(Initial(deviceOpen))
  {
    D.InitialDma(deviceOpen);
    B.InitialBroker();
    V.InitialSaver();
  }

  /** A run may go on with any event that is allowed where it ends. */
  lemma {:induction false} Extend(s: Sys, es: seq<Event>, e: Event)
    requires Inv(s) && Possible(s, es) && Allowed(Run(s, es), e)
    ensures Possible(s, es + [e]) && Run(s, es + [e]) == Step(Run(s, es), e)
    decreases |es|
  {
    hide Inv;
    hide Allowed;
    hide Step;
    if es == [] {
      assert (es + [e])[0] == e && (es + [e])[1..] == [];
      StepKeeps(s, e);
      assert Possible(Step(s, e), []) && Run(Step(s, e), []) == Step(s, e);
    } else {
      assert (es + [e])[0] == es[0] && (es + [e])[1..] == es[1..] + [e];
      StepKeeps(s, es[0]);
      Extend(Step(s, es[0]), es[1..], e);
    }
  }

  /** The state before event k of a run, and after the last one. */
  ghost function At(s: Sys, es: seq<Event>, k: nat): (t: Sys)
    requires Inv(s) && Possible(s, es) && k <= |es|
    ensures Inv(t)
    decreases k
  {
    if k == 0 then s
    else
      StepKeeps(s, es[0]);
      At(Step(s, es[0]), es[1..], k - 1)
  }

  lemma {:induction false} AtStep(s: Sys, es: seq<Event>, k: nat)
    requires Inv(s) && Possible(s, es) && k < |es|
    ensures Allowed(At(s, es, k), es[k]) && At(s, es, k + 1) == Step(At(s, es, k), es[k])
    decreases k
  {
    hide Inv;
    hide Allowed;
    hide Step;
    StepKeeps(s, es[0]);
    if k == 0 {
      assert At(Step(s, es[0]), es[1..], 0) == Step(s, es[0]);
    } else {
      assert es[1..][k - 1] == es[k];
      AtStep(Step(s, es[0]), es[1..], k - 1);
    }
  }

  lemma {:induction false} AtEnd(s: Sys, es: seq<Event>)
    requires Inv(s) && Possible(s, es)
    ensures At(s, es, |es|) == Run(s, es)
    decreases |es|
  {
    hide Inv;
    hide Allowed;
    hide Step;
    if es != [] {
      StepKeeps(s, es[0]);
      AtEnd(Step(s, es[0]), es[1..]);
    }
  }

  // Runs from the start.

  ghost predicate PossibleFrom(deviceOpen: bool, es: seq<Event>) {
    InitialInv(deviceOpen);
    Possible(Initial(deviceOpen), es)
  }

  ghost function RunFrom(deviceOpen: bool, es: seq<Event>): (t: Sys)
    requires PossibleFrom(deviceOpen, es)
    ensures Inv(t)
  {
    InitialInv(deviceOpen);
    Run(Initial(deviceOpen), es)
  }

  ghost function AtFrom(deviceOpen: bool, es: seq<Event>, k: nat): Sys
    requires PossibleFrom(deviceOpen, es) && k <= |es|
  {
    InitialInv(deviceOpen);
    At(Initial(deviceOpen), es, k)
  }

  lemma NoEvents(deviceOpen: bool)
    ensures PossibleFrom(deviceOpen, []) && RunFrom(deviceOpen, []) == Initial(deviceOpen)
  {
    InitialInv(deviceOpen);
  }

  lemma ExtendFrom(deviceOpen: bool, es: seq<Event>, e: Event)
    requires PossibleFrom(deviceOpen, es) && Allowed(RunFrom(deviceOpen, es), e)
    ensures PossibleFrom(deviceOpen, es + [e]) && RunFrom(deviceOpen, es + [e]) == Step(RunFrom(deviceOpen, es), e)
  {
    hide Inv;
    hide Allowed;
    hide Step;
    hide Possible;
    hide Run;
    InitialInv(deviceOpen);
    Extend(Initial(deviceOpen), es, e);
  }

  /** A state that some run leads to. */
  ghost predicate Reachable(t: Sys) {
    exists open: bool, es: seq<Event> :: ReachedBy(t, open, es)
  }

  ghost predicate ReachedBy(t: Sys, deviceOpen: bool, es: seq<Event>) {
    PossibleFrom(deviceOpen, es) && t == RunFrom(deviceOpen, es)
  }

  lemma ReachableInv(t: Sys)
    requires Reachable(t)
    ensures Inv(t)
  {
    var open, es :| ReachedBy(t, open, es);
    InitialInv(open);
  }

  /** An event that may happen in a reachable state, and the state after it. */
  ghost predicate MayHappen(t: Sys, e: Event) {
    Reachable(t) && (ReachableInv(t); Allowed(t, e))
  }

  ghost function After(t: Sys, e: Event): Sys
    requires MayHappen(t, e)
  {
    ReachableInv(t);
    Step(t, e)
  }

  // ----- what an event does to each module -----

  lemma NewSession(s: Server, fd: int)
    requires !Live(s, fd)
    ensures Live(Admit(s, fd), fd) && FlagsOf(Admit(s, fd), fd) == NO_FLAGS
  {
    AdmittedLive(s, fd);
    var ss := Admit(s, fd).sessions;
    assert forall i :: 0 <= i < |s.sessions| ==> ss[i] == s.sessions[i];
    assert forall i :: 0 <= i < |s.sessions| ==> s.sessions[i].connfd != fd;
  }

  /** What an event does to the device. */
  lemma DmaOfStep(s: Sys, e: Event)
    requires Inv(s) && Allowed(s, e)
    ensures var d := Step(s, e).dma;
            match e
            case StartCsi(fd, rc) => d == if D.SomeConstell(Flagged(s)) then s.dma else D.StartCsi(s.dma, fd, rc).0
            case StartConstell(fd, rc) => d == if D.SomeCsi(Flagged(s)) then s.dma else D.StartConstell(s.dma, fd, rc)
            case StopCsi(fd) => d == D.StopCsi(s.dma, fd)
            case StopConstell(fd) => d == D.StopConstell(s.dma, fd)
            case Disconnect(fd, _) => d == LeaveDma(s.dma, fd, FlagsOf(s.server, fd))
            case _ => d == s.dma
    ensures D.Counted(s.dma.csi) && D.Counted(s.dma.constell) && D.DmaInv(Flagged(s), s.dma)
  {
    hide D.StartCsi;
    hide D.StartConstell;
    hide D.StopCsi;
    hide D.StopConstell;
    if e.OpenwrtConnected? && e.linked && !e.written {
      AcceptKeeps(s, e.fd);
      AdmittedLive(s.server, e.fd);
      NewSession(s.server, e.fd);
    }
  }

  /** What an event does to the RSSI module. */
  lemma BrokerOfStep(s: Sys, e: Event)
    requires Inv(s) && Allowed(s, e)
    ensures B.Memory(s.broker) && B.Safe(s.broker)
    ensures e.OpenRssi? ==> Step(s, e).broker == B.Open(s.broker, e.fd, e.reply).0
    ensures e.ControlRssi? ==> Step(s, e).broker == B.ControlSave(s.broker, e.fd, e.op, e.fopenOk).0
    ensures e.RssiReady? ==> Step(s, e).broker == B.Sample(s.broker, 0, e.item)
    ensures e.ClearRssi? ==> B.Clearable(s.broker) && Step(s, e).broker == B.Clear(s.broker)
    ensures e.RssiWriter? ==> B.WriterCanMove(s.broker, e.node) && Step(s, e).broker == B.WriterMove(s.broker, e.node)
    ensures !IsRssi(e) && !e.Disconnect? ==> Step(s, e).broker == s.broker
  {
    hide Inv;
    MemoryOf(s);
    InvSafe(s);
    if e.OpenwrtConnected? && e.linked && !e.written {
      AcceptKeeps(s, e.fd);
      NewSession(s.server, e.fd);
    }
  }

  /** What an event does to the CSI recordings. */
  lemma SaverOfStep(s: Sys, e: Event)
    requires Inv(s) && Allowed(s, e)
    ensures V.Safe(s.saver)
    ensures e.Disconnect? && FlagsOf(s.server, e.fd).csiSave != 0 ==>
              && V.Present(s.saver, e.fd) && s.saver.heap[s.saver.list[V.Find(s.saver, e.fd)]].file.started
              && Step(s, e).saver == V.InformStop(s.saver, e.fd)
    ensures e.SaveCsi? ==> Step(s, e).saver == V.ControlSave(s.saver, e.fd, e.op, e.fopenOk).0
    ensures e.CsiReady? ==> Step(s, e).saver == V.Sample(s.saver, 0, e.item)
    ensures e.ClearCsi? ==> s.saver.mailbox != [] && Step(s, e).saver == V.Clear(s.saver)
    ensures e.CsiWriter? ==> V.WriterCanMove(s.saver, e.node) && Step(s, e).saver == V.WriterMove(s.saver, e.node)
    ensures !IsSave(e) && !(e.Disconnect? && FlagsOf(s.server, e.fd).csiSave != 0) ==> Step(s, e).saver == s.saver
  {
    hide Inv;
    hide V.Safe;
    InvSafe(s);
    if IsSave(e) {
      AllowedCan(s, e);
    } else if e.Disconnect? {
      RecordingOf(s, e.fd);
    } else {
      OthersLeaveSaver(s, e);
    }
  }

  lemma OthersLeaveSaver(s: Sys, e: Event)
    requires Inv(s) && Allowed(s, e) && !IsSave(e) && !e.Disconnect?
    ensures Step(s, e).saver == s.saver
  {
    hide Inv;
    if e.OpenwrtConnected? && e.linked && !e.written {
      AcceptKeeps(s, e.fd);
      NewSession(s.server, e.fd);
    }
  }

  lemma MemoryOf(s: Sys)
    requires Inv(s)
    ensures B.Memory(s.broker)
  {
  }

  lemma RecordingOf(s: Sys, fd: int)
    requires Inv(s) && Live(s.server, fd)
    ensures V.Safe(s.saver)
    ensures FlagsOf(s.server, fd).csiSave != 0 ==>
              V.Present(s.saver, fd) && s.saver.heap[s.saver.list[V.Find(s.saver, fd)]].file.started
  {
    LookUp(s, fd);
    LeaveSaveKeeps(Flagged(s), s.saver, fd);
  }

  // ----- CSI and constellation -----

  /** A connfd is in a feature's user list exactly when its live session has the flag, and once; the
      counter is the length of the list; and the two lists are never both in use, whatever
      axidma_start returned on the way. */
  lemma ListsFlagsCounters(t: Sys)
    requires Reachable(t)
    ensures forall fd :: fd in t.dma.csi.users <==> Live(t.server, fd) && FlagsOf(t.server, fd).csi == 1
    ensures forall fd :: fd in t.dma.constell.users <==> Live(t.server, fd) && FlagsOf(t.server, fd).constell == 1
    ensures NoDup(t.dma.csi.users) && t.dma.csi.cnt == |t.dma.csi.users|
    ensures NoDup(t.dma.constell.users) && t.dma.constell.cnt == |t.dma.constell.users|
    ensures t.dma.csi.users == [] || t.dma.constell.users == []
    ensures t.dma.open && t.dma.csi.cnt > 0 ==> t.dma.csi.state == 1
    ensures t.dma.open && t.dma.constell.cnt > 0 ==> t.dma.constell.state == 1
  {
    ReachableInv(t);
    forall fd ensures fd in Flagged(t) <==> Live(t.server, fd)
              ensures Live(t.server, fd) ==> Flagged(t)[fd] == FlagsOf(t.server, fd)
    {
      LookUp(t, fd);
    }
    hide FlagMap;
  }

  /** del_user stops a feature only for a session that uses it, so it always finds the node it removes,
      frees no node that stays linked, and leaves nothing of the session behind. */
  lemma DisconnectCleansUp(t: Sys, fd: int, reply: B.Reply)
    requires MayHappen(t, Disconnect(fd, reply))
    ensures FlagsOf(t.server, fd).csi != 0 <==> fd in t.dma.csi.users
    ensures FlagsOf(t.server, fd).constell != 0 <==> fd in t.dma.constell.users
    ensures var u := After(t, Disconnect(fd, reply));
            && !Live(u.server, fd) && fd !in u.dma.csi.users && fd !in u.dma.constell.users
            && B.Safe(u.broker) && !B.Opened(u.broker, fd)
            && (forall p :: p in u.saver.heap && u.saver.heap[p].connfd == fd ==> u.saver.heap[p].file.enable == 0)
  {
    ReachableInv(t);
    LookUp(t, fd);
    LeaveDmaKeeps(Flagged(t), t.dma, fd);
    DropKeeps(t.server, fd);
    var u := After(t, Disconnect(fd, reply));
    DisconnectKeeps(t, fd, reply);
    LookUp(u, fd);
    NothingLeft(u, fd);
  }

  lemma NothingLeft(u: Sys, fd: int)
    requires Inv(u) && !Live(u.server, fd)
    ensures B.Safe(u.broker) && !B.Opened(u.broker, fd)
    ensures forall p :: p in u.saver.heap && u.saver.heap[p].connfd == fd ==> u.saver.heap[p].file.enable == 0
  {
    LookUp(u, fd);
    B.FindNode(Flagged(u), u.broker, fd);
    forall p | p in u.saver.heap && u.saver.heap[p].connfd == fd ensures u.saver.heap[p].file.enable == 0 {
      assert R.Good(u.saver.heap[p].file);
    }
  }

  /** How a start request is answered: refused exactly when the other feature is in use; CMD_OK exactly
      when the session is now in the list; CMD_FAIL only if the device did not start, and then nothing is
      added. What CMD_OK does not say, StartCsiServedIff does. */
  lemma StartCsiAnswer(t: Sys, fd: int, rc: int)
    requires MayHappen(t, StartCsi(fd, rc))
    ensures var u := After(t, StartCsi(fd, rc));
            && |u.replies| == |t.replies| + 1
            && u.replies[|t.replies|].0 == fd
            && var code := u.replies[|t.replies|].1;
               && (code == CSI_MUTEX <==> t.dma.constell.users != [])
               && (code == CSI_MUTEX ==> u.dma == t.dma && u.server == t.server)
               && (code == CMD_OK <==> fd in u.dma.csi.users)
               && (code == CMD_FAIL ==> u.dma.csi.users == t.dma.csi.users == [] && (rc != 0 || !t.dma.open))
  {
    hide Reachable;
    hide Inv;
    ReachableInv(t);
    GuardIsUsers(t);
    DmaOfStep(t, StartCsi(fd, rc));
    hide FlagMap;
    if t.dma.csi.users != [] {
      assert t.dma.csi.users[0] in t.dma.csi.users;
    }
  }

  lemma FailureKeptByStep(s: Sys, e: Event)
    requires Inv(s) && Allowed(s, e) && D.IdleUnlessFailed(s.dma)
    ensures D.IdleUnlessFailed(Step(s, e).dma)
  {
    hide D.IdleUnlessFailed;
    hide D.StartCsi;
    hide D.StartConstell;
    hide D.StopCsi;
    hide D.StopConstell;
    hide D.Counted;
    DmaOfStep(s, e);
    var fd := if IsDma(e) then e.fd else if e.Disconnect? then e.fd else 0;
    var rc := if e.StartCsi? || e.StartConstell? then e.rc else 0;
    D.FailureKept(s.dma, fd, rc);
    D.FailureKept(D.StopCsi(s.dma, fd), fd, rc);
  }

  lemma {:induction false} FailureKeptByRun(s: Sys, es: seq<Event>)
    requires Inv(s) && Possible(s, es) && D.IdleUnlessFailed(s.dma)
    ensures D.IdleUnlessFailed(Run(s, es).dma)
    decreases |es|
  {
    hide Inv;
    hide Allowed;
    hide Step;
    if es != [] {
      FailureKeptByStep(s, es[0]);
      StepKeeps(s, es[0]);
      FailureKeptByRun(Step(s, es[0]), es[1..]);
    }
  }

  lemma ReachableFailure(t: Sys)
    requires Reachable(t)
    ensures D.IdleUnlessFailed(t.dma)
  {
    hide Inv;
    var open, es :| ReachedBy(t, open, es);
    InitialInv(open);
    FailureKeptByRun(Initial(open), es);
  }

  /** CMD_OK does not mean that the device runs. After it, the device was not started for CSI exactly when,
      for a first user, the state was 1 without users, that is, the last start had failed, and for a further
      one, when it was not before. */
  lemma StartCsiServedIff(t: Sys, fd: int, rc: int)
    requires MayHappen(t, StartCsi(fd, rc))
    ensures var u := After(t, StartCsi(fd, rc));
            |u.replies| > |t.replies| && (u.replies[|t.replies|] == (fd, CMD_OK) ==>
              (!D.Started(u.dma.calls, D.CSI_CHANNEL) <==>
                 if t.dma.csi.users == [] then t.dma.csi.cnt == 0 && t.dma.csi.state == 1
                 else !D.Started(t.dma.calls, D.CSI_CHANNEL)))
  {
    hide Reachable;
    hide Inv;
    StartCsiAnswer(t, fd, rc);
    ReachableFailure(t);
    ReachableInv(t);
    DmaOfStep(t, StartCsi(fd, rc));
    GuardIsUsers(t);
  }

  /** A start request for constellation is refused exactly when CSI is in use; otherwise the session is in the
      list and is told CMD_OK. */
  lemma StartConstellAnswer(t: Sys, fd: int, rc: int)
    requires MayHappen(t, StartConstell(fd, rc))
    ensures var u := After(t, StartConstell(fd, rc));
            && |u.replies| == |t.replies| + 1
            && u.replies[|t.replies|].0 == fd
            && var code := u.replies[|t.replies|].1;
               && (code == CONSTELL_MUTEX <==> t.dma.csi.users != [])
               && (code == CONSTELL_MUTEX ==> u.dma == t.dma && u.server == t.server)
               && (code == CMD_OK <==> fd in u.dma.constell.users)
               && (code == CONSTELL_MUTEX || code == CMD_OK)
  {
    hide Reachable;
    hide Inv;
    ReachableInv(t);
    GuardIsUsers(t);
    DmaOfStep(t, StartConstell(fd, rc));
    hide FlagMap;
    if t.dma.constell.users != [] {
      assert t.dma.constell.users[0] in t.dma.constell.users;
    }
  }

  /** That CMD_OK is sent whatever the device did: after it, the device was started for constellation exactly
      when, for a first user, it is open and the start returned 0, and for a further one, when it was before. */
  lemma StartConstellServedIff(t: Sys, fd: int, rc: int)
    requires MayHappen(t, StartConstell(fd, rc))
    ensures var u := After(t, StartConstell(fd, rc));
            |u.replies| > |t.replies| && (u.replies[|t.replies|] == (fd, CMD_OK) ==>
              (D.Started(u.dma.calls, D.CONSTELL_CHANNEL) <==>
                 if t.dma.constell.users == [] then t.dma.open && rc == 0
                 else D.Started(t.dma.calls, D.CONSTELL_CHANNEL)))
  {
    hide Reachable;
    hide Inv;
    StartConstellAnswer(t, fd, rc);
    ReachableFailure(t);
    ReachableInv(t);
    DmaOfStep(t, StartConstell(fd, rc));
    GuardIsUsers(t);
  }

  /** The input that shows it: a client tries again after a failed start. */
  lemma RetryIsNotServed()
    ensures var es := [Accept(1), StartCsi(1, -1), StartCsi(1, 0)];
            && PossibleFrom(true, es)
            && var t := RunFrom(true, es);
               && t.replies == [(1, CMD_FAIL), (1, CMD_OK)]
               && t.dma.csi.users == [1]
               && t.dma.calls == [D.Select(D.CSI_CHANNEL), D.Start(-1)]
  {
    hide Inv;
    hide FlagMap;
    NoEvents(true);
    ExtendFrom(true, [], Accept(1));
    var s1 := RunFrom(true, [] + [Accept(1)]);
    assert Live(s1.server, 1);
    GuardIsUsers(s1);
    ExtendFrom(true, [] + [Accept(1)], StartCsi(1, -1));
    var s2 := RunFrom(true, [] + [Accept(1)] + [StartCsi(1, -1)]);
    GuardIsUsers(s2);
    ExtendFrom(true, [] + [Accept(1)] + [StartCsi(1, -1)], StartCsi(1, 0));
    assert [] + [Accept(1)] + [StartCsi(1, -1)] + [StartCsi(1, 0)] == [Accept(1), StartCsi(1, -1), StartCsi(1, 0)];
  }

  /** And for constellation one request is enough. */
  lemma ConstellIsNotServed()
    ensures var es := [Accept(1), StartConstell(1, -1)];
            && PossibleFrom(true, es)
            && var t := RunFrom(true, es);
               && t.replies == [(1, CMD_OK)]
               && t.dma.constell.users == [1]
               && t.dma.calls == [D.Select(D.CONSTELL_CHANNEL), D.Start(-1)]
  {
    hide Inv;
    hide FlagMap;
    NoEvents(true);
    ExtendFrom(true, [], Accept(1));
    var s1 := RunFrom(true, [] + [Accept(1)]);
    assert Live(s1.server, 1);
    GuardIsUsers(s1);
    ExtendFrom(true, [] + [Accept(1)], StartConstell(1, -1));
    assert [] + [Accept(1)] + [StartConstell(1, -1)] == [Accept(1), StartConstell(1, -1)];
  }

  lemma GuardIsUsers(s: Sys)
    requires Inv(s)
    ensures D.SomeConstell(Flagged(s)) <==> s.dma.constell.users != []
    ensures D.SomeCsi(Flagged(s)) <==> s.dma.csi.users != []
  {
    D.UsersSomeSession(Flagged(s), s.dma);
  }

  // ----- the device -----

  /** The event reaches axidma_start for CSI, because no session uses constellation and CSI has neither users
      nor its state on, and the start fails. */
  ghost predicate StartFails(s: Sys, e: Event) {
    && e.StartCsi? && !D.SomeConstell(Flagged(s)) && s.dma.csi.cnt == 0 && s.dma.csi.state == 0
    && e.rc != 0
  }

  /** From a consistent device, a step keeps it consistent exactly when the start it makes for CSI, if any,
      succeeds. */
  lemma DeviceStepIff(s: Sys, e: Event)
    requires Inv(s) && Allowed(s, e) && D.DeviceInv(s.dma)
    ensures D.DeviceInv(Step(s, e).dma) <==> !StartFails(s, e)
  {
    hide Inv;
    hide Step;
    hide D.DeviceInv;
    hide D.DmaInv;
    hide D.Counted;
    hide D.StartCsi;
    hide D.StartConstell;
    hide D.StopCsi;
    hide D.StopConstell;
    hide LeaveDma;
    DmaOfStep(s, e);
    if e.StartCsi? && !D.SomeConstell(Flagged(s)) {
      D.StartCsiDeviceIff(Flagged(s), s.dma, e.fd, e.rc);
      StateIsCount(s.dma);
    } else if e.StartConstell? && !D.SomeCsi(Flagged(s)) {
      D.StartConstellDevice(Flagged(s), s.dma, e.fd, e.rc);
    } else if e.StopCsi? || e.StopConstell? {
      D.StopDevice(s.dma, e.fd);
    } else if e.Disconnect? {
      LeaveDevice(s.dma, e.fd, FlagsOf(s.server, e.fd));
    }
  }

  lemma StateIsCount(d: D.Dma)
    requires D.DeviceInv(d) && D.Counted(d.csi)
    ensures d.csi.cnt > 0 <==> !(d.csi.cnt == 0 && d.csi.state == 0)
  {
  }

  lemma LeaveDevice(d: D.Dma, fd: int, flags: Flags)
    requires D.Counted(d.csi) && D.Counted(d.constell) && D.DeviceInv(d)
    ensures D.DeviceInv(LeaveDma(d, fd, flags))
  {
    hide D.DeviceInv;
    hide D.Counted;
    hide D.StopCsi;
    hide D.StopConstell;
    D.StopDevice(d, fd);
    D.StopDevice(D.StopCsi(d, fd), fd);
  }

  lemma {:induction false} DeviceWhileStartsSucceed(s: Sys, es: seq<Event>, k: nat)
    requires Inv(s) && Possible(s, es) && k <= |es| && D.DeviceInv(s.dma)
    requires forall i :: 0 <= i < k ==> !StartFails(At(s, es, i), es[i])
    ensures D.DeviceInv(At(s, es, k).dma)
    decreases k
  {
    hide Inv;
    hide Allowed;
    hide Step;
    hide D.DeviceInv;
    hide StartFails;
    if k > 0 {
      DeviceWhileStartsSucceed(s, es, k - 1);
      AtStep(s, es, k - 1);
      DeviceStepIff(At(s, es, k - 1), es[k - 1]);
    }
  }

  /** For every run with an open device: throughout the run a state is 1 exactly when the feature has users,
      never both are, and the calls are select, start, stop, select, start, stop, ... with the selected
      channel that of the feature in use - if and only if every start that the run makes for CSI succeeds.
      Starts for constellation may fail. */
  lemma DeviceFollowsUsersIff(es: seq<Event>)
    requires PossibleFrom(true, es)
    ensures (forall k :: 0 <= k <= |es| ==> D.DeviceInv(AtFrom(true, es, k).dma)) <==>
              (forall k :: 0 <= k < |es| ==> !StartFails(AtFrom(true, es, k), es[k]))
  {
    hide Inv;
    hide Allowed;
    hide Step;
    hide D.DeviceInv;
    hide StartFails;
    InitialInv(true);
    D.InitialDevice();
    var s := Initial(true);
    if forall k :: 0 <= k <= |es| ==> D.DeviceInv(AtFrom(true, es, k).dma) {
      forall k | 0 <= k < |es| ensures !StartFails(AtFrom(true, es, k), es[k]) {
        AtStep(s, es, k);
        assert D.DeviceInv(AtFrom(true, es, k).dma) && D.DeviceInv(AtFrom(true, es, k + 1).dma);
        DeviceStepIff(At(s, es, k), es[k]);
      }
    }
    if forall k :: 0 <= k < |es| ==> !StartFails(AtFrom(true, es, k), es[k]) {
      forall k | 0 <= k <= |es| ensures D.DeviceInv(AtFrom(true, es, k).dma) {
        forall i | 0 <= i < k ensures !StartFails(At(s, es, i), es[i]) {
          assert !StartFails(AtFrom(true, es, i), es[i]);
        }
        DeviceWhileStartsSucceed(s, es, k);
      }
    }
  }

  // ----- recordings -----

  /** In every interleaving of loop and writers: what was written, is in hand, and is queued is what was
      pushed since the recording started; an ended recording has one terminator, and it is last; `enable`
      is 1 exactly when a live session's save flag is; and every closed file is complete. */
  lemma RssiRecordings(t: Sys)
    requires Reachable(t)
    ensures B.Memory(t.broker) && B.Recordings(t.broker)
    ensures forall p :: p in t.broker.heap && B.Enabled(t.broker.heap[p]) ==>
              var fd := t.broker.heap[p].connfd;
              p in t.broker.list && Live(t.server, fd) && FlagsOf(t.server, fd).rssiSave == 1
    ensures forall fd :: Live(t.server, fd) && FlagsOf(t.server, fd).rssiSave == 1 ==>
              exists p :: p in t.broker.list && t.broker.heap[p].connfd == fd && B.Enabled(t.broker.heap[p])
  {
    ReachableInv(t);
    var m, b := Flagged(t), t.broker;
    forall p | p in b.heap && B.Enabled(b.heap[p])
      ensures p in b.list && Live(t.server, b.heap[p].connfd) && FlagsOf(t.server, b.heap[p].connfd).rssiSave == 1
    {
      LookUp(t, b.heap[p].connfd);
    }
    forall fd | Live(t.server, fd) && FlagsOf(t.server, fd).rssiSave == 1
      ensures exists p :: p in b.list && b.heap[p].connfd == fd && B.Enabled(b.heap[p])
    {
      LookUp(t, fd);
      B.SessionNode(m, b, fd);
    }
  }

  lemma CsiRecordings(t: Sys)
    requires Reachable(t)
    ensures V.Memory(t.saver) && V.Recordings(t.saver)
    ensures forall p :: p in t.saver.heap ==>
              var fd := t.saver.heap[p].connfd;
              (t.saver.heap[p].file.enable == 1 <==> Live(t.server, fd) && FlagsOf(t.server, fd).csiSave == 1)
    ensures forall fd :: Live(t.server, fd) && FlagsOf(t.server, fd).csiSave == 1 ==>
              exists p :: p in t.saver.heap && t.saver.heap[p].connfd == fd && t.saver.heap[p].file.enable == 1
  {
    ReachableInv(t);
    var v := t.saver;
    forall p | p in v.heap
      ensures v.heap[p].file.enable == 1 <==>
                Live(t.server, v.heap[p].connfd) && FlagsOf(t.server, v.heap[p].connfd).csiSave == 1
    {
      LookUp(t, v.heap[p].connfd);
    }
    forall fd | Live(t.server, fd) && FlagsOf(t.server, fd).csiSave == 1
      ensures exists p :: p in v.heap && v.heap[p].connfd == fd && v.heap[p].file.enable == 1
    {
      LookUp(t, fd);
      V.FindNode(Flagged(t), v, fd);
    }
  }

  /** No RSSI node is freed while anything can still reach it. Whatever event frees it, in whatever run: it
      has no recording, or its thread has posted its CLEAR and is gone; and no CLEAR for it is pending. */
  lemma RssiFreedOutOfReach(t: Sys, e: Event, p: nat)
    requires MayHappen(t, e) && p in t.broker.heap && p !in After(t, e).broker.heap
    ensures t.broker.heap[p].file.None? || t.broker.heap[p].file.value.phase.Posted?
    ensures p !in After(t, e).broker.mailbox && p !in After(t, e).broker.list
  {
    hide Reachable;
    hide Inv;
    hide Allowed;
    hide Step;
    ReachableInv(t);
    StepKeeps(t, e);
    MailboxAllocated(Step(t, e), p);
    if e.Disconnect? {
      LeaveFreesUnused(t, e, p);
    } else {
      OnlyClearFrees(t, e, p);
    }
  }

  lemma OnlyClearFrees(s: Sys, e: Event, p: nat)
    requires Inv(s) && Allowed(s, e) && !e.Disconnect? && p in s.broker.heap && p !in Step(s, e).broker.heap
    ensures s.broker.heap[p].file.Some? && s.broker.heap[p].file.value.phase.Posted?
  {
    hide Inv;
    hide Allowed;
    hide Step;
    hide B.Sample;
    BrokerOfStep(s, e);
    if e.RssiReady? {
      B.SampleLists(s.broker, 0, e.item);
    } else if e.OpenRssi? || e.ControlRssi? {
      AddsOnly(s.broker, e);
    }
  }

  lemma AddsOnly(b: B.Broker, e: Event)
    requires B.Safe(b)
    ensures e.OpenRssi? ==> b.heap.Keys <= B.Open(b, e.fd, e.reply).0.heap.Keys
    ensures e.ControlRssi? ==> b.heap.Keys <= B.ControlSave(b, e.fd, e.op, e.fopenOk).0.heap.Keys
  {
  }

  lemma MailboxAllocated(s: Sys, p: nat)
    requires Inv(s) && p !in s.broker.heap
    ensures p !in s.broker.mailbox && p !in s.broker.list
  {
  }

  lemma LeaveFreesUnused(s: Sys, e: Event, p: nat)
    requires Inv(s) && Allowed(s, e) && e.Disconnect? && p in s.broker.heap && p !in Step(s, e).broker.heap
    ensures s.broker.heap[p].file.None?
  {
    hide Inv;
    hide Leavable;
    hide LeaveRssi;
    ReadyToLeave(s, e.fd, e.reply);
    LeaveRssiFrees(s, e.fd, FlagsOf(s.server, e.fd), e.reply, p);
  }

  lemma LeaveRssiFrees(s: Sys, fd: int, flags: Flags, reply: B.Reply, p: nat)
    requires Leavable(s, fd, flags) && p in s.broker.heap && p !in LeaveRssi(s.broker, fd, flags, reply).heap
    ensures s.broker.heap[p].file.None?
  {
    var b, c := s.broker, s.broker;
    if flags.rssiSave != 0 {
      var q := b.list[B.Find(b, fd)];
      assert q in b.list;
      c := B.InformStop(b, fd);
      B.SetFileMemory(b, q, R.PushEnd(b.heap[q].file.value));
    }
    LeaveRssiOpened(b, fd, flags);
    hide B.Close;
    if flags.rssi != 0 {
      B.CloseEffect(c, fd, reply);
    }
  }

  /** Nor any CSI node: its thread has posted its CLEAR and is gone, and no CLEAR for it is pending. */
  lemma CsiFreedOutOfReach(t: Sys, e: Event, p: nat)
    requires MayHappen(t, e) && p in t.saver.heap && p !in After(t, e).saver.heap
    ensures t.saver.heap[p].file.phase.Posted?
    ensures p !in After(t, e).saver.mailbox && p !in After(t, e).saver.list
  {
    hide Reachable;
    hide Inv;
    hide Allowed;
    hide Step;
    hide V.Sample;
    hide V.ControlSave;
    ReachableInv(t);
    StepKeeps(t, e);
    NodesAllocated(Step(t, e), p);
    PostedIffMailed(t);
    SaverOfStep(t, e);
    if e.CsiReady? {
      V.SampleLists(t.saver, 0, e.item);
    } else if e.SaveCsi? {
      NodesStay(t.saver, e.fd, e.op, e.fopenOk);
    }
  }

  lemma NodesStay(v: V.Saver, fd: int, op: int, fopenOk: bool)
    requires V.Safe(v)
    ensures v.heap.Keys <= V.ControlSave(v, fd, op, fopenOk).0.heap.Keys
  {
  }

  lemma NodesAllocated(s: Sys, p: nat)
    requires Inv(s) && p !in s.saver.heap
    ensures p !in s.saver.mailbox && p !in s.saver.list
  {
  }

  lemma PostedIffMailed(s: Sys)
    requires Inv(s)
    ensures forall p :: p in s.saver.heap ==> (p in s.saver.mailbox <==> s.saver.heap[p].file.phase.Posted?)
  {
  }

  // ----- asynchronous replies -----

  /** The sessions now live, and the one that asked, were admitted within 1024 consecutive admissions. */
  ghost predicate OneWindow(s: Server, serial: nat, window: nat) {
    && window <= serial < window + 1024
    && forall i :: 0 <= i < |s.sessions| ==> window <= s.sessions[i].serial < window + 1024
  }

  /** Whenever an answer is delivered, that is so. */
  ghost predicate Windowed(s: Sys, e: Event) {
    e.RfReady? && e.job < |s.rf.pending| ==>
      exists window: nat :: OneWindow(s.server, s.rf.pending[e.job].serial, window)
  }

  ghost predicate ToAskers(rf: Rf) {
    forall i :: 0 <= i < |rf.delivered| ==> rf.delivered[i].asker == rf.delivered[i].receiver
  }

  /** Only an answer adds to what has been delivered. */
  lemma RfOfStep(s: Sys, e: Event)
    requires Inv(s) && Allowed(s, e)
    ensures ServerInv(s.server) && RfInv(s.server, s.rf)
    ensures e.RfReady? ==> e.job < |s.rf.pending| && Step(s, e) == AnswerRf(s, e.job)
    ensures !e.RfReady? ==> Step(s, e).rf.delivered == s.rf.delivered
  {
    hide B.Safe;
    hide V.Safe;
    hide D.DmaInv;
    hide B.BrokerInv;
    hide V.SaverInv;
    if e.OpenwrtConnected? && e.linked && !e.written {
      AcceptKeeps(s, e.fd);
      AdmittedLive(s.server, e.fd);
    }
  }

  lemma RfStep(s: Sys, e: Event)
    requires Inv(s) && Allowed(s, e) && ToAskers(s.rf) && Windowed(s, e)
    ensures ToAskers(Step(s, e).rf)
  {
    hide Inv;
    hide Allowed;
    hide Step;
    RfOfStep(s, e);
    if e.RfReady? {
      var ask := s.rf.pending[e.job];
      var window :| OneWindow(s.server, ask.serial, window);
      ReplyWithinWindow(s.server, ask.serial, window);
    }
  }

  /** In every run, whatever comes between request and answer: if at each delivery the sessions then live and
      the asker lie within one window of 1024 consecutive admissions, every answer goes to the session that
      asked, or to nobody. */
  lemma {:induction false} RfReplies(deviceOpen: bool, es: seq<Event>, k: nat)
    requires PossibleFrom(deviceOpen, es) && k <= |es|
    requires forall i :: 0 <= i < k ==> Windowed(AtFrom(deviceOpen, es, i), es[i])
    ensures ToAskers(AtFrom(deviceOpen, es, k).rf)
    decreases k
  {
    hide Inv;
    hide Allowed;
    hide Step;
    InitialInv(deviceOpen);
    if k > 0 {
      RfReplies(deviceOpen, es, k - 1);
      AtStep(Initial(deviceOpen), es, k - 1);
      hide ToAskers;
      hide Windowed;
      assert Windowed(AtFrom(deviceOpen, es, k - 1), es[k - 1]);
      RfStep(At(Initial(deviceOpen), es, k - 1), es[k - 1]);
    }
  }
}
