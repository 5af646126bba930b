/** What each message does that a client or the device can see: the answers, the calls to the DMA device, and
    the sessions. Codes and channels are written as they go out. */
module Answers {
  import opened Sessions
  import opened EventModel
  import opened Runs
  import R = Recorder
  import D = DmaModel
  import B = RssiModel
  import V = CsiSaveModel

  // ----- answers -----

  /** Only requests for CSI, constellation and recordings are answered with a command state. */
  lemma OthersAnswerNothing(t: Sys, e: Event)
    requires MayHappen(t, e) && !IsDma(e) && !e.ControlRssi? && !e.SaveCsi?
    ensures After(t, e).replies == t.replies
  {
    hide Reachable;
    ReachableInv(t);
    QuietStep(t, e);
  }

  lemma QuietStep(s: Sys, e: Event)
    requires Inv(s) && Allowed(s, e) && !IsDma(e) && !e.ControlRssi? && !e.SaveCsi?
    ensures Step(s, e).replies == s.replies
  {
    hide Inv;
    if e.OpenwrtConnected? && e.linked && !e.written {
      AcceptKeeps(s, e.fd);
      AdmittedLive(s.server, e.fd);
    }
  }

  /** A start request is answered 0, or -1 when the device does not start, or refused with 2 or 3. */
  lemma StartCodes(t: Sys, fd: int, rc: int)
    ensures MayHappen(t, StartCsi(fd, rc)) ==>
              var u := After(t, StartCsi(fd, rc));
              u.replies == t.replies + [(fd, if t.dma.constell.users != [] then 2 else if fd in u.dma.csi.users then 0 else -1)]
    ensures MayHappen(t, StartConstell(fd, rc)) ==>
              After(t, StartConstell(fd, rc)).replies == t.replies + [(fd, if t.dma.csi.users != [] then 3 else 0)]
  {
    hide Reachable;
    if MayHappen(t, StartCsi(fd, rc)) {
      StartCsiAnswer(t, fd, rc);
      RepliesGrow(t, StartCsi(fd, rc));
    }
    if MayHappen(t, StartConstell(fd, rc)) {
      StartConstellAnswer(t, fd, rc);
      RepliesGrow(t, StartConstell(fd, rc));
    }
  }

  lemma RepliesGrow(t: Sys, e: Event)
    requires MayHappen(t, e) && IsDma(e)
    ensures |After(t, e).replies| == |t.replies| + 1 && t.replies <= After(t, e).replies
    ensures After(t, e).replies[|t.replies|].1 in {0, -1, 2, 3}
    ensures After(t, e).replies[|t.replies|].0 == e.fd
  {
    hide Reachable;
    ReachableInv(t);
    hide Inv;
  }

  /** A stop request is always answered 0, and its session is out of the list, with its flag cleared. */
  lemma StopCsiAnswer(t: Sys, fd: int)
    requires MayHappen(t, StopCsi(fd))
    ensures var u := After(t, StopCsi(fd));
            && u.replies == t.replies + [(fd, 0)]
            && fd !in u.dma.csi.users && Live(u.server, fd) && FlagsOf(u.server, fd).csi == 0
            && forall g :: g != fd ==> (g in u.dma.csi.users <==> g in t.dma.csi.users)
  {
    hide Reachable;
    ReachableInv(t);
    StopAnswers(t, fd);
    D.RemoveUserSet(t.dma.csi, fd);
  }

  lemma StopConstellAnswer(t: Sys, fd: int)
    requires MayHappen(t, StopConstell(fd))
    ensures var u := After(t, StopConstell(fd));
            && u.replies == t.replies + [(fd, 0)]
            && fd !in u.dma.constell.users && Live(u.server, fd) && FlagsOf(u.server, fd).constell == 0
            && forall g :: g != fd ==> (g in u.dma.constell.users <==> g in t.dma.constell.users)
  {
    hide Reachable;
    ReachableInv(t);
    StopAnswers(t, fd);
    D.RemoveUserSet(t.dma.constell, fd);
  }

  lemma StopAnswers(s: Sys, fd: int)
    requires Inv(s)
    ensures Allowed(s, StopCsi(fd)) ==>
              var u := Step(s, StopCsi(fd));
              && u.replies == s.replies + [(fd, 0)] && u.dma == D.StopCsi(s.dma, fd)
              && Live(u.server, fd) && FlagsOf(u.server, fd).csi == 0
    ensures Allowed(s, StopConstell(fd)) ==>
              var u := Step(s, StopConstell(fd));
              && u.replies == s.replies + [(fd, 0)] && u.dma == D.StopConstell(s.dma, fd)
              && Live(u.server, fd) && FlagsOf(u.server, fd).constell == 0
  {
    hide Inv;
    if Live(s.server, fd) {
      StoredFlags(s.server, fd, FlagsOf(s.server, fd).(csi := 0));
      StoredFlags(s.server, fd, FlagsOf(s.server, fd).(constell := 0));
    }
    hide D.StopCsi;
    hide D.StopConstell;
    hide Record;
  }

  lemma StoredFlags(s: Server, fd: int, flags: Flags)
    requires Live(s, fd)
    ensures Live(Record(s, fd, flags), fd) && FlagsOf(Record(s, fd, flags), fd) == flags
  {
    var i, t := IndexOfFd(s.sessions, fd), Record(s, fd, flags).sessions;
    assert |t| == |s.sessions| && t[i].connfd == fd;
    assert forall k :: 0 <= k < i ==> t[k].connfd != fd;
  }

  /** An RSSI save request is answered 0 exactly when the session has RSSI open, its save flag differs from the
      request, and a start can create its file; the flag then follows. Otherwise it is answered -1 and the
      flag stays. */
  lemma ControlRssiAnswer(t: Sys, fd: int, op: int, fopenOk: bool)
    requires MayHappen(t, ControlRssi(fd, op, fopenOk))
    ensures var u := After(t, ControlRssi(fd, op, fopenOk));
            Live(t.server, fd) && Live(u.server, fd) &&
            var f, g := FlagsOf(t.server, fd), FlagsOf(u.server, fd);
            var done := f.rssi == 1 && f.rssiSave != op && (op == 0 || fopenOk);
            && u.replies == t.replies + [(fd, if done then 0 else -1)]
            && g == if done then f.(rssiSave := op) else f
  {
    hide Reachable;
    hide Inv;
    hide Allowed;
    ReachableInv(t);
    AllowedCan(t, ControlRssi(fd, op, fopenOk));
    ControlResult(t, fd, op, fopenOk);
    ControlStep(t, fd, op, fopenOk);
    assert Step(t, ControlRssi(fd, op, fopenOk)) == RssiStep(t, ControlRssi(fd, op, fopenOk));
    hide RssiStep;
    hide Step;
  }

  lemma ControlResult(s: Sys, fd: int, op: int, fopenOk: bool)
    requires Inv(s) && Allowed(s, ControlRssi(fd, op, fopenOk))
    ensures B.Safe(s.broker) && Live(s.server, fd) && SaveFlag(op) == op
    ensures var ret, f := B.ControlSave(s.broker, fd, op, fopenOk).1, FlagsOf(s.server, fd);
            && (ret == 0 <==> f.rssi == 1 && f.rssiSave != op && (op == 0 || fopenOk))
            && (ret == 0 || ret == -1 || ret == -2)
  {
    hide B.BrokerInv;
    hide B.ControlSave;
    hide D.DmaInv;
    hide V.SaverInv;
    LookUp(s, fd);
    InvSafe(s);
    B.SessionNode(Flagged(s), s.broker, fd);
    B.EnableIsFlag(Flagged(s), s.broker, fd);
    B.ControlSaveResult(Flagged(s), s.broker, fd, op, fopenOk);
  }

  lemma ControlStep(s: Sys, fd: int, op: int, fopenOk: bool)
    requires RssiCan(s, ControlRssi(fd, op, fopenOk))
    ensures var u, ret := RssiStep(s, ControlRssi(fd, op, fopenOk)), B.ControlSave(s.broker, fd, op, fopenOk).1;
            && (ret == 0 || ret == -1 || ret == -2 ==> u.replies == s.replies + [(fd, if ret == 0 then 0 else -1)])
            && Live(u.server, fd)
            && FlagsOf(u.server, fd) == if ret == 0 then FlagsOf(s.server, fd).(rssiSave := SaveFlag(op)) else FlagsOf(s.server, fd)
  {
    hide B.ControlSave;
    StoredFlags(s.server, fd, FlagsOf(s.server, fd).(rssiSave := SaveFlag(op)));
    hide Record;
  }

  /** A CSI save request is always answered 0, and the flag follows. */
  lemma SaveCsiAnswer(t: Sys, fd: int, op: int, fopenOk: bool)
    requires MayHappen(t, SaveCsi(fd, op, fopenOk))
    ensures var u := After(t, SaveCsi(fd, op, fopenOk));
            && u.replies == t.replies + [(fd, 0)]
            && Live(t.server, fd) && Live(u.server, fd)
            && FlagsOf(u.server, fd) == FlagsOf(t.server, fd).(csiSave := op)
  {
    hide Reachable;
    ReachableInv(t);
    hide Inv;
    hide V.ControlSave;
    StoredFlags(t.server, fd, FlagsOf(t.server, fd).(csiSave := op));
    hide Record;
  }

  // ----- calls to the DMA device -----

  /** Which calls an event makes, whatever has failed before: CSI is selected with 0x40 and constellation with
      0x80, and started, for a first user while the state is 0; and the device is stopped with the state that
      is switched off when nobody uses the feature any more. */
  function CallsOf(t: D.Dma, u: D.Dma, e: Event): seq<D.DeviceCall> {
    if !t.open then []
    else if e.StartCsi? && t.constell.users == [] && t.csi.users == [] && t.csi.state == 0 then [D.Select(0x40), D.Start(e.rc)]
    else if e.StartConstell? && t.csi.users == [] && t.constell.users == [] then [D.Select(0x80), D.Start(e.rc)]
    else if (e.StopCsi? && t.csi.state == 1 && u.csi.users == []) || (e.Disconnect? && t.csi.users != [] && u.csi.users == []) then [D.Stop]
    else if (e.StopConstell? && t.constell.users != [] && u.constell.users == [])
         || (e.Disconnect? && t.constell.users != [] && u.constell.users == []) then [D.Stop]
    else []
  }

  lemma DeviceCalls(t: Sys, e: Event)
    requires MayHappen(t, e)
    ensures var u := After(t, e);
            && u.dma.open == t.dma.open && u.dma.calls == t.dma.calls + CallsOf(t.dma, u.dma, e)
            && (e.StopCsi? && u.dma.csi.users == [] ==> u.dma.csi.state == 0)
            && (u.dma.constell.users == [] ==> u.dma.constell.state == 0)
            && (!IsDma(e) && !e.Disconnect? ==> u.dma == t.dma)
  {
    hide Reachable;
    hide Inv;
    hide Allowed;
    hide Step;
    hide CallsOf;
    hide D.Counted;
    hide D.IdleUnlessFailed;
    ReachableFailure(t);
    ReachableInv(t);
    FailureKeptByStep(t, e);
    StepKeeps(t, e);
    CallsOfStep(t, e);
    IdleState(Step(t, e).dma);
  }

  lemma IdleState(d: D.Dma)
    requires D.IdleUnlessFailed(d) && d.constell.cnt == |d.constell.users|
    ensures d.constell.users == [] ==> d.constell.state == 0
  {
  }

  lemma CallsOfStep(s: Sys, e: Event)
    requires Inv(s) && Allowed(s, e) && D.IdleUnlessFailed(s.dma)
    ensures var u := Step(s, e);
            && u.dma.open == s.dma.open && u.dma.calls == s.dma.calls + CallsOf(s.dma, u.dma, e)
            && (e.StopCsi? && u.dma.csi.users == [] ==> u.dma.csi.state == 0)
            && (!IsDma(e) && !e.Disconnect? ==> u.dma == s.dma)
            && u.dma.constell.cnt == |u.dma.constell.users|
  {
    hide Inv;
    hide D.DmaInv;
    hide D.Counted;
    hide D.IdleUnlessFailed;
    hide D.StartCsi;
    hide D.StartConstell;
    hide D.StopCsi;
    hide D.StopConstell;
    hide LeaveDma;
    StepKeeps(s, e);
    CountedOf(Step(s, e));
    DmaOfStep(s, e);
    GuardIsUsers(s);
    ExclusionOf(s);
    if e.Disconnect? {
      FlagsAreUsers(s, e.fd);
      CallsOfLeave(s.dma, e.fd, FlagsOf(s.server, e.fd), e.reply);
    } else if IsDma(e) {
      CallsOfRequest(s.dma, e);
    }
    hide Step;
  }

  lemma ExclusionOf(s: Sys)
    requires Inv(s)
    ensures s.dma.csi.users == [] || s.dma.constell.users == []
    ensures s.dma.open && s.dma.csi.users != [] ==> s.dma.csi.state == 1
    ensures s.dma.open && s.dma.constell.users != [] ==> s.dma.constell.state == 1
    ensures !s.dma.open ==> s.dma.csi.state == 0 && s.dma.constell.state == 0
  {
  }

  lemma CountedOf(s: Sys)
    requires Inv(s)
    ensures D.Counted(s.dma.csi) && D.Counted(s.dma.constell)
    ensures s.dma.constell.cnt == |s.dma.constell.users|
  {
  }

  lemma FlagsAreUsers(s: Sys, fd: int)
    requires Inv(s) && Live(s.server, fd)
    ensures FlagsOf(s.server, fd).csi != 0 <==> fd in s.dma.csi.users
    ensures FlagsOf(s.server, fd).constell != 0 <==> fd in s.dma.constell.users
  {
    LookUp(s, fd);
  }

  lemma CallsOfRequest(d: D.Dma, e: Event)
    requires IsDma(e) && D.Counted(d.csi) && D.Counted(d.constell) && D.IdleUnlessFailed(d)
    requires d.open && d.constell.users != [] ==> d.constell.state == 1
    ensures match e
            case StartCsi(fd, rc) =>
              d.constell.users == [] ==>
                var u := D.StartCsi(d, fd, rc).0; u.calls == d.calls + CallsOf(d, u, e) && u.open == d.open
            case StartConstell(fd, rc) =>
              d.csi.users == [] ==>
                var u := D.StartConstell(d, fd, rc); u.calls == d.calls + CallsOf(d, u, e) && u.open == d.open
            case StopCsi(fd) =>
              var u := D.StopCsi(d, fd);
              && u.calls == d.calls + CallsOf(d, u, e) && u.open == d.open
              && (u.csi.users == [] ==> u.csi.state == 0)
            case StopConstell(fd) =>
              var u := D.StopConstell(d, fd); u.calls == d.calls + CallsOf(d, u, e) && u.open == d.open
            case _ => true
    ensures e.StartCsi? && d.constell.users != [] ==> CallsOf(d, d, e) == []
    ensures e.StartConstell? && d.csi.users != [] ==> CallsOf(d, d, e) == []
  {
    D.RemoveUserSet(d.csi, e.fd);
    D.RemoveUserSet(d.constell, e.fd);
  }

  lemma CallsOfLeave(d: D.Dma, fd: int, flags: Flags, reply: B.Reply)
    requires D.Counted(d.csi) && D.Counted(d.constell)
    requires flags.csi != 0 <==> fd in d.csi.users
    requires flags.constell != 0 <==> fd in d.constell.users
    requires d.csi.users == [] || d.constell.users == []
    requires d.open && d.csi.users != [] ==> d.csi.state == 1
    requires d.open && d.constell.users != [] ==> d.constell.state == 1
    requires !d.open ==> d.csi.state == 0 && d.constell.state == 0
    ensures var u := LeaveDma(d, fd, flags);
            u.calls == d.calls + CallsOf(d, u, Disconnect(fd, reply)) && u.open == d.open
  {
    D.RemoveUserSet(d.csi, fd);
    D.RemoveUserSet(d.constell, fd);
  }

  // ----- sessions -----

  /** The same sessions, in the same order, perhaps with other flags. */
  ghost predicate SameSessions(s: Server, u: Server) {
    && |u.sessions| == |s.sessions| && u.admitted == s.admitted
    && forall i :: 0 <= i < |s.sessions| ==> u.sessions[i] == s.sessions[i].(flags := u.sessions[i].flags)
  }

  /** A connection adds exactly one session, at the end, with no flags and the next id; a disconnect takes
      exactly that session out; an OpenWrt connection stays only if it is linked and the epoll thread was told;
      and no other event adds, removes or reorders sessions. */
  lemma SessionsOfStep(t: Sys, e: Event)
    requires MayHappen(t, e)
    ensures var s, u := t.server, After(t, e).server;
            if e.Accept? || (e.OpenwrtConnected? && e.linked && e.written) then
              && u.sessions == s.sessions + [Session(e.fd, s.admitted % 1024 + 1, s.admitted, NO_FLAGS)]
              && u.admitted == s.admitted + 1
            else if e.Disconnect? then
              && u.admitted == s.admitted
              && (exists i :: && 0 <= i < |s.sessions| && s.sessions[i].connfd == e.fd
                              && u.sessions == s.sessions[..i] + s.sessions[i + 1..])
            else if e.OpenwrtConnected? && e.linked then
              u.sessions == s.sessions && u.admitted == s.admitted + 1
            else SameSessions(s, u)
  {
    hide Reachable;
    ReachableInv(t);
    SessionsStep(t, e);
  }

  lemma SessionsStep(s: Sys, e: Event)
    requires Inv(s) && Allowed(s, e)
    ensures var v, u := s.server, Step(s, e).server;
            if e.Accept? || (e.OpenwrtConnected? && e.linked && e.written) then
              && u.sessions == v.sessions + [Session(e.fd, v.admitted % 1024 + 1, v.admitted, NO_FLAGS)]
              && u.admitted == v.admitted + 1
            else if e.Disconnect? then
              && u.admitted == v.admitted
              && (exists i :: && 0 <= i < |v.sessions| && v.sessions[i].connfd == e.fd
                              && u.sessions == v.sessions[..i] + v.sessions[i + 1..])
            else if e.OpenwrtConnected? && e.linked then
              u.sessions == v.sessions && u.admitted == v.admitted + 1
            else SameSessions(v, u)
  {
    hide Inv;
    NextId(s);
    if e.OpenwrtConnected? && e.linked {
      AcceptKeeps(s, e.fd);
      TakenBack(s.server, e.fd);
    } else if e.Disconnect? {
      var i := IndexOfFd(s.server.sessions, e.fd);
      assert 0 <= i < |s.server.sessions| && s.server.sessions[i].connfd == e.fd;
    }
  }

  lemma NextId(s: Sys)
    requires Inv(s)
    ensures s.server.nextId == s.server.admitted % 1024 + 1
  {
  }

  lemma TakenBack(s: Server, fd: int)
    requires !Live(s, fd)
    ensures Live(Admit(s, fd), fd) && Drop(Admit(s, fd), fd).sessions == s.sessions
  {
    AdmittedLive(s, fd);
    var ss := Admit(s, fd).sessions;
    assert forall i :: 0 <= i < |s.sessions| ==> ss[i] == s.sessions[i];
    assert forall i :: 0 <= i < |s.sessions| ==> s.sessions[i].connfd != fd;
  }
}
