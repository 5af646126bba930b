/** The RSSI device over runs: what it is asked, and when it is on. */
module RssiRuns {
  import opened Wrappers
  import opened Sessions
  import opened EventModel
  import opened Runs
  import R = Recorder
  import A = Answers
  import B = RssiModel

  /** The state that the answered requests leave: 1 after one to switch on, 0 after one to switch off, 0 at first. */
  function Answered(rs: seq<B.Request>): (state: int)
    ensures state == 0 || state == 1
  {
    if rs == [] then 0
    else
      var last := rs[|rs| - 1];
      if last.reply.NoReply? then Answered(rs[..|rs| - 1]) else if last.on then 1 else 0
  }

  /** The last request was to switch on, and the device said that it did. */
  ghost predicate Confirmed(rs: seq<B.Request>) {
    rs != [] && rs[|rs| - 1] == B.Request(true, B.Answer(true))
  }

  /** The state is that of the answered requests; users imply that it is 1; and it is 1 without users only
      after a request to switch on that failed, or one to switch off that was not answered. */
  ghost predicate DeviceInv(b: B.Broker) {
    && b.state == Answered(b.requests) && b.cnt == |b.list|
    && (b.list != [] ==> b.state == 1)
    && (b.list == [] && b.state == 1 ==> !Confirmed(b.requests))
  }

  /** What an event asks the device: to switch on for a first user while the state is 0, and to switch off when
      it takes out the last one. */
  ghost function RequestsOf(t: B.Broker, u: B.Broker, e: Event): seq<B.Request> {
    if e.OpenRssi? && t.list == [] && t.state == 0 then [B.Request(true, e.reply)]
    else if e.Disconnect? && t.list != [] && u.list == [] then [B.Request(false, e.reply)]
    else []
  }

  lemma AnsweredSnoc(rs: seq<B.Request>, r: B.Request)
    ensures Answered(rs + [r]) == if r.reply.NoReply? then Answered(rs) else if r.on then 1 else 0
  {
    assert (rs + [r])[..|rs|] == rs;
  }

  /** What an event does to users, state and requests. */
  ghost predicate Follows(b: B.Broker, c: B.Broker, e: Event) {
    && c.requests == b.requests + RequestsOf(b, c, e)
    && DeviceInv(c)
    && (if e.OpenRssi? then c.list == b.list || (|c.list| == |b.list| + 1 && b.list <= c.list)
        else if e.Disconnect? then |b.list| - 1 <= |c.list| <= |b.list|
        else c.list == b.list)
  }

  lemma OpenFollows(b: B.Broker, fd: int, reply: B.Reply)
    requires DeviceInv(b)
    ensures Follows(b, B.Open(b, fd, reply).0, OpenRssi(fd, reply))
    ensures B.Open(b, fd, reply).1 == 0 || B.Open(b, fd, reply).1 == -1
    ensures B.Open(b, fd, reply).1 == 0 <==> b.list != [] || b.state == 1 || reply == B.Answer(true)
    ensures B.Open(b, fd, reply).1 == 0 <==> |B.Open(b, fd, reply).0.list| == |b.list| + 1
  {
    AnsweredSnoc(b.requests, B.Request(true, reply));
  }

  lemma CloseFollows(b: B.Broker, fd: int, reply: B.Reply)
    requires DeviceInv(b) && B.Memory(b) && B.Opened(b, fd)
    ensures Follows(b, B.Close(b, fd, reply), Disconnect(fd, reply))
    ensures |B.Close(b, fd, reply).list| == |b.list| - 1
  {
    B.CloseIsDetach(b, fd, reply);
    DetachLengths(b, B.Find(b, fd));
    AnsweredSnoc(b.requests, B.Request(false, reply));
    hide B.Close;
    hide B.Memory;
    hide B.Detach;
  }

  lemma DetachLengths(b: B.Broker, i: nat)
    requires i < |b.list| && b.list[i] in b.heap && b.cnt == |b.list|
    ensures var d := B.Detach(b, i);
            |d.list| == |b.list| - 1 && d.cnt == |d.list| && d.state == b.state && d.requests == b.requests
  {
  }

  lemma LeaveFollows(s: Sys, fd: int, flags: Flags, reply: B.Reply)
    requires Leavable(s, fd, flags) && DeviceInv(s.broker)
    ensures Follows(s.broker, LeaveRssi(s.broker, fd, flags, reply), Disconnect(fd, reply))
    ensures |LeaveRssi(s.broker, fd, flags, reply).list| == |s.broker.list| - if flags.rssi != 0 then 1 else 0
  {
    var b, c := s.broker, s.broker;
    if flags.rssiSave != 0 {
      var q := b.list[B.Find(b, fd)];
      assert q in b.list;
      c := B.InformStop(b, fd);
      B.SetFileMemory(b, q, R.PushEnd(b.heap[q].file.value));
    }
    LeaveRssiOpened(b, fd, flags);
    hide B.Memory;
    if flags.rssi != 0 {
      CloseFollows(c, fd, reply);
    }
  }

  lemma ControlLeaves(b: B.Broker, fd: int, op: int, fopenOk: bool)
    requires B.Safe(b)
    ensures var c := B.ControlSave(b, fd, op, fopenOk).0;
            c.list == b.list && c.cnt == b.cnt && c.state == b.state && c.requests == b.requests
  {
  }

  lemma {:induction false} SampleLeaves(b: B.Broker, i: nat, item: R.Item)
    requires B.Safe(b) && i <= |b.list|
    ensures var c := B.Sample(b, i, item);
            c.list == b.list && c.cnt == b.cnt && c.state == b.state && c.requests == b.requests
    decreases |b.list| - i
  {
    if i < |b.list| {
      var p := b.list[i];
      assert p in b.list;
      if b.heap[p].file.None? || b.heap[p].file.value.enable !in {0, 1, 2} {
        SampleLeaves(b, i + 1, item);
      } else if b.heap[p].file.value.enable == 1 {
        SampleLeaves(B.SetFile(b, p, R.PushSample(b.heap[p].file.value, item)), i + 1, item);
      } else if b.heap[p].file.value.enable == 2 {
        SampleLeaves(B.SetFile(b, p, R.PushEnd(b.heap[p].file.value)), i + 1, item);
      }
    }
  }

  lemma Unasked(b: B.Broker, c: B.Broker, e: Event)
    requires DeviceInv(b) && !e.OpenRssi? && !e.Disconnect?
    requires c.list == b.list && c.cnt == b.cnt && c.state == b.state && c.requests == b.requests
    ensures Follows(b, c, e)
  {
  }

  lemma ClearLeaves(b: B.Broker)
    requires B.Clearable(b)
    ensures var c := B.Clear(b); c.list == b.list && c.cnt == b.cnt && c.state == b.state && c.requests == b.requests
  {
  }

  lemma FollowsStep(s: Sys, e: Event)
    requires Inv(s) && Allowed(s, e) && DeviceInv(s.broker)
    ensures Follows(s.broker, Step(s, e).broker, e)
  {
    hide Inv;
    hide Allowed;
    hide Step;
    hide Follows;
    hide DeviceInv;
    hide B.Memory;
    hide B.Open;
    hide B.Sample;
    hide B.Clear;
    hide B.ControlSave;
    BrokerOfStep(s, e);
    if e.Disconnect? {
      LeaveStep(s, e);
    } else if e.OpenRssi? {
      OpenFollows(s.broker, e.fd, e.reply);
    } else {
      if e.ControlRssi? {
        ControlLeaves(s.broker, e.fd, e.op, e.fopenOk);
      } else if e.RssiReady? {
        SampleLeaves(s.broker, 0, e.item);
      } else if e.ClearRssi? {
        ClearLeaves(s.broker);
      }
      Unasked(s.broker, Step(s, e).broker, e);
    }
  }

  lemma LeaveStep(s: Sys, e: Event)
    requires Inv(s) && Allowed(s, e) && e.Disconnect? && DeviceInv(s.broker)
    ensures Follows(s.broker, Step(s, e).broker, e)
    ensures |Step(s, e).broker.list| == |s.broker.list| - if FlagsOf(s.server, e.fd).rssi != 0 then 1 else 0
  {
    hide Inv;
    hide Leavable;
    hide LeaveRssi;
    hide Follows;
    ReadyToLeave(s, e.fd, e.reply);
    LeaveFollows(s, e.fd, FlagsOf(s.server, e.fd), e.reply);
  }

  lemma {:induction false} DeviceInvRun(s: Sys, es: seq<Event>)
    requires Inv(s) && Possible(s, es) && DeviceInv(s.broker)
    ensures DeviceInv(Run(s, es).broker)
    decreases |es|
  {
    hide Inv;
    hide Allowed;
    hide Step;
    hide DeviceInv;
    if es != [] {
      StepKeeps(s, es[0]);
      FollowsStep(s, es[0]);
      DeviceInvRun(Step(s, es[0]), es[1..]);
    }
  }

  /** In every reachable state: users imply that RSSI is on, and the state is what the answers said. */
  lemma RssiDevice(t: Sys)
    requires Reachable(t)
    ensures DeviceInv(t.broker)
  {
    hide Inv;
    var open, es :| ReachedBy(t, open, es);
    InitialInv(open);
    DeviceInvRun(Initial(open), es);
  }

  /** Every event asks the device exactly what RequestsOf says. */
  lemma RssiRequests(t: Sys, e: Event)
    requires MayHappen(t, e)
    ensures var u := After(t, e); u.broker.requests == t.broker.requests + RequestsOf(t.broker, u.broker, e)
  {
    hide Reachable;
    hide Inv;
    RssiDevice(t);
    ReachableInv(t);
    FollowsStep(t, e);
  }

  /** A disconnect changes the state only if it takes out the last user, and the state is then 0 exactly when the
      device answered. It takes out one user if the session had RSSI open, and otherwise none. */
  lemma RssiDisconnect(t: Sys, fd: int, reply: B.Reply)
    requires MayHappen(t, Disconnect(fd, reply))
    ensures var b, c := t.broker, After(t, Disconnect(fd, reply)).broker;
            && Live(t.server, fd)
            && |c.list| == |b.list| - (if FlagsOf(t.server, fd).rssi == 0 then 0 else 1)
            && c.state == if b.list != [] && c.list == [] && reply.Answer? then 0 else b.state
  {
    hide Reachable;
    hide Inv;
    RssiDevice(t);
    ReachableInv(t);
    LeaveStep(t, Disconnect(fd, reply));
    var b, c := t.broker, Step(t, Disconnect(fd, reply)).broker;
    hide Step;
    hide Allowed;
    AnsweredSnoc(b.requests, B.Request(false, reply));
    assert b.list != [] && c.list == [] ==> c.requests == b.requests + [B.Request(false, reply)];
  }

  /** Opening RSSI makes the session a user, with its flag set, exactly when there are users, or the state is 1,
      or the device switches on. */
  lemma RssiOpen(t: Sys, fd: int, reply: B.Reply)
    requires MayHappen(t, OpenRssi(fd, reply))
    ensures var u := After(t, OpenRssi(fd, reply));
            && Live(u.server, fd)
            && (FlagsOf(u.server, fd).rssi == 1 <==> t.broker.list != [] || t.broker.state == 1 || reply == B.Answer(true))
            && |u.broker.list| == |t.broker.list| + (if FlagsOf(u.server, fd).rssi == 1 then 1 else 0)
  {
    hide Reachable;
    hide Inv;
    hide B.Open;
    RssiDevice(t);
    ReachableInv(t);
    OpenFollows(t.broker, fd, reply);
    OpenFlag(t, fd, reply);
  }

  lemma OpenFlag(t: Sys, fd: int, reply: B.Reply)
    requires Inv(t) && Allowed(t, OpenRssi(fd, reply))
    ensures var u, r := Step(t, OpenRssi(fd, reply)), B.Open(t.broker, fd, reply);
            u.broker == r.0 && Live(u.server, fd) && FlagsOf(t.server, fd).rssi == 0
            && FlagsOf(u.server, fd).rssi == if r.1 == 0 then 1 else 0
  {
    hide Inv;
    hide B.Open;
    A.StoredFlags(t.server, fd, FlagsOf(t.server, fd).(rssi := 1));
    hide Record;
  }

  /** A user does not mean that the device is on: it has confirmed that exactly when, for a first user, the
      state was 0, and for a further one, it had before. */
  lemma RssiServedIff(t: Sys, fd: int, reply: B.Reply)
    requires MayHappen(t, OpenRssi(fd, reply))
    ensures var u := After(t, OpenRssi(fd, reply));
            |u.broker.list| > |t.broker.list| ==>
              (Confirmed(u.broker.requests) <==>
                 if t.broker.list == [] then t.broker.state == 0 else Confirmed(t.broker.requests))
  {
    hide Reachable;
    hide Inv;
    hide B.Open;
    RssiDevice(t);
    ReachableInv(t);
    FollowsStep(t, OpenRssi(fd, reply));
    OpenFollows(t.broker, fd, reply);
    OpenFlag(t, fd, reply);
  }

  /** The input that shows it: the device refuses, and the client tries again. It becomes a user, and the device
      is not asked. */
  lemma RssiRetryIsNotServed()
    ensures var es := [Accept(1), OpenRssi(1, B.Answer(false)), OpenRssi(1, B.Answer(true))];
            && PossibleFrom(true, es)
            && var t := RunFrom(true, es);
               && t.broker.list == [0] && t.broker.state == 1
               && Live(t.server, 1) && FlagsOf(t.server, 1).rssi == 1
               && t.broker.requests == [B.Request(true, B.Answer(false))]
  {
    var a, b := OpenRssi(1, B.Answer(false)), OpenRssi(1, B.Answer(true));
    hide Inv;
    hide FlagMap;
    NoEvents(true);
    ExtendFrom(true, [], Accept(1));
    var s1 := RunFrom(true, [] + [Accept(1)]);
    assert s1.server.sessions == [Session(1, 1, 0, NO_FLAGS)];
    InvSafe(s1);
    ExtendFrom(true, [] + [Accept(1)], a);
    var s2 := RunFrom(true, [] + [Accept(1)] + [a]);
    InvSafe(s2);
    ExtendFrom(true, [] + [Accept(1)] + [a], b);
    OpenFlag(s2, 1, B.Answer(true));
    assert [] + [Accept(1)] + [a] + [b] == [Accept(1), a, b];
  }

  // ----- a whole run -----

  /** The event asks the device and fails: switching on is answered with an error, or switching off is not
      answered. */
  ghost predicate RequestFails(s: Sys, e: Event) {
    && Inv(s) && Allowed(s, e)
    && Fails(RequestsOf(s.broker, Step(s, e).broker, e))
  }

  ghost predicate OnForUsers(b: B.Broker) {
    b.state == 1 <==> b.list != []
  }

  predicate Fails(rs: seq<B.Request>) {
    rs == [B.Request(true, B.Answer(false))] || rs == [B.Request(false, B.NoReply)]
  }

  lemma OnIff(b: B.Broker, c: B.Broker, e: Event)
    requires DeviceInv(b) && OnForUsers(b) && Follows(b, c, e)
    requires e.OpenRssi? ==> (|c.list| == |b.list| + 1 <==> b.list != [] || b.state == 1 || e.reply == B.Answer(true))
    ensures OnForUsers(c) <==> !Fails(RequestsOf(b, c, e))
  {
    var rs := RequestsOf(b, c, e);
    if rs != [] {
      AnsweredSnoc(b.requests, rs[0]);
      assert rs == [rs[0]];
    } else {
      assert c.requests == b.requests;
    }
  }

  lemma OnStepIff(s: Sys, e: Event)
    requires Inv(s) && Allowed(s, e) && DeviceInv(s.broker) && OnForUsers(s.broker)
    ensures DeviceInv(Step(s, e).broker)
    ensures OnForUsers(Step(s, e).broker) <==> !RequestFails(s, e)
  {
    hide Inv;
    hide B.Open;
    hide OnForUsers;
    hide DeviceInv;
    hide RequestsOf;
    FollowsStep(s, e);
    if e.OpenRssi? {
      OpenFollows(s.broker, e.fd, e.reply);
      OpenFlag(s, e.fd, e.reply);
    }
    OnIff(s.broker, Step(s, e).broker, e);
    hide Step;
    hide Allowed;
  }

  lemma {:induction false} OnWhileAnswered(s: Sys, es: seq<Event>, k: nat)
    requires Inv(s) && Possible(s, es) && k <= |es| && DeviceInv(s.broker) && OnForUsers(s.broker)
    requires forall i :: 0 <= i < k ==> !RequestFails(At(s, es, i), es[i])
    ensures DeviceInv(At(s, es, k).broker) && OnForUsers(At(s, es, k).broker)
    decreases k
  {
    hide Inv;
    hide Allowed;
    hide Step;
    hide DeviceInv;
    hide RequestFails;
    hide OnForUsers;
    if k > 0 {
      OnWhileAnswered(s, es, k - 1);
      AtStep(s, es, k - 1);
      OnStepIff(At(s, es, k - 1), es[k - 1]);
    }
  }

  /** For every run: throughout it RSSI is on exactly while it has users - if and only if no request of the run
      fails. */
  lemma RssiFollowsUsersIff(deviceOpen: bool, es: seq<Event>)
    requires PossibleFrom(deviceOpen, es)
    ensures (forall k :: 0 <= k <= |es| ==> OnForUsers(AtFrom(deviceOpen, es, k).broker)) <==>
              (forall k :: 0 <= k < |es| ==> !RequestFails(AtFrom(deviceOpen, es, k), es[k]))
  {
    hide Inv;
    hide Allowed;
    hide Step;
    hide DeviceInv;
    hide RequestFails;
    hide OnForUsers;
    InitialInv(deviceOpen);
    var s := Initial(deviceOpen);
    InitialOn(deviceOpen);
    if forall k :: 0 <= k <= |es| ==> OnForUsers(AtFrom(deviceOpen, es, k).broker) {
      forall k | 0 <= k < |es| ensures !RequestFails(AtFrom(deviceOpen, es, k), es[k]) {
        AtStep(s, es, k);
        assert OnForUsers(AtFrom(deviceOpen, es, k).broker) && OnForUsers(AtFrom(deviceOpen, es, k + 1).broker);
        DeviceInvAt(s, es, k);
        OnStepIff(At(s, es, k), es[k]);
      }
    }
    if forall k :: 0 <= k < |es| ==> !RequestFails(AtFrom(deviceOpen, es, k), es[k]) {
      forall k | 0 <= k <= |es| ensures OnForUsers(AtFrom(deviceOpen, es, k).broker) {
        forall i | 0 <= i < k ensures !RequestFails(At(s, es, i), es[i]) {
          assert !RequestFails(AtFrom(deviceOpen, es, i), es[i]);
        }
        OnWhileAnswered(s, es, k);
      }
    }
  }

  lemma InitialOn(deviceOpen: bool)
    ensures DeviceInv(Initial(deviceOpen).broker) && OnForUsers(Initial(deviceOpen).broker)
  {
  }

  lemma {:induction false} DeviceInvAt(s: Sys, es: seq<Event>, k: nat)
    requires Inv(s) && Possible(s, es) && k <= |es| && DeviceInv(s.broker)
    ensures DeviceInv(At(s, es, k).broker)
    decreases k
  {
    hide Inv;
    hide Allowed;
    hide Step;
    hide DeviceInv;
    if k > 0 {
      DeviceInvAt(s, es, k - 1);
      AtStep(s, es, k - 1);
      FollowsStep(At(s, es, k - 1), es[k - 1]);
    }
  }
}
