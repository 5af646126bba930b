/** The second phase of the RSSI delete, as a run: thread steps and CLEARs alone get a closed node freed. */
module Drain {
  import opened Sessions
  import opened EventModel
  import opened Runs
  import R = Recorder
  import B = RssiModel

  /** A node whose session has closed and whose recording was started. */
  predicate Waiting(b: B.Broker, p: nat) {
    p in b.heap && p !in b.list && b.heap[p].file.Some? && b.heap[p].file.value.started
  }

  function PlaceInMailbox(s: seq<nat>, p: nat): (k: nat)
    requires p in s
    ensures k < |s| && s[k] == p
  {
    if s[0] == p then 0 else 1 + PlaceInMailbox(s[1..], p)
  }

  /** Only thread steps of the node and CLEARs: nothing that a client does. */
  predicate Draining(es: seq<Event>, p: nat) {
    forall i :: 0 <= i < |es| ==> es[i].ClearRssi? || es[i] == RssiWriter(p)
  }

  lemma WriterStep(s: Sys, p: nat)
    requires Inv(s) && Waiting(s.broker, p) && p !in s.broker.mailbox
    ensures Allowed(s, RssiWriter(p)) && Step(s, RssiWriter(p)) == s.(broker := B.WriterMove(s.broker, p))
    ensures var c := B.WriterMove(s.broker, p);
            && Waiting(c, p) && R.StepsLeft(c.heap[p].file.value) < R.StepsLeft(s.broker.heap[p].file.value)
  {
    B.ClosedNodeProgress(Flagged(s), s.broker, p);
  }

  lemma ClearStep(s: Sys, p: nat)
    requires Inv(s) && Waiting(s.broker, p) && p in s.broker.mailbox
    ensures Allowed(s, ClearRssi)
    ensures var m, c := s.broker.mailbox, Step(s, ClearRssi).broker;
            if m[0] == p then p in c.freed
            else Waiting(c, p) && c.mailbox == m[1..] && p in c.mailbox
  {
    var b := s.broker;
    B.ClearMayRun(Flagged(s), b);
    B.ClearFreesClosed(Flagged(s), b, p);
    B.ClearEffect(b);
    B.MailboxTail(b);
  }

  /** From every state, and whatever was queued before: after finitely many thread steps and CLEARs the node
      is freed, once, and no event of a client is needed. */
  lemma {:induction false} ClosedNodeIsFreed(s: Sys, p: nat) returns (es: seq<Event>)
    requires Inv(s) && Waiting(s.broker, p)
    ensures Draining(es, p) && Possible(s, es)
    ensures multiset(Run(s, es).broker.freed)[p] == 1
    decreases p !in s.broker.mailbox,
              if p in s.broker.mailbox then PlaceInMailbox(s.broker.mailbox, p)
              else R.StepsLeft(s.broker.heap[p].file.value)
  {
    var b := s.broker;
    if p !in b.mailbox {
      WriterStep(s, p);
      StepKeeps(s, RssiWriter(p));
      hide *;
      var more := ClosedNodeIsFreed(Step(s, RssiWriter(p)), p);
      es := Prepend(s, RssiWriter(p), more, p);
    } else {
      ClearStep(s, p);
      StepKeeps(s, ClearRssi);
      var t := Step(s, ClearRssi);
      if b.mailbox[0] == p {
        B.FreedOnce(t.broker.freed, p);
        es := Prepend(s, ClearRssi, [], p);
      } else {
        var more := ClosedNodeIsFreed(t, p);
        es := Prepend(s, ClearRssi, more, p);
      }
    }
  }

  lemma Prepend(s: Sys, e: Event, more: seq<Event>, p: nat) returns (es: seq<Event>)
    requires Inv(s) && Allowed(s, e) && Inv(Step(s, e)) && Possible(Step(s, e), more)
    requires Draining(more, p) && (e.ClearRssi? || e == RssiWriter(p))
    ensures Draining(es, p) && Possible(s, es) && Run(s, es) == Run(Step(s, e), more)
  {
    hide Inv;
    hide Allowed;
    hide Step;
    es := [e] + more;
    assert es[1..] == more;
  }

  // ----- every run -----

  /** From b to c a node off the list is left alone, and nothing that was freed or posted is taken back. */
  predicate Untouched(b: B.Broker, c: B.Broker, p: nat) {
    && p in b.heap && p in c.heap && c.heap[p] == b.heap[p] && p !in c.list
    && b.freed <= c.freed && b.mailbox <= c.mailbox
  }

  lemma DetachLeaves(b: B.Broker, fd: int, reply: B.Reply, p: nat)
    requires B.Memory(b) && B.Opened(b, fd) && p in b.heap && p !in b.list
    ensures Untouched(b, B.Close(b, fd, reply), p)
  {
    hide B.Close;
    hide B.Detach;
    B.CloseEffect(b, fd, reply);
  }

  lemma LeaveLeaves(s: Sys, fd: int, flags: Flags, reply: B.Reply, p: nat)
    requires Leavable(s, fd, flags) && p in s.broker.heap && p !in s.broker.list
    ensures Untouched(s.broker, LeaveRssi(s.broker, fd, flags, reply), p)
  {
    var b, c := s.broker, s.broker;
    if flags.rssiSave != 0 {
      var q := b.list[B.Find(b, fd)];
      assert q in b.list;
      c := B.InformStop(b, fd);
      B.SetFileMemory(b, q, R.PushEnd(b.heap[q].file.value));
    }
    LeaveRssiOpened(b, fd, flags);
    if flags.rssi != 0 {
      DetachLeaves(c, fd, reply, p);
    }
  }

  /** Only the node's own thread and CLEARs get at a node off the list. */
  lemma OthersLeave(s: Sys, e: Event, p: nat)
    requires Inv(s) && Allowed(s, e) && p in s.broker.heap && p !in s.broker.list
    requires e != RssiWriter(p) && !e.ClearRssi?
    ensures Untouched(s.broker, Step(s, e).broker, p)
  {
    hide Inv;
    hide Allowed;
    hide Step;
    hide B.Sample;
    BrokerOfStep(s, e);
    var b := s.broker;
    if e.Disconnect? {
      DisconnectLeaves(s, e, p);
    } else if e.RssiReady? {
      B.SampleLists(b, 0, e.item);
    } else if e.ControlRssi? {
      if B.Opened(b, e.fd) {
        assert b.list[B.Find(b, e.fd)] in b.list;
      }
    }
  }

  lemma DisconnectLeaves(s: Sys, e: Event, p: nat)
    requires Inv(s) && Allowed(s, e) && e.Disconnect? && p in s.broker.heap && p !in s.broker.list
    ensures Untouched(s.broker, Step(s, e).broker, p)
  {
    hide Inv;
    hide Leavable;
    hide LeaveRssi;
    hide Untouched;
    ReadyToLeave(s, e.fd, e.reply);
    LeaveLeaves(s, e.fd, FlagsOf(s.server, e.fd), e.reply, p);
  }

  /** What is freed stays so. */
  lemma FreedForGood(s: Sys, e: Event)
    requires Inv(s) && Allowed(s, e)
    ensures s.broker.freed <= Step(s, e).broker.freed
  {
    hide Inv;
    BrokerOfStep(s, e);
    if e.Disconnect? {
      DisconnectFrees(s, e);
    } else if e.RssiReady? {
      B.SampleLists(s.broker, 0, e.item);
    } else if e.ClearRssi? {
      assert s.broker.freed <= B.Clear(s.broker).freed;
    }
  }

  lemma DisconnectFrees(s: Sys, e: Event)
    requires Inv(s) && Allowed(s, e) && e.Disconnect?
    ensures s.broker.freed <= Step(s, e).broker.freed
  {
    hide Inv;
    hide Leavable;
    hide LeaveRssi;
    ReadyToLeave(s, e.fd, e.reply);
    LeaveFrees(s, e.fd, FlagsOf(s.server, e.fd), e.reply);
  }

  lemma LeaveFrees(s: Sys, fd: int, flags: Flags, reply: B.Reply)
    requires Leavable(s, fd, flags)
    ensures s.broker.freed <= LeaveRssi(s.broker, fd, flags, reply).freed
  {
    hide B.Close;
    var b, c := s.broker, s.broker;
    if flags.rssiSave != 0 {
      var q := b.list[B.Find(b, fd)];
      assert q in b.list;
      c := B.InformStop(b, fd);
      B.SetFileMemory(b, q, R.PushEnd(b.heap[q].file.value));
    }
    LeaveRssiOpened(b, fd, flags);
    if flags.rssi != 0 {
      B.CloseEffect(c, fd, reply);
    }
  }

  /** How many steps of p's thread, and how many CLEARs, a run contains. */
  function WriterSteps(es: seq<Event>, p: nat): nat {
    if es == [] then 0 else (if es[0] == RssiWriter(p) then 1 else 0) + WriterSteps(es[1..], p)
  }

  function Clears(es: seq<Event>): nat {
    if es == [] then 0 else (if es[0].ClearRssi? then 1 else 0) + Clears(es[1..])
  }

  /** Before its CLEAR is posted: a thread step brings it one nearer, nothing else moves it. */
  lemma StepWhileRunning(s: Sys, e: Event, p: nat)
    requires Inv(s) && Allowed(s, e) && Waiting(s.broker, p) && p !in s.broker.mailbox
    ensures var b, c := s.broker, Step(s, e).broker;
            && Waiting(c, p)
            && R.StepsLeft(b.heap[p].file.value) > 0
            && R.StepsLeft(c.heap[p].file.value) == R.StepsLeft(b.heap[p].file.value) - if e == RssiWriter(p) then 1 else 0
  {
    B.ClosedNodeProgress(Flagged(s), s.broker, p);
    if e == RssiWriter(p) {
      WriterStep(s, p);
    } else if e.ClearRssi? {
      InvSafe(s);
      ClearOther(s, p);
    } else {
      OthersLeave(s, e, p);
    }
  }

  lemma ClearOther(s: Sys, p: nat)
    requires Inv(s) && Waiting(s.broker, p) && B.Clearable(s.broker) && s.broker.mailbox[0] != p
    ensures var b, c := s.broker, B.Clear(s.broker);
            && Waiting(c, p) && c.heap[p] == b.heap[p] && c.mailbox == b.mailbox[1..] && (p in c.mailbox <==> p in b.mailbox)
  {
    B.ClearEffect(s.broker);
  }

  /** Once it is posted: a CLEAR brings it one place nearer or frees the node, nothing else moves it. */
  lemma StepWhilePosted(s: Sys, e: Event, p: nat)
    requires Inv(s) && Allowed(s, e) && Waiting(s.broker, p) && p in s.broker.mailbox
    ensures var b, c := s.broker, Step(s, e).broker;
            var k := PlaceInMailbox(b.mailbox, p);
            if e.ClearRssi? && k == 0 then p in c.freed
            else Waiting(c, p) && p in c.mailbox && PlaceInMailbox(c.mailbox, p) == k - if e.ClearRssi? then 1 else 0
  {
    var b := s.broker;
    if e.ClearRssi? {
      ClearStep(s, p);
    } else {
      PostedIsDone(s, p);
      assert e != RssiWriter(p);
      OthersLeave(s, e, p);
      var c := Step(s, e).broker;
      PlaceOfPrefix(b.mailbox, c.mailbox, p);
    }
  }

  lemma PostedIsDone(s: Sys, p: nat)
    requires Inv(s) && Waiting(s.broker, p) && p in s.broker.mailbox
    ensures !B.WriterCanMove(s.broker, p)
  {
  }

  lemma {:induction false} PlaceOfPrefix(m: seq<nat>, n: seq<nat>, p: nat)
    requires m <= n && p in m
    ensures p in n && PlaceInMailbox(n, p) == PlaceInMailbox(m, p)
  {
    assert n[0] == m[0];
    if m[0] != p {
      assert m[1..] <= n[1..];
      PlaceOfPrefix(m[1..], n[1..], p);
    }
  }

  /** After as many steps of its thread as it has left, the CLEAR is posted, or done with. */
  lemma {:induction false} PostedInTheEnd(s: Sys, es: seq<Event>, p: nat)
    requires Inv(s) && Possible(s, es)
    requires || p in s.broker.freed
             || (Waiting(s.broker, p)
                 && (p in s.broker.mailbox || WriterSteps(es, p) >= R.StepsLeft(s.broker.heap[p].file.value)))
    ensures var b := Run(s, es).broker; p in b.freed || (Waiting(b, p) && p in b.mailbox)
    decreases |es|
  {
    hide Inv;
    hide Allowed;
    hide Step;
    hide PlaceInMailbox;
    if p !in s.broker.freed && p !in s.broker.mailbox {
      StillRunning(s, p);
    }
    if es != [] {
      var e := es[0];
      StepKeeps(s, e);
      FreedForGood(s, e);
      if p !in s.broker.freed {
        if p in s.broker.mailbox {
          StepWhilePosted(s, e, p);
        } else {
          StepWhileRunning(s, e, p);
        }
      }
      PostedInTheEnd(Step(s, e), es[1..], p);
    }
  }

  lemma StillRunning(s: Sys, p: nat)
    requires Inv(s) && Waiting(s.broker, p) && p !in s.broker.mailbox
    ensures R.StepsLeft(s.broker.heap[p].file.value) > 0
  {
    B.ClosedNodeProgress(Flagged(s), s.broker, p);
  }

  /** After as many CLEARs as it takes to reach it, the node is freed. */
  lemma {:induction false} ClearedInTheEnd(s: Sys, es: seq<Event>, p: nat)
    requires Inv(s) && Possible(s, es)
    requires || p in s.broker.freed
             || (Waiting(s.broker, p) && p in s.broker.mailbox && Clears(es) > PlaceInMailbox(s.broker.mailbox, p))
    ensures p in Run(s, es).broker.freed
    decreases |es|
  {
    hide Inv;
    hide Allowed;
    hide Step;
    hide PlaceInMailbox;
    if es != [] {
      var e := es[0];
      StepKeeps(s, e);
      FreedForGood(s, e);
      if p !in s.broker.freed {
        StepWhilePosted(s, e, p);
      }
      ClearedInTheEnd(Step(s, e), es[1..], p);
    }
  }

  /** In every run, whatever else happens in it: once a closed node's thread has made the steps it had left,
      and after that as many CLEARs have been handled as are then queued, the node has been freed, once. */
  lemma EveryRunFrees(s: Sys, es: seq<Event>, more: seq<Event>, p: nat)
    requires Inv(s) && Waiting(s.broker, p)
    requires Possible(s, es) && WriterSteps(es, p) >= R.StepsLeft(s.broker.heap[p].file.value)
    requires Possible(Run(s, es), more) && Clears(more) >= |Run(s, es).broker.mailbox|
    ensures multiset(Run(Run(s, es), more).broker.freed)[p] == 1
  {
    hide Run;
    hide Possible;
    PostedInTheEnd(s, es, p);
    ClearedInTheEnd(Run(s, es), more, p);
    B.FreedOnce(Run(Run(s, es), more).broker.freed, p);
  }
}
