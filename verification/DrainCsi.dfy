/** The recordings of CSI are finished and freed in every run, as those of closed RSSI nodes are. */
module DrainCsi {
  import opened Sequences
  import opened Sessions
  import opened EventModel
  import opened Runs
  import opened Recorder
  import V = CsiSaveModel
  import Drain
  import B = RssiModel

  /** A node whose recording was started and has been ended. */
  predicate Ended(v: V.Saver, p: nat) {
    p in v.heap && v.heap[p].file.started && v.heap[p].file.enable == 0
  }

  /** The node is left alone, and nothing that was freed or posted is taken back. */
  predicate Untouched(v: V.Saver, w: V.Saver, p: nat) {
    p in v.heap && p in w.heap && w.heap[p] == v.heap[p] && v.freed <= w.freed && v.mailbox <= w.mailbox
  }

  lemma SaveLeaves(m: map<int, Flags>, v: V.Saver, fd: int, op: int, fopenOk: bool, p: nat)
    requires V.SaverInv(m, v) && V.Safe(v) && Ended(v, p) && (op == 1 ==> V.MayStart(v, fd))
    ensures Untouched(v, V.ControlSave(v, fd, op, fopenOk).0, p)
  {
    V.FindNode(m, v, fd);
    hide Good;
  }

  lemma SampleLeaves(m: map<int, Flags>, v: V.Saver, item: Item, p: nat)
    requires V.SaverInv(m, v) && V.Safe(v) && Ended(v, p)
    ensures Untouched(v, V.Sample(v, 0, item), p)
  {
    assert p in v.list;
    hide V.Sample;
    hide V.SaverInv;
    V.SampleLists(v, 0, item);
    V.SampleReachesIff(m, v, item, V.IndexOf(v.list, p));
  }

  lemma StopLeaves(s: Sys, fd: int, p: nat)
    requires Inv(s) && Live(s.server, fd) && FlagsOf(s.server, fd).csiSave != 0 && Ended(s.saver, p)
    ensures V.Safe(s.saver) && V.Present(s.saver, fd) && s.saver.heap[s.saver.list[V.Find(s.saver, fd)]].file.started
    ensures Untouched(s.saver, V.InformStop(s.saver, fd), p)
  {
    LookUp(s, fd);
    V.StopHasQueue(Flagged(s), s.saver, fd);
    V.FindNode(Flagged(s), s.saver, fd);
  }

  /** Only the recording's own thread and CLEARs get at it. */
  lemma OthersLeave(s: Sys, e: Event, p: nat)
    requires Inv(s) && Allowed(s, e) && Ended(s.saver, p) && e != CsiWriter(p) && !e.ClearCsi?
    ensures Untouched(s.saver, Step(s, e).saver, p)
  {
    hide Step;
    hide Ended;
    InvSafe(s);
    SaverOfStep(s, e);
    if e.Disconnect? && FlagsOf(s.server, e.fd).csiSave != 0 {
      StopLeaves(s, e.fd, p);
    } else if e.SaveCsi? {
      SaveLeaves(Flagged(s), s.saver, e.fd, e.op, e.fopenOk, p);
    } else if e.CsiReady? {
      SampleLeaves(Flagged(s), s.saver, e.item, p);
    } else {
      OtherCase(s.saver, Step(s, e).saver, e, p);
    }
  }

  lemma OtherCase(v: V.Saver, w: V.Saver, e: Event, p: nat)
    requires Ended(v, p)
    requires w == v || (e.CsiWriter? && e.node != p && V.WriterCanMove(v, e.node) && w == V.WriterMove(v, e.node))
    ensures Untouched(v, w, p)
  {
  }

  lemma ControlFrees(v: V.Saver, fd: int, op: int, fopenOk: bool)
    requires V.Safe(v)
    ensures V.ControlSave(v, fd, op, fopenOk).0.freed == v.freed
  {
  }

  /** What is freed stays so. */
  lemma FreedForGood(s: Sys, e: Event)
    requires Inv(s) && Allowed(s, e)
    ensures s.saver.freed <= Step(s, e).saver.freed
  {
    hide Inv;
    hide Allowed;
    hide Step;
    SaverOfStep(s, e);
    if e.SaveCsi? {
      ControlFrees(s.saver, e.fd, e.op, e.fopenOk);
    } else if e.CsiReady? {
      V.SampleLists(s.saver, 0, e.item);
    }
  }

  function WriterSteps(es: seq<Event>, p: nat): nat {
    if es == [] then 0 else (if es[0] == CsiWriter(p) then 1 else 0) + WriterSteps(es[1..], p)
  }

  function Clears(es: seq<Event>): nat {
    if es == [] then 0 else (if es[0].ClearCsi? then 1 else 0) + Clears(es[1..])
  }

  lemma EndedIsGood(s: Sys, p: nat)
    requires Inv(s) && Ended(s.saver, p)
    ensures Good(s.saver.heap[p].file) && (p in s.saver.mailbox <==> s.saver.heap[p].file.phase.Posted?)
    ensures NoDup(s.saver.mailbox)
  {
  }

  lemma StepWhileRunning(s: Sys, e: Event, p: nat)
    requires Inv(s) && Allowed(s, e) && Ended(s.saver, p) && p !in s.saver.mailbox
    ensures var v, w := s.saver, Step(s, e).saver;
            && Ended(w, p)
            && StepsLeft(v.heap[p].file) > 0
            && StepsLeft(w.heap[p].file) == StepsLeft(v.heap[p].file) - if e == CsiWriter(p) then 1 else 0
  {
    hide Inv;
    hide Allowed;
    hide Step;
    EndedIsGood(s, p);
    SaverOfStep(s, e);
    WriterFinishes(s.saver.heap[p].file);
    if e == CsiWriter(p) {
      MoveGood(s.saver.heap[p].file);
    } else if !e.ClearCsi? {
      OthersLeave(s, e, p);
    }
  }

  lemma StepWhilePosted(s: Sys, e: Event, p: nat)
    requires Inv(s) && Allowed(s, e) && Ended(s.saver, p) && p in s.saver.mailbox
    ensures var v, w := s.saver, Step(s, e).saver;
            var k := Drain.PlaceInMailbox(v.mailbox, p);
            if e.ClearCsi? && k == 0 then p in w.freed
            else Ended(w, p) && p in w.mailbox && Drain.PlaceInMailbox(w.mailbox, p) == k - if e.ClearCsi? then 1 else 0
  {
    hide Inv;
    hide Allowed;
    hide Step;
    EndedIsGood(s, p);
    SaverOfStep(s, e);
    if e.ClearCsi? {
      V.MailboxTail(s.saver.mailbox);
    } else {
      OthersLeave(s, e, p);
      Drain.PlaceOfPrefix(s.saver.mailbox, Step(s, e).saver.mailbox, p);
    }
  }

  lemma {:induction false} PostedInTheEnd(s: Sys, es: seq<Event>, p: nat)
    requires Inv(s) && Possible(s, es)
    requires || p in s.saver.freed
             || (Ended(s.saver, p) && (p in s.saver.mailbox || WriterSteps(es, p) >= StepsLeft(s.saver.heap[p].file)))
    ensures var v := Run(s, es).saver; p in v.freed || (Ended(v, p) && p in v.mailbox)
    decreases |es|
  {
    hide Inv;
    hide Allowed;
    hide Step;
    hide Drain.PlaceInMailbox;
    if p !in s.saver.freed && p !in s.saver.mailbox {
      EndedIsGood(s, p);
      WriterFinishes(s.saver.heap[p].file);
    }
    if es != [] {
      var e := es[0];
      StepKeeps(s, e);
      FreedForGood(s, e);
      if p !in s.saver.freed {
        if p in s.saver.mailbox {
          StepWhilePosted(s, e, p);
        } else {
          StepWhileRunning(s, e, p);
        }
      }
      PostedInTheEnd(Step(s, e), es[1..], p);
    }
  }

  lemma {:induction false} ClearedInTheEnd(s: Sys, es: seq<Event>, p: nat)
    requires Inv(s) && Possible(s, es)
    requires || p in s.saver.freed
             || (Ended(s.saver, p) && p in s.saver.mailbox && Clears(es) > Drain.PlaceInMailbox(s.saver.mailbox, p))
    ensures p in Run(s, es).saver.freed
    decreases |es|
  {
    hide Inv;
    hide Allowed;
    hide Step;
    hide Drain.PlaceInMailbox;
    if es != [] {
      var e := es[0];
      StepKeeps(s, e);
      FreedForGood(s, e);
      if p !in s.saver.freed {
        StepWhilePosted(s, e, p);
      }
      ClearedInTheEnd(Step(s, e), es[1..], p);
    }
  }

  lemma NoneFreedTwice(s: Sys)
    requires Inv(s)
    ensures NoDup(s.saver.freed)
  {
  }

  /** In every run, whatever else happens in it: once the thread of an ended CSI recording has made the steps
      it had left, and after that as many CLEARs have been handled as are then queued, its node has been
      freed, once. */
  lemma EveryRunFrees(s: Sys, es: seq<Event>, more: seq<Event>, p: nat)
    requires Inv(s) && Ended(s.saver, p)
    requires Possible(s, es) && WriterSteps(es, p) >= StepsLeft(s.saver.heap[p].file)
    requires Possible(Run(s, es), more) && Clears(more) >= |Run(s, es).saver.mailbox|
    ensures multiset(Run(Run(s, es), more).saver.freed)[p] == 1
  {
    hide Inv;
    hide Run;
    hide Possible;
    PostedInTheEnd(s, es, p);
    ClearedInTheEnd(Run(s, es), more, p);
    var t := Run(Run(s, es), more);
    NoneFreedTwice(t);
    B.FreedOnce(t.saver.freed, p);
  }
}
