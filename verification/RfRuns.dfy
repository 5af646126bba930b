/** RF inquiries over runs: which session a job carries, and where its answer goes. */
module RfRuns {
  import opened Sessions
  import opened EventModel
  import opened Runs
  import A = Answers
  import B = RssiModel

  /** An inquiry adds exactly one job, at the end, for the session in the list that has its connfd. */
  lemma RfInquiryAsks(t: Sys, fd: int)
    requires MayHappen(t, RfInquiry(fd))
    ensures var rf, u := t.rf, After(t, RfInquiry(fd));
            exists i :: && 0 <= i < |t.server.sessions| && t.server.sessions[i].connfd == fd
                        && u == t.(rf := Rf(rf.pending + [Ask(t.server.sessions[i].nodeId, t.server.sessions[i].serial, rf.asked)],
                                            rf.delivered, rf.asked + 1))
  {
    hide Reachable;
    ReachableInv(t);
    hide Inv;
    var i := IndexOfFd(t.server.sessions, fd);
    assert 0 <= i < |t.server.sessions| && t.server.sessions[i].connfd == fd;
  }

  /** An answer takes exactly its job out, and goes to the first session in the list with the job's node id, if
      there is one. */
  lemma RfReadyDelivers(t: Sys, job: nat)
    requires MayHappen(t, RfReady(job))
    ensures var rf, u := t.rf, After(t, RfReady(job));
            job < |rf.pending| &&
            var ss, id := t.server.sessions, rf.pending[job].nodeId;
            && u == t.(rf := u.rf)
            && u.rf.pending == rf.pending[..job] + rf.pending[job + 1..] && u.rf.asked == rf.asked
            && (forall i :: 0 <= i < |ss| && ss[i].nodeId == id && (forall j :: 0 <= j < i ==> ss[j].nodeId != id) ==>
                  u.rf.delivered == rf.delivered + [Delivery(rf.pending[job].serial, ss[i].serial, ss[i].connfd)])
            && ((forall i :: 0 <= i < |ss| ==> ss[i].nodeId != id) ==> u.rf.delivered == rf.delivered)
  {
    hide Reachable;
    ReachableInv(t);
    hide Inv;
    var k := IndexOfId(t.server.sessions, t.rf.pending[job].nodeId);
  }

  lemma OthersLeaveRf(s: Sys, e: Event)
    requires Inv(s) && Allowed(s, e) && !e.RfInquiry? && !e.RfReady?
    ensures Step(s, e).rf == s.rf
  {
    hide Inv;
    if e.OpenwrtConnected? && e.linked && !e.written {
      AcceptKeeps(s, e.fd);
      AdmittedLive(s.server, e.fd);
    }
  }

  // ----- from the inquiry to its answer -----

  /** Jobs pending in u are from t, or were asked for since. */
  ghost predicate JobsFrom(t: Rf, u: Rf) {
    && t.asked <= u.asked
    && forall i :: 0 <= i < |u.pending| ==> u.pending[i] in t.pending || u.pending[i].ticket >= t.asked
  }

  /** Sessions in u are from t, with their connfd and id, or were admitted since. */
  ghost predicate SessionsFrom(t: Server, u: Server) {
    && t.admitted <= u.admitted
    && forall i :: 0 <= i < |u.sessions| ==>
         u.sessions[i].serial >= t.admitted || exists j :: 0 <= j < |t.sessions| && SameSession(u.sessions[i], t.sessions[j])
  }

  predicate SameSession(a: Session, b: Session) {
    a.serial == b.serial && a.connfd == b.connfd && a.nodeId == b.nodeId
  }

  lemma JobsOfStep(s: Sys, e: Event)
    requires Inv(s) && Allowed(s, e)
    ensures JobsFrom(s.rf, Step(s, e).rf)
  {
    hide Inv;
    if !e.RfInquiry? && !e.RfReady? {
      OthersLeaveRf(s, e);
      hide Step;
    }
  }

  lemma SessionsFromStep(s: Sys, e: Event)
    requires Inv(s) && Allowed(s, e)
    ensures SessionsFrom(s.server, Step(s, e).server)
  {
    hide Inv;
    hide Allowed;
    hide Step;
    A.SessionsStep(s, e);
    var v, u := s.server, Step(s, e).server;
    forall i | 0 <= i < |u.sessions| && u.sessions[i].serial < v.admitted
      ensures exists j :: 0 <= j < |v.sessions| && SameSession(u.sessions[i], v.sessions[j])
    {
      if e.Disconnect? {
        var k :| 0 <= k < |v.sessions| && v.sessions[k].connfd == e.fd && u.sessions == v.sessions[..k] + v.sessions[k + 1..];
        assert SameSession(u.sessions[i], v.sessions[if i < k then i else i + 1]);
      } else {
        assert SameSession(u.sessions[i], v.sessions[i]);
      }
    }
  }

  lemma FromOn(a: Sys, b: Sys, c: Sys)
    requires JobsFrom(a.rf, b.rf) && JobsFrom(b.rf, c.rf)
    requires SessionsFrom(a.server, b.server) && SessionsFrom(b.server, c.server)
    ensures JobsFrom(a.rf, c.rf) && SessionsFrom(a.server, c.server)
  {
    forall i | 0 <= i < |c.server.sessions| && c.server.sessions[i].serial < a.server.admitted
      ensures exists j :: 0 <= j < |a.server.sessions| && SameSession(c.server.sessions[i], a.server.sessions[j])
    {
      var k :| 0 <= k < |b.server.sessions| && SameSession(c.server.sessions[i], b.server.sessions[k]);
      var j :| 0 <= j < |a.server.sessions| && SameSession(b.server.sessions[k], a.server.sessions[j]);
      assert SameSession(c.server.sessions[i], a.server.sessions[j]);
    }
  }

  lemma FromSelf(a: Sys)
    ensures JobsFrom(a.rf, a.rf) && SessionsFrom(a.server, a.server)
  {
    forall i | 0 <= i < |a.server.sessions| ensures SameSession(a.server.sessions[i], a.server.sessions[i]) {
    }
  }

  lemma {:induction false} FromRun(s: Sys, es: seq<Event>)
    requires Inv(s) && Possible(s, es)
    ensures JobsFrom(s.rf, Run(s, es).rf) && SessionsFrom(s.server, Run(s, es).server)
    decreases |es|
  {
    hide Inv;
    hide Allowed;
    hide Step;
    hide JobsFrom;
    hide SessionsFrom;
    if es == [] {
      FromSelf(s);
    } else {
      StepKeeps(s, es[0]);
      JobsOfStep(s, es[0]);
      SessionsFromStep(s, es[0]);
      FromRun(Step(s, es[0]), es[1..]);
      FromOn(s, Step(s, es[0]), Run(Step(s, es[0]), es[1..]));
    }
  }

  /** The session at position i asks; whatever happens then; and when the answer to that inquiry arrives the
      session is still there, within one window of 1024 admissions. Then the answer is delivered, once, to that
      session, on the connfd it asked with. */
  lemma RfAnswered(s: Sys, fd: int, i: nat, es: seq<Event>, job: nat, window: nat)
    requires MayHappen(s, RfInquiry(fd))
    requires i < |s.server.sessions| && s.server.sessions[i].connfd == fd
    requires Inv(After(s, RfInquiry(fd))) && Possible(After(s, RfInquiry(fd)), es)
    requires var t := Run(After(s, RfInquiry(fd)), es);
             && job < |t.rf.pending| && t.rf.pending[job].ticket == s.rf.asked
             && (exists k :: 0 <= k < |t.server.sessions| && t.server.sessions[k].serial == s.server.sessions[i].serial)
             && OneWindow(t.server, s.server.sessions[i].serial, window)
    ensures var t, serial := Run(After(s, RfInquiry(fd)), es), s.server.sessions[i].serial;
            Allowed(t, RfReady(job))
            && Step(t, RfReady(job)).rf.delivered == t.rf.delivered + [Delivery(serial, serial, fd)]
  {
    hide Run;
    hide Possible;
    hide Reachable;
    var u := After(s, RfInquiry(fd));
    var t := Run(u, es);
    RfInquiryAsks(s, fd);
    ReachableInv(s);
    FromRun(u, es);
    JobIs(s, u, t, fd, i, job);
    Delivered(s, u, t, fd, i, job, window);
  }

  /** It is the job of that inquiry: it carries that session's id. */
  lemma JobIs(s: Sys, u: Sys, t: Sys, fd: int, i: nat, job: nat)
    requires Inv(s) && i < |s.server.sessions| && s.server.sessions[i].connfd == fd
    requires exists k :: && 0 <= k < |s.server.sessions| && s.server.sessions[k].connfd == fd
                         && u == s.(rf := Rf(s.rf.pending + [Ask(s.server.sessions[k].nodeId, s.server.sessions[k].serial, s.rf.asked)],
                                             s.rf.delivered, s.rf.asked + 1))
    requires JobsFrom(u.rf, t.rf) && job < |t.rf.pending| && t.rf.pending[job].ticket == s.rf.asked
    ensures t.rf.pending[job] == Ask(s.server.sessions[i].nodeId, s.server.sessions[i].serial, s.rf.asked)
    ensures u.server == s.server
    ensures s.server.sessions[i].nodeId == IdOf(s.server.sessions[i].serial) && s.server.sessions[i].serial < s.server.admitted
    ensures forall k :: 0 <= k < |s.server.sessions| && s.server.sessions[k].serial == s.server.sessions[i].serial ==> k == i
  {
    UniqueServer(s);
    hide Inv;
    assert t.rf.pending[job] in u.rf.pending;
  }

  lemma UniqueServer(s: Sys)
    requires Inv(s)
    ensures Unique(s.server.sessions) && InOrder(s.server.sessions) && Numbered(s.server.sessions, s.server.admitted)
    ensures forall j :: 0 <= j < |s.rf.pending| ==> s.rf.pending[j].ticket < s.rf.asked
  {
  }

  lemma Delivered(s: Sys, u: Sys, t: Sys, fd: int, i: nat, job: nat, window: nat)
    requires Inv(t) && u.server == s.server && i < |s.server.sessions| && s.server.sessions[i].connfd == fd
    requires forall k :: 0 <= k < |s.server.sessions| && s.server.sessions[k].serial == s.server.sessions[i].serial ==> k == i
    requires s.server.sessions[i].nodeId == IdOf(s.server.sessions[i].serial) && s.server.sessions[i].serial < s.server.admitted
    requires SessionsFrom(u.server, t.server) && job < |t.rf.pending|
    requires t.rf.pending[job] == Ask(s.server.sessions[i].nodeId, s.server.sessions[i].serial, s.rf.asked)
    requires exists k :: 0 <= k < |t.server.sessions| && t.server.sessions[k].serial == s.server.sessions[i].serial
    requires OneWindow(t.server, s.server.sessions[i].serial, window)
    ensures Allowed(t, RfReady(job))
    ensures Step(t, RfReady(job)).rf.delivered ==
              t.rf.delivered + [Delivery(s.server.sessions[i].serial, s.server.sessions[i].serial, fd)]
  {
    hide Inv;
    hide IdOf;
    hide OneWindow;
    UniqueServer(t);
    var serial, ss := s.server.sessions[i].serial, t.server.sessions;
    var k :| 0 <= k < |ss| && ss[k].serial == serial;
    var j :| 0 <= j < |s.server.sessions| && SameSession(ss[k], s.server.sessions[j]);
    OneWithId(t.server, serial, k, window);
    AnswerTo(t, job, k);
  }

  lemma OneWithId(s: Server, serial: nat, k: nat, window: nat)
    requires InOrder(s.sessions) && Numbered(s.sessions, s.admitted) && OneWindow(s, serial, window)
    requires k < |s.sessions| && s.sessions[k].serial == serial
    ensures IndexOfId(s.sessions, IdOf(serial)) == k
  {
    var i := IndexOfId(s.sessions, IdOf(serial));
    hide IdOf;
    assert s.sessions[k].nodeId == IdOf(serial);
    SameId(s.sessions[i].serial, serial);
  }

  lemma AnswerTo(t: Sys, job: nat, k: nat)
    requires Inv(t) && job < |t.rf.pending| && k < |t.server.sessions|
    requires IndexOfId(t.server.sessions, t.rf.pending[job].nodeId) == k
    ensures Allowed(t, RfReady(job))
    ensures Step(t, RfReady(job)).rf.delivered ==
              t.rf.delivered + [Delivery(t.rf.pending[job].serial, t.server.sessions[k].serial, t.server.sessions[k].connfd)]
  {
    hide Inv;
  }
}
