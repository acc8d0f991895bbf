/**
  What one failed send of a `read_file` does to the whole server: its client will
  be closed, and closing any client from then on stops the main loop for good.
 */
module Stopped {
  import opened StoreSpec
  import opened StoreRuns
  import opened Protocol
  import opened ProtocolRuns
  import opened ProtocolSafety
  import opened ProtocolLoss
  import opened ProtocolStop
  import opened Together
  import H = Handoff

  /** The handlers' part of a run. */
  function Handlers(j: Joint): Run {
    if j.Opening? then Boot
    else if j.act.Handle? then Moved(Handlers(j.before), j.act.t, j.act.c, j.w.g)
    else Handlers(j.before)
  }

  lemma {:induction false} HandlersHappen(cfg: Config, j: Joint)
    requires Happened(cfg, j)
    ensures Happens(cfg, Handlers(j)) && End(Handlers(j)) == Now(j).g
  {
    if j.Did? {
      HandlersHappen(cfg, j.before);
    }
  }

  predicate Follows(j: Joint, early: Joint) {
    j == early || (j.Did? && Follows(j.before, early))
  }

  /** In the run the send of a `read_file` has failed. */
  predicate ReadFailed(j: Joint) {
    ReadSendFailed(Handlers(j))
  }

  lemma {:induction false} StaysFailed(j: Joint, early: Joint)
    requires Follows(j, early) && ReadFailed(early)
    ensures ReadFailed(j)
  {
    if j != early {
      StaysFailed(j.before, early);
    }
  }

  // ------------------------------------------------------------- the main loop stops

  /** What only the main loop changes. */
  predicate SameMain(s: H.Server, s': H.Server) {
    && s'.conn == s.conn && s'.watched == s.watched && s'.ready == s.ready
    && s'.pushed == s.pushed && s'.closing == s.closing
  }

  lemma ClosingHands(cfg: Config, w: Whole, a: H.Action, w': Whole)
    requires Moves(cfg, w, Hand(a), w') && w.s.closing.Some?
    ensures !H.ByMain(a) && SameMain(w.s, w'.s)
  {
  }

  lemma ClosingHandles(cfg: Config, w: Whole, t: Tid, c: Choice, w': Whole)
    requires Linked(w) && Moves(cfg, w, Handle(t, c), w') && w.s.closing.Some? && !Closes(w.g, t)
    ensures SameMain(w.s, w'.s)
  {
    if Releasing(Th(w.g.threads, t)) {
      assert MayAsk(w.s, t, Th(w.g.threads, t).ctl.e.req);
    }
  }

  lemma ClosingAnswers(cfg: Config, w: Whole, act: Act, w': Whole)
    requires act.Answer? && Moves(cfg, w, act, w')
    ensures SameMain(w.s, w'.s)
  {
  }

  /** A step while a client is being closed and a read has failed: the main loop does not act and the client stays. */
  lemma ClosingStays(cfg: Config, j: Joint)
    requires Happened(cfg, j) && Careful(j) && j.Did? && ReadFailed(j.before) && Now(j.before).s.closing.Some?
    ensures !(j.act.Hand? && H.ByMain(j.act.a)) && SameMain(Now(j.before).s, j.w.s)
  {
    JointKeepsInv(cfg, j.before);
    match j.act {
      case Hand(a) => ClosingHands(cfg, Now(j.before), a, j.w);
      case Handle(t, c) =>
        HandlersHappen(cfg, j.before);
        NoCloseAfterFailure(cfg, Handlers(j.before), t);
        ClosingHandles(cfg, Now(j.before), t, c, j.w);
      case Answer(_, _, _, _) => ClosingAnswers(cfg, Now(j.before), j.act, j.w);
    }
  }

  /**
    The server stops: once the send of a `read_file` has failed and the main thread
    has begun to close a client, any client, it never gets through with it. No
    connection is accepted, no request enters the queue and no result is
    collected any more.
   */
  lemma {:induction false} MainLoopStops(cfg: Config, j: Joint, early: Joint)
    requires Happened(cfg, j) && Careful(j) && Follows(j, early)
    requires ReadFailed(early) && Now(early).s.closing.Some?
    ensures SameMain(Now(early).s, Now(j).s)
    ensures j != early ==> !(j.act.Hand? && H.ByMain(j.act.a))
  {
    if j != early {
      MainLoopStops(cfg, j.before, early);
      StaysFailed(j.before, early);
      ClosingStays(cfg, j);
    }
  }

  // ------------------------------------------------------- and it is on its way there

  /** Who has an answer to send has run its request. */
  ghost predicate RepliesOk(w: Whole) {
    && (forall t: Tid | Th(w.g.threads, t).ctl.Send? :: Answered(w.s, t) || Th(w.g.threads, t).ctl.e.req.Disconnect?)
    && (forall t | t in w.failed :: Answered(w.s, t))
  }

  predicate Answered(s: H.Server, t: Tid) {
    t < |s.workers| && s.workers[t].Busy? && s.workers[t].done.Some?
  }

  /** Nobody but the worker itself, by its report, ends a worker's service. */
  lemma AnsweredStays(cfg: Config, w: Whole, act: Act, w': Whole, t: Tid)
    requires Linked(w) && Moves(cfg, w, act, w') && Answered(w.s, t)
    requires act.Hand? && act.a.Report? ==> act.a.w != t
    ensures Answered(w'.s, t) && w'.s.workers[t].fd == w.s.workers[t].fd
  {
    if act.Handle? && Releasing(Th(w.g.threads, act.t)) {
      assert MayAsk(w.s, act.t, Th(w.g.threads, act.t).ctl.e.req);
    }
  }

  lemma ReleaseAnswers(cfg: Config, w: Whole, t: Tid, c: Choice, w': Whole)
    requires Linked(w) && Moves(cfg, w, Handle(t, c), w') && Releasing(Th(w.g.threads, t))
    ensures Answered(w'.s, t) || Th(w.g.threads, t).ctl.e.req.Disconnect?
    ensures Th(w'.g.threads, t).ctl.Send? && Th(w'.g.threads, t).ctl.e == Th(w.g.threads, t).ctl.e
  {
    StepShape(cfg, w.g, t, c, w'.g);
    assert MayAsk(w.s, t, Th(w.g.threads, t).ctl.e.req);
  }

  lemma SendingAnswered(cfg: Config, w: Whole, act: Act, w': Whole, t: Tid)
    requires Linked(w) && RepliesOk(w) && Moves(cfg, w, act, w') && Th(w'.g.threads, t).ctl.Send?
    ensures Answered(w'.s, t) || Th(w'.g.threads, t).ctl.e.req.Disconnect?
  {
    if act.Handle? {
      StepShape(cfg, w.g, act.t, act.c, w'.g);
      if act.t == t && Releasing(Th(w.g.threads, t)) {
        ReleaseAnswers(cfg, w, t, act.c, w');
      } else if Answered(w.s, t) {
        AnsweredStays(cfg, w, act, w', t);
      }
    } else if Answered(w.s, t) {
      AnsweredStays(cfg, w, act, w', t);
    }
  }

  lemma FailedAnswered(cfg: Config, w: Whole, act: Act, w': Whole, t: Tid)
    requires Linked(w) && RepliesOk(w) && Moves(cfg, w, act, w') && t in w'.failed
    ensures Answered(w'.s, t)
  {
    if t in w.failed {
      AnsweredStays(cfg, w, act, w', t);
    } else if act.Handle? {
      assert Th(w.g.threads, t).ctl.Send?;
      AnsweredStays(cfg, w, act, w', t);
    }
  }

  lemma {:induction false} RepliesAreOk(cfg: Config, j: Joint)
    requires Happened(cfg, j) && Careful(j)
    ensures RepliesOk(Now(j))
  {
    if j.Did? {
      RepliesAreOk(cfg, j.before);
      JointKeepsInv(cfg, j.before);
      forall t: Tid | Th(j.w.g.threads, t).ctl.Send?
        ensures Answered(j.w.s, t) || Th(j.w.g.threads, t).ctl.e.req.Disconnect?
      {
        SendingAnswered(cfg, Now(j.before), j.act, j.w, t);
      }
      forall t | t in j.w.failed ensures Answered(j.w.s, t) {
        FailedAnswered(cfg, Now(j.before), j.act, j.w, t);
      }
    }
  }

  /** A client is about to be closed: its handler failed to answer, its result says so, or the main thread is at it. */
  ghost predicate CloseComing(w: Whole) {
    || w.failed != {}
    || (exists i, k :: 0 <= i < |w.s.pipes| && 0 <= k < |w.s.pipes[i]| && !w.s.pipes[i][k].keep)
    || w.s.closing.Some?
  }

  /** A failed send is reported as an error, which closes the client. */
  lemma ReportCloses(cfg: Config, w: Whole, a: H.Action, w': Whole)
    requires RepliesOk(w) && a.Report? && a.w in w.failed && Moves(cfg, w, Hand(a), w')
    ensures var p := w'.s.pipes[a.w]; p != [] && p[|p|-1] == H.Result(w.s.workers[a.w].fd, false)
  {
  }

  lemma FailuresStay(cfg: Config, w: Whole, act: Act, w': Whole)
    requires RepliesOk(w) && Moves(cfg, w, act, w') && w.failed != {}
    ensures CloseComing(w')
  {
    if act.Hand? && act.a.Report? && act.a.w in w.failed {
      ReportCloses(cfg, w, act.a, w');
    } else {
      var t :| t in w.failed;
      assert t in w'.failed;
    }
  }

  lemma ResultsStay(cfg: Config, w: Whole, act: Act, w': Whole, i: nat, k: nat)
    requires Moves(cfg, w, act, w') && i < |w.s.pipes| && k < |w.s.pipes[i]| && !w.s.pipes[i][k].keep
    ensures CloseComing(w')
  {
    if act.Hand? && act.a.Collect? && act.a.w == i {
      if k > 0 {
        assert w.s.pipes[i][0].keep ==> w'.s.pipes[i][k-1] == w.s.pipes[i][k];
      }
    } else {
      assert w'.s.pipes[i][k] == w.s.pipes[i][k];
    }
  }

  lemma ReadsSucceed(cfg: Config, tr: Trace)
    requires Lawful(cfg, tr) && tr.Then? && tr.event.req.Read? && tr.event.reply.sent != []
    ensures tr.event.reply.code == SA_SUCCESS
  {
  }

  /** What a read sends it sends after a success. */
  lemma SendingSucceeded(cfg: Config, r: Run, t: Tid)
    requires Happens(cfg, r) && Th(End(r).threads, t).ctl.Send?
    requires var Send(e, send, _) := Th(End(r).threads, t).ctl; e.req.Read? && send != []
    ensures Th(End(r).threads, t).ctl.e.reply.code == SA_SUCCESS
  {
    var r0 := SendingSince(cfg, r, t);
    ReleaseIsLawful(cfg, r0);
    SendingShows(cfg, r, t);
    ReadsSucceed(cfg, End(r0).trace);
  }

  /**
    After the failed send of a `read_file` a close is on its way at every moment:
    in a handler that is to report an error, in a pipe, or in the hands of the
    main thread, where it stays (`MainLoopStops`).
   */
  lemma {:induction false} FailureBringsClose(cfg: Config, j: Joint)
    requires Happened(cfg, j) && Careful(j) && ReadFailed(j)
    ensures CloseComing(Now(j))
  {
    var w := Now(j.before);
    JointKeepsInv(cfg, j.before);
    if ReadFailed(j.before) {
      FailureBringsClose(cfg, j.before);
      RepliesAreOk(cfg, j.before);
      if w.failed != {} {
        FailuresStay(cfg, w, j.act, j.w);
      } else if w.s.closing.Some? {
        ClosingStays(cfg, j);
      } else {
        var i, k :| 0 <= i < |w.s.pipes| && 0 <= k < |w.s.pipes[i]| && !w.s.pipes[i][k].keep;
        ResultsStay(cfg, w, j.act, j.w, i, k);
      }
    } else {
      HandlersHappen(cfg, j.before);
      SendingSucceeded(cfg, Handlers(j.before), j.act.t);
      assert j.act.t in j.w.failed;
    }
  }
}
