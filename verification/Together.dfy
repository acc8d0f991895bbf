/**
  The whole server: the hand-over of clients between the main loop and the workers,
  and the interleaved handlers that those threads run. Worker `w` is thread `w` of
  the handlers and the main thread, which closes clients, is the one after them.
 */
module Together {
  import opened Basics
  import opened Clock
  import opened StoreSpec
  import opened StoreRuns
  import opened Protocol
  import opened ProtocolInv
  import opened ProtocolRuns
  import opened ProtocolSafety
  import H = Handoff
  import M = Meaning

  /** `failed` are the workers whose handler could not send its answer. */
  datatype Whole = Whole(s: H.Server, g: G, failed: set<Tid>)

  /**
    A step of the hand-over, a step of the handler that thread `t` runs, or a
    request that thread `t` answers without ever taking `files_mtx`.
   */
  datatype Act = Hand(a: H.Action) | Handle(t: Tid, c: Choice) | Answer(t: Tid, req: Request, now: Time, sent: bool)

  /** The handler sends more than the code that its worker sends: a success, and files if there are any. */
  predicate SendsMore(req: Request, code: int) {
    code == SA_SUCCESS && (req.Read? || req.ReadN? || req.Write? || req.Append?)
  }

  /** The client does not take what the handler sends. */
  predicate SendFails(g: G, t: Tid, c: Choice) {
    var th := Th(g.threads, t);
    th.call == None && th.ctl.Send? && SendsMore(th.ctl.e.req, th.ctl.e.reply.code) && !c.sent
  }

  /** The code that a handler returns: that of its reply, or an error when it could not be sent. */
  predicate Returns(w: Whole, t: Tid, o: H.Outcome)
    requires t < |w.s.workers|
  {
    w.s.workers[t].Busy? && w.s.workers[t].done.Some? ==>
      o.Replied? && o.code == if t in w.failed then SA_ERROR else w.s.workers[t].done.value
  }

  /** The hand-over does not run handlers, and a thread in a handler does nothing else. */
  ghost predicate MayHand(w: Whole, a: H.Action) {
    && !a.Serve? && !a.Forget?
    && (H.ByMain(a) ==> Idle(Th(w.g.threads, |w.s.workers|)))
    && (a.Report? ==> Idle(Th(w.g.threads, a.w)) && a.w < |w.s.workers| && Returns(w, a.w, a.o))
  }

  /** A worker asks once for the client it serves; the main thread makes the files forget the client it closes. */
  predicate MayAsk(s: H.Server, t: Tid, req: Request) {
    if t < |s.workers| then
      && s.workers[t].Busy? && s.workers[t].done == None
      && !req.Disconnect? && (Sender(req) == s.workers[t].fd || req.ReadN?)
    else t == |s.workers| && req.Disconnect? && s.closing == Some(req.fd)
  }

  /** What the release of `files_mtx` is for the hand-over. */
  function Effect(s: H.Server, t: Tid, e: Event, store: State): H.Action {
    if t < |s.workers| then H.Serve(t, e, store) else H.Forget(e, store)
  }

  /** The bookkeeping at that release: the worker has its result code, the main thread is done with the client. */
  function Marked(s: H.Server, t: Tid, e: Event, store: State): H.Server {
    if t < |s.workers| && s.workers[t].Busy? then
      s.(workers := s.workers[t := H.Busy(s.workers[t].fd, Some(e.reply.code))], store := store)
    else s.(closing := None, store := store)
  }

  /**
    What `write_file` and `append_to_file` answer before they take `files_mtx`: a
    body that `readn` misreports, or nothing to append.
   */
  function EarlyEvent(req: Request, now: Time): Event
    requires !NeedsFiles(req)
  {
    var code := if req.data == [] && req.Append? then SA_SUCCESS else BodyCheck(|req.data|);
    Event(req, now, now, Reply(code, [], []))
  }

  ghost predicate Moves(cfg: Config, w: Whole, act: Act, w': Whole) {
    match act
    case Hand(a) =>
      && MayHand(w, a) && H.Enabled(cfg, w.s, a)
      && w' == w.(s := H.Do(cfg, w.s, a), failed := if a.Report? then w.failed - {a.w} else w.failed)
    case Answer(t, req, now, sent) =>
      && t < |w.s.workers| && Idle(Th(w.g.threads, t)) && MayAsk(w.s, t, req) && !NeedsFiles(req)
      && var e := EarlyEvent(req, now);
         w' == w.(s := Marked(w.s, t, e, w.s.store),
                  failed := if SendsMore(req, e.reply.code) && !sent then w.failed + {t} else w.failed)
    case Handle(t, c) =>
      var th := Th(w.g.threads, t);
      && (Idle(th) ==> MayAsk(w.s, t, c.req))
      && Step(cfg, w.g, t, c) == Some(w'.g)
      && w'.s == (if Releasing(th) then Marked(w.s, t, th.ctl.e, Abs(w.g.d)) else w.s)
      && w'.failed == if SendFails(w.g, t, c) then w.failed + {t} else w.failed
  }

  /** Every request in progress was asked for by its client, and the stores agree. */
  ghost predicate Linked(w: Whole) {
    && w.s.store == Last(w.g.trace)
    && forall t: Tid | Pending(Th(w.g.threads, t).ctl) ::
         MayAsk(w.s, t, ProtocolSafety.Serving(Th(w.g.threads, t).ctl).value)
  }

  ghost predicate WholeInv(cfg: Config, w: Whole) {
    H.Inv(cfg, w.s) && GInv(cfg, w.g) && Linked(w)
  }

  // ---------------------------------------------------------------------- steps

  /** A release is a step that the hand-over allows and that has the effect it describes. */
  lemma ReleaseIsServe(cfg: Config, w: Whole, t: Tid, c: Choice, w': Whole)
    requires Linked(w) && GInv(cfg, w'.g) && Moves(cfg, w, Handle(t, c), w') && Releasing(Th(w.g.threads, t))
    ensures var a := Effect(w.s, t, Th(w.g.threads, t).ctl.e, Abs(w.g.d));
            H.Enabled(cfg, w.s, a) && w'.s == H.Do(cfg, w.s, a)
  {
    var e := Th(w.g.threads, t).ctl.e;
    StepShape(cfg, w.g, t, c, w'.g);
    assert MayAsk(w.s, t, e.req);
    assert w'.g.trace == Then(w.g.trace, e, Abs(w.g.d));
    assert Next(cfg, w.s.store, e, Abs(w.g.d));
  }

  /**
    The handlers refine what the hand-over takes for one step: every step of theirs
    either is invisible to it, or is one that it allows.
   */
  lemma HandlersRefineServing(cfg: Config, w: Whole, t: Tid, c: Choice, w': Whole)
    requires GInv(cfg, w.g) && Linked(w) && Moves(cfg, w, Handle(t, c), w')
    ensures GInv(cfg, w'.g)
    ensures if Releasing(Th(w.g.threads, t)) then
              var a := Effect(w.s, t, Th(w.g.threads, t).ctl.e, Abs(w.g.d));
              H.Enabled(cfg, w.s, a) && !H.PopsNothing(w.s, a) && w'.s == H.Do(cfg, w.s, a)
            else w'.s == w.s
  {
    StepKeepsGInv(cfg, w.g, t, c, w'.g);
    if Releasing(Th(w.g.threads, t)) {
      ReleaseIsServe(cfg, w, t, c, w');
    }
  }

  /** A request answered early is a step that the hand-over allows. */
  lemma AnswerIsServe(cfg: Config, w: Whole, t: Tid, req: Request, now: Time, sent: bool, w': Whole)
    requires Moves(cfg, w, Answer(t, req, now, sent), w')
    ensures var a := H.Serve(t, EarlyEvent(req, now), w.s.store);
            H.Enabled(cfg, w.s, a) && w'.s == H.Do(cfg, w.s, a) && w'.g == w.g
  {
  }

  lemma AnswerKeepsLink(cfg: Config, w: Whole, t: Tid, req: Request, now: Time, sent: bool, w': Whole)
    requires Linked(w) && Moves(cfg, w, Answer(t, req, now, sent), w')
    ensures Linked(w')
  {
    forall u: Tid | Pending(Th(w'.g.threads, u).ctl)
      ensures MayAsk(w'.s, u, ProtocolSafety.Serving(Th(w'.g.threads, u).ctl).value)
    {
      assert MayAsk(w.s, u, ProtocolSafety.Serving(Th(w.g.threads, u).ctl).value);
    }
  }

  lemma HandleKeepsLink(cfg: Config, w: Whole, t: Tid, c: Choice, w': Whole)
    requires Linked(w) && Moves(cfg, w, Handle(t, c), w')
    ensures Linked(w')
  {
    var th, th' := Th(w.g.threads, t), Th(w'.g.threads, t);
    StepShape(cfg, w.g, t, c, w'.g);
    forall u: Tid | Pending(Th(w'.g.threads, u).ctl)
      ensures MayAsk(w'.s, u, ProtocolSafety.Serving(Th(w'.g.threads, u).ctl).value)
    {
      if u != t {
        assert MayAsk(w.s, u, ProtocolSafety.Serving(Th(w.g.threads, u).ctl).value);
      } else if !Idle(th) {
        assert Pending(th.ctl);
      }
    }
  }

  /** What the hand-over does to a worker with a request in progress: nothing. */
  lemma HandKeepsAsked(cfg: Config, w: Whole, a: H.Action, t: Tid, req: Request)
    requires MayHand(w, a) && H.Enabled(cfg, w.s, a)
    requires MayAsk(w.s, t, req) && !Idle(Th(w.g.threads, t))
    ensures MayAsk(H.Do(cfg, w.s, a), t, req)
  {
  }

  lemma HandKeepsLink(cfg: Config, w: Whole, a: H.Action, w': Whole)
    requires Linked(w) && Moves(cfg, w, Hand(a), w')
    ensures Linked(w')
  {
    forall t: Tid | Pending(Th(w'.g.threads, t).ctl)
      ensures MayAsk(w'.s, t, ProtocolSafety.Serving(Th(w'.g.threads, t).ctl).value)
    {
      HandKeepsAsked(cfg, w, a, t, ProtocolSafety.Serving(Th(w.g.threads, t).ctl).value);
    }
  }

  /** A step of the whole server keeps all of its invariants, unless it pops from the empty queue. */
  lemma MoveKeepsInv(cfg: Config, w: Whole, act: Act, w': Whole)
    requires WholeInv(cfg, w) && Moves(cfg, w, act, w') && !(act.Hand? && H.PopsNothing(w.s, act.a))
    ensures WholeInv(cfg, w')
  {
    match act {
      case Hand(a) =>
        H.StepKeepsInv(cfg, w.s, a);
        HandKeepsLink(cfg, w, a, w');
      case Handle(t, c) =>
        HandlersRefineServing(cfg, w, t, c, w');
        if Releasing(Th(w.g.threads, t)) {
          H.StepKeepsInv(cfg, w.s, Effect(w.s, t, Th(w.g.threads, t).ctl.e, Abs(w.g.d)));
        }
        HandleKeepsLink(cfg, w, t, c, w');
      case Answer(t, req, now, sent) =>
        AnswerIsServe(cfg, w, t, req, now, sent, w');
        H.StepKeepsInv(cfg, w.s, H.Serve(t, EarlyEvent(req, now), w.s.store));
        AnswerKeepsLink(cfg, w, t, req, now, sent, w');
    }
  }

  // ----------------------------------------------------------------------- runs

  datatype Joint = Opening(n: nat) | Did(before: Joint, act: Act, w: Whole)

  function Now(j: Joint): Whole {
    if j.Opening? then Whole(H.Boot(j.n), BOOT, {}) else j.w
  }

  ghost predicate Happened(cfg: Config, j: Joint) {
    j.Did? ==> Happened(cfg, j.before) && Moves(cfg, Now(j.before), j.act, j.w)
  }

  /** No worker ever popped from the empty queue. */
  predicate Careful(j: Joint) {
    j.Did? ==> Careful(j.before) && !(j.act.Hand? && H.PopsNothing(Now(j.before).s, j.act.a))
  }

  lemma StartInv(cfg: Config, n: nat)
    ensures WholeInv(cfg, Now(Opening(n)))
  {
    H.CarefulRunsAreSound(cfg, H.Begin(n));
    BootInv(cfg);
  }

  lemma {:induction false} JointKeepsInv(cfg: Config, j: Joint)
    requires Happened(cfg, j) && Careful(j)
    ensures WholeInv(cfg, Now(j))
  {
    if j.Opening? {
      StartInv(cfg, j.n);
    } else {
      JointKeepsInv(cfg, j.before);
      MoveKeepsInv(cfg, Now(j.before), j.act, j.w);
    }
  }

  /**
    Whenever `files_mtx` is free, the openers and the lock holder of every stored
    file are clients that are connected or just being closed.
   */
  lemma StoredRightsAreConnected(cfg: Config, j: Joint, p: Path)
    requires Happened(cfg, j) && Careful(j) && Now(j).g.owner == None && p in Abs(Now(j).g.d).files
    ensures var f := Abs(Now(j).g.d).files[p];
            f.fdOpen <= H.Known(Now(j).s) && (f.fdLock == NO_FD || f.fdLock in H.Known(Now(j).s))
  {
    JointKeepsInv(cfg, j);
    assert Abs(Now(j).g.d) == Now(j).s.store;
  }

  /** A client whose request is in a handler and not yet past it is connected, and no other worker is at work for it. */
  lemma OneHandlerPerClient(cfg: Config, j: Joint, t: Tid, u: Tid)
    requires Happened(cfg, j) && Careful(j)
    requires t < |Now(j).s.workers| && Pending(Th(Now(j).g.threads, t).ctl)
    requires u < |Now(j).s.workers| && Pending(Th(Now(j).g.threads, u).ctl) && u != t
    ensures var s := Now(j).s;
            && s.workers[t].Busy? && s.workers[u].Busy? && s.workers[t].fd in s.conn
            && s.workers[t].fd !in s.watched && s.workers[t].fd !in s.queue
            && s.workers[t].fd != s.workers[u].fd
  {
    JointKeepsInv(cfg, j);
    var s := Now(j).s;
    assert MayAsk(s, t, ProtocolSafety.Serving(Th(Now(j).g.threads, t).ctl).value);
    assert MayAsk(s, u, ProtocolSafety.Serving(Th(Now(j).g.threads, u).ctl).value);
    H.ServedIsNowhereElse(s, t, u);
  }

  // ---------------------------------------------------------- what becomes of a client

  /** Requests that are on their way to `files_mtx` or hold it are of those that need it. */
  lemma {:induction false} PendingNeedsFiles(cfg: Config, r: Run, t: Tid)
    requires Happens(cfg, r) && Pending(Th(End(r).threads, t).ctl)
    ensures NeedsFiles(ProtocolSafety.Serving(Th(End(r).threads, t).ctl).value)
  {
    if r.Moved? {
      StepShape(cfg, End(r.before), r.who, r.choice, r.g);
      if r.who == t && Idle(Th(End(r.before).threads, t)) {
        Arrives(cfg, End(r.before), t, r.choice, r.g);
      } else {
        PendingNeedsFiles(cfg, r.before, t);
      }
    }
  }

  lemma Arrives(cfg: Config, g: G, t: Tid, c: Choice, g': G)
    requires Idle(Th(g.threads, t)) && Step(cfg, g, t, c) == Some(g')
    ensures NeedsFiles(c.req) && Th(g'.threads, t).ctl == WantFiles(c.req)
  {
  }

  /** A request served under `files_mtx` is never answered with a code that closes the client. */
  lemma ServedCodeKeeps(cfg: Config, r: Run, t: Tid)
    requires Happens(cfg, r) && Releasing(Th(End(r).threads, t))
    ensures var code := Th(End(r).threads, t).ctl.e.reply.code; code != -1 && code != -2
  {
    var g := End(r);
    PendingNeedsFiles(cfg, r, t);
    RunKeepsGInv(cfg, r);
    assert ThreadOk(Th(g.threads, t), t, g.locks.Keys, g.owner, g.d.table.Values, g.d.files);
    assert CtlData(cfg, g.d, Last(g.trace), Th(g.threads, t).ctl);
    RunKeepsInv(cfg, g.trace);
    M.CodesThatClose(cfg, Last(g.trace), Th(g.threads, t).ctl.e, Abs(g.d));
  }

  /** A success whose files or code the client does not take is remembered, whichever request it answers. */
  lemma FailedSendIsRemembered(cfg: Config, w: Whole, t: Tid, c: Choice, w': Whole)
    requires Moves(cfg, w, Handle(t, c), w') && !c.sent
    requires Th(w.g.threads, t).call == None && Th(w.g.threads, t).ctl.Send?
    requires var e := Th(w.g.threads, t).ctl.e;
             e.reply.code == 0 && !e.req.Open? && !e.req.Close? && !e.req.Remove? && !e.req.Disconnect?
    ensures t in w'.failed
  {
  }

  /** While it closes a client the main thread does nothing else, until its handler is through. */
  lemma MainLoopWaits(cfg: Config, w: Whole, a: H.Action, w': Whole)
    requires Moves(cfg, w, Hand(a), w') && H.ByMain(a)
    ensures w.s.closing == None && Idle(Th(w.g.threads, |w.s.workers|))
  {
  }

  /** At the release the worker has the code of the reply for its client, and nobody else's service changes. */
  lemma ReleaseRecords(cfg: Config, w: Whole, t: Tid, c: Choice, w': Whole)
    requires Linked(w) && GInv(cfg, w'.g) && Moves(cfg, w, Handle(t, c), w') && Releasing(Th(w.g.threads, t))
    requires t < |w.s.workers|
    ensures w.s.workers[t].Busy?
    ensures w'.s.workers == w.s.workers[t := H.Busy(w.s.workers[t].fd, Some(Th(w.g.threads, t).ctl.e.reply.code))]
  {
    ReleaseIsServe(cfg, w, t, c, w');
  }

  /**
    A worker with code `code` for its client reports to keep the client if and only
    if the answer was sent, both by the handler and by the worker, and the code is
    neither -1 nor -2. Refusals such as -11 (no such file) keep it.
   */
  lemma ReportKeepsIff(cfg: Config, w: Whole, t: nat, o: H.Outcome, w': Whole)
    requires Moves(cfg, w, Hand(H.Report(t, o)), w') && w.s.workers[t].done.Some?
    ensures var p, code := w'.s.pipes[t], w.s.workers[t].done.value;
            && |p| == |w.s.pipes[t]| + 1 && p[|p|-1].fd == w.s.workers[t].fd && o.Replied?
            && (p[|p|-1].keep <==> t !in w.failed && o.taken && code != -1 && code != -2)
  {
    H.Reporting(cfg, w.s, t, o);
  }

  lemma OneMove(cfg: Config, j: Joint, a: H.Action) returns (j': Joint)
    requires Happened(cfg, j) && Careful(j) && MayHand(Now(j), a) && H.Enabled(cfg, Now(j).s, a)
    requires !H.PopsNothing(Now(j).s, a)
    ensures Happened(cfg, j') && Careful(j') && Now(j').s == H.Do(cfg, Now(j).s, a) && Now(j').g == Now(j).g
  {
    var w := Now(j);
    j' := Did(j, Hand(a), w.(s := H.Do(cfg, w.s, a), failed := if a.Report? then w.failed - {a.w} else w.failed));
  }

  /**
    With its handler through, its answer sent and any code but -1 and -2, refusals
    included, the worker can report and the main loop collect, and the client is
    connected and listened to again.
   */
  lemma AnsweredIsWatchedAgain(cfg: Config, j: Joint, t: nat) returns (j': Joint)
    requires Happened(cfg, j) && Careful(j)
    requires var w := Now(j);
             && t < |w.s.workers| && w.s.workers[t].Busy? && w.s.workers[t].done.Some? && t !in w.failed
             && Idle(Th(w.g.threads, t)) && Idle(Th(w.g.threads, |w.s.workers|))
             && |w.s.pipes| == |w.s.workers| && w.s.pipes[t] == [] && w.s.closing == None
             && w.s.workers[t].done.value != -1 && w.s.workers[t].done.value != -2
    ensures Happened(cfg, j') && Careful(j')
    ensures var fd := Now(j).s.workers[t].fd; fd in Now(j').s.watched && fd in Now(j').s.conn
    ensures t < |Now(j').s.workers| && Now(j').s.workers[t] == H.AtQueue && Now(j').s.store == Now(j).s.store
  {
    JointKeepsInv(cfg, j);
    var code := Now(j).s.workers[t].done.value;
    var o := H.Replied(code, true);
    H.Reporting(cfg, Now(j).s, t, o);
    var j1 := OneMove(cfg, j, H.Report(t, o));
    JointKeepsInv(cfg, j1);
    H.Collecting(cfg, Now(j1).s, t);
    j' := OneMove(cfg, j1, H.Collect(t));
  }
}
