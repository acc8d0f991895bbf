/**
  A thread alone on the server serves its request to the end. With it, a concrete
  run in which the send of a read fails.
 */
module ProtocolAlone {
  import opened Basics
  import opened StoreSpec
  import opened StoreRuns
  import opened Protocol
  import opened ProtocolInv
  import opened ProtocolLocks
  import opened ProtocolRuns
  import opened ProtocolSafety
  import opened ProtocolProgress
  import opened ProtocolBudget
  import opened ProtocolLoss
  import R = RwLock

  /** Every thread but `t` rests. */
  ghost predicate OnlyBusy(g: G, t: Tid) {
    forall u: Tid | u != t :: Idle(Th(g.threads, u))
  }

  // ----------------------------------------------------------------- inside a call

  /** With nobody else about and no reader lost, nothing blocks a lock or unlock call. */
  lemma AloneAdvances(l: R.Lock, t: Tid)
    requires R.Inv(l) && l.lost == 0 && R.InCall(R.At(l, t))
    requires forall u: Tid | u != t :: R.At(l, u) == R.Out
    ensures R.CanAdvance(l, t)
    ensures R.Rank(R.At(R.Do(l, t, R.Advance(R.Choice(l, t))), t)) < R.Rank(R.At(l, t))
  {
    if R.At(l, t).Asleep? || R.At(l, t).Test? {
      NobodyCounted(l, t);
    }
    if !R.CanAdvance(l, t) {
      var u := R.WhoBlocks(l, t);
    }
  }

  lemma NobodyCounted(l: R.Lock, t: Tid)
    requires R.CountsOk(l) && l.lost == 0 && (R.At(l, t).Test? || R.At(l, t).Asleep?)
    requires forall u: Tid | u != t :: R.At(l, u) == R.Out
    ensures !R.Blocked(l, true) && !R.Blocked(l, false)
  {
    forall u: Tid, w ensures u !in R.Counted(l, w) {
      R.MemberOfCounted(l, u, w);
    }
    assert R.Counted(l, true) == {} && R.Counted(l, false) == {};
  }

  lemma AloneInLock(g: G, t: Tid, f: Fid, u: Tid)
    requires Struct(g) && OnlyBusy(g, t) && f in g.locks && u != t
    ensures R.At(g.locks[f], u) == R.Out
  {
    assert Fits(Th(g.threads, u), f, R.At(g.locks[f], u));
  }

  /** The steps left inside the call that `t` is in. */
  function CallRank(g: G, t: Tid): nat {
    var call := Th(g.threads, t).call;
    if call.Some? && call.value in g.locks then R.Rank(R.At(g.locks[call.value], t)) else 0
  }

  /** The step itself. */
  lemma CallGoes(cfg: Config, g: G, t: Tid, f: Fid) returns (c: Choice, g': G)
    requires Th(g.threads, t).call == Some(f) && f in g.locks && OnlyBusy(g, t)
    requires R.CanAdvance(g.locks[f], t)
    requires R.Rank(R.At(R.Do(g.locks[f], t, R.Advance(R.Choice(g.locks[f], t))), t)) < R.Rank(R.At(g.locks[f], t))
    ensures Step(cfg, g, t, c) == Some(g') && !ReadSendFails(g, t, c)
    ensures g'.d == g.d && g'.owner == g.owner && g'.trace == g.trace
    ensures OnlyBusy(g', t) && Th(g'.threads, t).ctl == Th(g.threads, t).ctl
    ensures CallRank(g', t) < CallRank(g, t)
  {
    c := Calm([], R.Choice(g.locks[f], t));
    g' := InnerStep(g, t, c, Th(g.threads, t).ctl, f).value;
    StepShape(cfg, g, t, c, g');
  }

  lemma CallStep(cfg: Config, g: G, t: Tid) returns (c: Choice, g': G)
    requires Struct(g) && NobodyLost(g) && OnlyBusy(g, t) && Th(g.threads, t).call.Some?
    ensures Step(cfg, g, t, c) == Some(g') && !ReadSendFails(g, t, c)
    ensures g'.d == g.d && g'.owner == g.owner && g'.trace == g.trace
    ensures OnlyBusy(g', t) && Th(g'.threads, t).ctl == Th(g.threads, t).ctl
    ensures CallRank(g', t) < CallRank(g, t)
  {
    var f := Th(g.threads, t).call.value;
    CallMeansInCall(g, t, f);
    R.ReachableInv(g.locks[f]);
    forall u: Tid | u != t ensures R.At(g.locks[f], u) == R.Out {
      AloneInLock(g, t, f, u);
    }
    AloneAdvances(g.locks[f], t);
    c, g' := CallGoes(cfg, g, t, f);
  }

  // ------------------------------------------------------------- a critical section

  lemma HandlerStep(cfg: Config, g: G, t: Tid) returns (c: Choice, g': G)
    requires GInv(cfg, g) && g.owner == Some(t) && OnlyBusy(g, t)
    requires Th(g.threads, t).call == None && !Th(g.threads, t).ctl.Leave?
    ensures Step(cfg, g, t, c) == Some(g') && !ReadSendFails(g, t, c) && Spends(g, t, g')
    ensures g'.owner == Some(t) && g'.trace == g.trace && OnlyBusy(g', t)
    ensures Serving(Th(g'.threads, t).ctl) == Serving(Th(g.threads, t).ctl)
  {
    c := OwnerSteps(cfg, g, t);
    g' := Step(cfg, g, t, c).value;
    StepSpends(cfg, g, t, c, g');
    StepShape(cfg, g, t, c, g');
    StepKeepsGInv(cfg, g, t, c, g');
    AtThread(g, t);
    AtThread(g', t);
  }

  lemma Onward(cfg: Config, r: Run, early: Run, t: Tid, c: Choice, g: G) returns (r': Run)
    requires Happens(cfg, r) && Extends(r, early) && Step(cfg, End(r), t, c) == Some(g)
    ensures Happens(cfg, r') && Extends(r', early) && End(r') == g
    ensures ReadSendFailed(r') <==> ReadSendFails(End(r), t, c) || ReadSendFailed(r)
  {
    r' := Moved(r, t, c, g);
  }

  /** A step more of a thread alone in its critical section. */
  lemma SectionStep(cfg: Config, r: Run, early: Run, t: Tid) returns (r': Run)
    requires Happens(cfg, r) && !ReadSendFailed(r) && Extends(r, early)
    requires End(r).owner == Some(t) && OnlyBusy(End(r), t)
    requires Th(End(r).threads, t).call.Some? || !Th(End(r).threads, t).ctl.Leave?
    ensures Happens(cfg, r') && !ReadSendFailed(r') && Extends(r', early)
    ensures End(r').owner == Some(t) && OnlyBusy(End(r'), t) && End(r').trace == End(r).trace
    ensures Serving(Th(End(r').threads, t).ctl) == Serving(Th(End(r).threads, t).ctl)
    ensures var b := Budget(Th(End(r).threads, t).ctl, |End(r).d.table|);
            var b' := Budget(Th(End(r').threads, t).ctl, |End(r').d.table|);
            b' < b || (b' == b && CallRank(End(r'), t) < CallRank(End(r), t))
  {
    var c, g';
    RunKeepsGInv(cfg, r);
    if Th(End(r).threads, t).call.Some? {
      NothingFailedNobodyLost(cfg, r);
      c, g' := CallStep(cfg, End(r), t);
    } else {
      c, g' := HandlerStep(cfg, End(r), t);
    }
    r' := Onward(cfg, r, early, t, c, g');
  }

  /** Alone on the server, a thread that has taken `files_mtx` gets to the point of releasing it. */
  lemma SectionEnds(cfg: Config, r: Run, early: Run, t: Tid) returns (r': Run)
    requires Happens(cfg, r) && !ReadSendFailed(r) && Extends(r, early)
    requires End(r).owner == Some(t) && OnlyBusy(End(r), t)
    ensures Happens(cfg, r') && !ReadSendFailed(r') && Extends(r', early)
    ensures End(r').owner == Some(t) && OnlyBusy(End(r'), t) && End(r').trace == End(r).trace
    ensures Releasing(Th(End(r').threads, t))
    ensures Serving(Th(End(r').threads, t).ctl) == Serving(Th(End(r).threads, t).ctl)
    decreases Budget(Th(End(r).threads, t).ctl, |End(r).d.table|), CallRank(End(r), t)
  {
    r' := r;
    if !Releasing(Th(End(r).threads, t)) {
      r' := SectionStep(cfg, r, early, t);
      r' := SectionEnds(cfg, r', early, t);
    }
  }

  // ------------------------------------------------------------------ a whole request

  /** Every thread rests and `files_mtx` is free. */
  ghost predicate AtRest(g: G) {
    g.owner == None && forall u: Tid :: Idle(Th(g.threads, u))
  }

  lemma StepsIn(cfg: Config, g: G, t: Tid, req: Request) returns (c: Choice, g1: G, g2: G)
    requires AtRest(g) && NeedsFiles(req)
    ensures Step(cfg, g, t, c) == Some(g1) && !ReadSendFails(g, t, c)
    ensures Step(cfg, g1, t, c) == Some(g2) && !ReadSendFails(g1, t, c)
    ensures g2.owner == Some(t) && g2.trace == g.trace && OnlyBusy(g2, t)
    ensures Th(g2.threads, t) == Thread(Lookup(req), None)
  {
    c := Calm([], {}).(req := req);
    g1, g2 := TwoStepsIn(cfg, g, t, c);
    StepShape(cfg, g, t, c, g1);
    StepShape(cfg, g1, t, c, g2);
  }

  lemma Enters(cfg: Config, r: Run, t: Tid, req: Request) returns (r': Run)
    requires Happens(cfg, r) && !ReadSendFailed(r) && NeedsFiles(req) && AtRest(End(r))
    ensures Happens(cfg, r') && !ReadSendFailed(r') && Extends(r', r)
    ensures End(r').owner == Some(t) && End(r').trace == End(r).trace && OnlyBusy(End(r'), t)
    ensures Th(End(r').threads, t) == Thread(Lookup(req), None)
  {
    var c, g1, g2 := StepsIn(cfg, End(r), t, req);
    r' := Onward(cfg, r, r, t, c, g1);
    r' := Onward(cfg, r', r, t, c, g2);
  }

  lemma StepOut(cfg: Config, g: G, t: Tid, c: Choice) returns (g': G)
    requires Releasing(Th(g.threads, t)) && OnlyBusy(g, t)
    ensures Step(cfg, g, t, c) == Some(g') && !ReadSendFails(g, t, c)
    ensures g'.owner == None && g'.d == g.d && OnlyBusy(g', t)
    ensures g'.trace == Then(g.trace, Th(g.threads, t).ctl.e, Abs(g.d))
    ensures var Leave(e, send, doomed) := Th(g.threads, t).ctl; Th(g'.threads, t) == Thread(Send(e, send, doomed), None)
  {
    var Leave(e, send, doomed) := Th(g.threads, t).ctl;
    g' := LeaveStep(g, t, e, send, doomed).value;
    StepShape(cfg, g, t, c, g');
  }

  lemma Released(cfg: Config, r: Run, early: Run, t: Tid) returns (r': Run)
    requires Happens(cfg, r) && !ReadSendFailed(r) && Extends(r, early)
    requires Releasing(Th(End(r).threads, t)) && OnlyBusy(End(r), t)
    ensures Happens(cfg, r') && !ReadSendFailed(r') && Extends(r', early)
    ensures End(r').owner == None && End(r').d == End(r).d && OnlyBusy(End(r'), t)
    ensures End(r').trace == Then(End(r).trace, Th(End(r).threads, t).ctl.e, Abs(End(r).d))
    ensures var Leave(e, send, doomed) := Th(End(r).threads, t).ctl;
            Th(End(r').threads, t) == Thread(Send(e, send, doomed), None)
  {
    var c := Calm([], {});
    var g' := StepOut(cfg, End(r), t, c);
    r' := Onward(cfg, r, early, t, c, g');
  }

  lemma ReachesRelease(cfg: Config, r: Run, t: Tid, req: Request) returns (r': Run)
    requires Happens(cfg, r) && !ReadSendFailed(r) && NeedsFiles(req) && AtRest(End(r))
    ensures Happens(cfg, r') && !ReadSendFailed(r') && Extends(r', r) && OnlyBusy(End(r'), t)
    ensures Releasing(Th(End(r').threads, t)) && Th(End(r').threads, t).ctl.e.req == req
    ensures End(r').trace == End(r).trace
  {
    var r1 := Enters(cfg, r, t, req);
    r' := SectionEnds(cfg, r1, r, t);
    assert Serving(Th(End(r').threads, t).ctl) == Some(req);
  }

  /** Alone on the server, any request gets to its reply, and the reply is lawful. */
  lemma RequestIsServed(cfg: Config, r: Run, t: Tid, req: Request) returns (r': Run)
    requires Happens(cfg, r) && !ReadSendFailed(r) && NeedsFiles(req) && AtRest(End(r))
    ensures Happens(cfg, r') && !ReadSendFailed(r') && Extends(r', r) && OnlyBusy(End(r'), t)
    ensures Th(End(r').threads, t).ctl.Send? && Th(End(r').threads, t).call == None && End(r').owner == None
    ensures Th(End(r').threads, t).ctl.e.req == req
    ensures End(r').trace == Then(End(r).trace, Th(End(r').threads, t).ctl.e, Abs(End(r').d))
            && Lawful(cfg, End(r').trace)
  {
    var r1 := ReachesRelease(cfg, r, t, req);
    r' := Released(cfg, r1, r, t);
    ReleaseIsLawful(cfg, r');
  }

  // ------------------------------------------------------------ a run with a lost reader

  lemma TwoStepsOut(cfg: Config, g: G, t: Tid, c: Choice) returns (g1: G, g2: G)
    requires Th(g.threads, t).ctl.Send? && Th(g.threads, t).call == None && OnlyBusy(g, t) && g.owner == None && c.sent
    requires Th(g.threads, t).ctl.send == [] && Th(g.threads, t).ctl.doomed == []
    ensures Step(cfg, g, t, c) == Some(g1) && !ReadSendFails(g, t, c)
    ensures Step(cfg, g1, t, c) == Some(g2) && !ReadSendFails(g1, t, c)
    ensures AtRest(g2) && g2.trace == g.trace
  {
    var e := Th(g.threads, t).ctl.e;
    g1 := Go(g, t, Finish(e, [], []));
    g2 := Go(g1, t, Resting);
    StepShape(cfg, g, t, c, g1);
    StepShape(cfg, g1, t, c, g2);
  }

  /** With nothing to send and nothing to free the thread goes back to rest. */
  lemma Rests(cfg: Config, r: Run, t: Tid) returns (r': Run)
    requires Happens(cfg, r) && !ReadSendFailed(r) && OnlyBusy(End(r), t) && End(r).owner == None
    requires Th(End(r).threads, t).ctl.Send? && Th(End(r).threads, t).call == None
    requires Th(End(r).threads, t).ctl.e.reply.sent == [] && Th(End(r).threads, t).ctl.e.reply.expelled == []
    ensures Happens(cfg, r') && !ReadSendFailed(r') && AtRest(End(r')) && End(r').trace == End(r).trace
  {
    RunKeepsGInv(cfg, r);
    AtThread(End(r), t);
    var c := Calm([], {});
    var g1, g2 := TwoStepsOut(cfg, End(r), t, c);
    r' := Onward(cfg, r, r, t, c, g1);
    r' := Onward(cfg, r', r, t, c, g2);
  }

  lemma Creates(cfg: Config, s0: State, e: Event, s: State)
    requires Next(cfg, s0, e, s) && e.req.Open? && e.req.create && s0.files.Keys == {}
    ensures e.reply.sent == [] && e.reply.expelled == []
    ensures e.req.path in s.files && e.req.fd in s.files[e.req.path].fdOpen
  {
  }

  lemma CreatedIn(cfg: Config, tr: Trace)
    requires Lawful(cfg, tr) && tr.Then? && tr.event.req.Open? && tr.event.req.create
    requires Last(tr.before).files.Keys == {}
    ensures tr.event.reply.sent == [] && tr.event.reply.expelled == []
    ensures var e := tr.event; e.req.path in Last(tr).files && e.req.fd in Last(tr).files[e.req.path].fdOpen
  {
    Creates(cfg, Last(tr.before), tr.event, tr.state);
  }

  lemma Reads(cfg: Config, s: State, e: Event, s': State)
    requires Next(cfg, s, e, s') && e.req.Read? && e.req.path in s.files && e.req.fd in s.files[e.req.path].fdOpen
    ensures |e.reply.sent| == 1
  {
  }

  /** The failure itself: the send does not succeed and the thread is gone. */
  lemma FailStep(cfg: Config, g: G, t: Tid, c: Choice) returns (g': G)
    requires Struct(g) && ReadSendFails(g, t, c) && OnlyBusy(g, t) && g.owner == None
    ensures Step(cfg, g, t, c) == Some(g') && AtRest(g')
  {
    var Send(e, send, doomed) := Th(g.threads, t).ctl;
    AtThread(g, t);
    HeldAs(g.threads, g.locks, t, send[0]);
    g' := SendStep(g, t, c, e, send, doomed).value;
    StepShape(cfg, g, t, c, g');
  }

  lemma CreationIsServed(cfg: Config, r0: Run, t: Tid, req: Request) returns (r: Run)
    requires req.Open? && req.create && Happens(cfg, r0)
    requires !ReadSendFailed(r0) && AtRest(End(r0)) && Last(End(r0).trace).files.Keys == {}
    ensures Happens(cfg, r) && !ReadSendFailed(r) && OnlyBusy(End(r), t) && End(r).owner == None
    ensures Th(End(r).threads, t).ctl.Send? && Th(End(r).threads, t).call == None
    ensures Th(End(r).threads, t).ctl.e.reply.sent == [] && Th(End(r).threads, t).ctl.e.reply.expelled == []
    ensures req.path in Last(End(r).trace).files && req.fd in Last(End(r).trace).files[req.path].fdOpen
  {
    r := RequestIsServed(cfg, r0, t, req);
    CreatedIn(cfg, End(r).trace);
  }

  lemma FilledRun(cfg: Config, r0: Run, t: Tid, req: Request) returns (r: Run)
    requires req.Open? && req.create && Happens(cfg, r0)
    requires !ReadSendFailed(r0) && AtRest(End(r0)) && Last(End(r0).trace).files.Keys == {}
    ensures Happens(cfg, r) && !ReadSendFailed(r) && AtRest(End(r))
    ensures req.path in Last(End(r).trace).files && req.fd in Last(End(r).trace).files[req.path].fdOpen
  {
    var r1 := CreationIsServed(cfg, r0, t, req);
    r := Rests(cfg, r1, t);
  }

  lemma Fails(cfg: Config, r: Run, t: Tid) returns (r': Run)
    requires Happens(cfg, r) && OnlyBusy(End(r), t) && End(r).owner == None
    requires var th := Th(End(r).threads, t);
             th.ctl.Send? && th.call == None && th.ctl.e.req.Read? && th.ctl.send != []
    ensures Happens(cfg, r') && AtRest(End(r')) && ReadSendFailed(r')
  {
    RunKeepsGInv(cfg, r);
    var c := Calm([], {}).(sent := false);
    var g' := FailStep(cfg, End(r), t, c);
    r' := Onward(cfg, r, r, t, c, g');
  }

  /**
    It does happen: on an empty store a client creates a file, asks to read it, and
    is gone when the contents are sent. The server is at rest, with a reader
    counted for nobody.
   */
  lemma FailedReadFrom(cfg: Config, r0: Run, t: Tid, fd: Fd, path: Path) returns (r: Run)
    requires Happens(cfg, r0) && !ReadSendFailed(r0) && AtRest(End(r0)) && Last(End(r0).trace).files.Keys == {}
    ensures Happens(cfg, r) && AtRest(End(r)) && ReadSendFailed(r) && !NobodyLost(End(r)) && CanWedge(cfg, r)
  {
    r := FilledRun(cfg, r0, t, Open(fd, path, true, false));
    r := ReadIsServed(cfg, r, t, fd, path);
    r := Fails(cfg, r, t);
    LostIffFailed(cfg, r);
    WedgesIffFailed(cfg, r, t);
  }

  /** From the start of the server. */
  lemma FailedReadRun(cfg: Config) returns (r: Run)
    ensures Happens(cfg, r) && AtRest(End(r)) && ReadSendFailed(r) && !NobodyLost(End(r)) && CanWedge(cfg, r)
  {
    r := FailedReadFrom(cfg, Boot, 0, 4, [97]);
  }

  lemma ReadIsServed(cfg: Config, r: Run, t: Tid, fd: Fd, path: Path) returns (r': Run)
    requires Happens(cfg, r) && !ReadSendFailed(r) && AtRest(End(r))
    requires path in Last(End(r).trace).files && fd in Last(End(r).trace).files[path].fdOpen
    ensures Happens(cfg, r') && !ReadSendFailed(r') && OnlyBusy(End(r'), t) && End(r').owner == None
    ensures var th := Th(End(r').threads, t);
            th.ctl.Send? && th.call == None && th.ctl.e.req.Read? && th.ctl.send != []
  {
    r' := RequestIsServed(cfg, r, t, Read(fd, path));
    Reads(cfg, Last(End(r).trace), End(r').trace.event, End(r').trace.state);
    SendingShows(cfg, r', t);
  }
}
