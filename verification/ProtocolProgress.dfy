/** Deadlock freedom: who can move, when nobody can, and what a lost reader does to the server. */
module ProtocolProgress {
  import opened Basics
  import opened Clock
  import opened StoreSpec
  import opened Eviction
  import opened StoreRuns
  import opened Protocol
  import opened ProtocolInv
  import opened ProtocolLocks
  import opened ProtocolFiles
  import opened ProtocolLoops
  import opened ProtocolEvict
  import opened ProtocolSafety
  import R = RwLock

  /** A choice in which nothing goes wrong. */
  function Calm(order: seq<Fid>, woken: set<Tid>): Choice {
    Choice(ReadN(0), order, Time(0, 0), Time(0, 0), woken, false, true)
  }

  // ------------------------------------------------------------------ the owner

  lemma {:induction false} SomeOrder(s: set<Fid>) returns (order: seq<Fid>)
    ensures (forall f :: f in order <==> f in s) && NoDup(order)
    decreases |s|
  {
    order := [];
    if s != {} {
      var f :| f in s;
      var rest := SomeOrder(s - {f});
      order := [f] + rest;
      forall h ensures h in order <==> h in s {
        assert h in order <==> h == f || h in rest;
      }
    }
  }

  /** Outside a call a thread is out of every lock it does not hold. */
  lemma OutOf(g: G, t: Tid, f: Fid)
    requires Struct(g) && Th(g.threads, t).call == None && f in g.locks
    requires f !in Wr(Th(g.threads, t).ctl) + Rd(Th(g.threads, t).ctl)
    ensures CanBegin(g, t, f, Ask(true)) && CanBegin(g, t, f, Ask(false))
  {
    HeldAs(g.threads, g.locks, t, f);
  }

  lemma CanUnlock(g: G, t: Tid, f: Fid)
    requires Struct(g) && Th(g.threads, t).call == None && f in Wr(Th(g.threads, t).ctl) + Rd(Th(g.threads, t).ctl)
    ensures CanBegin(g, t, f, R.Release)
  {
    AtThread(g, t);
    HeldAs(g.threads, g.locks, t, f);
  }

  /** A finished scan has found a file to expel: eviction never runs dry. */
  lemma ScanNotDry(cfg: Config, d: Data, alive: set<Fid>, s: State, job: Job, best: Option<Fid>)
    requires TableOk(d, alive) && StoreSpec.Inv(cfg, s) && CtlData(cfg, d, s, Scan(job, [], best))
    ensures best.Some?
  {
    var p := SomeVictim(cfg, d, s, job);
    AbsAt(d, alive, p);
  }

  lemma SomeVictim(cfg: Config, d: Data, s: State, job: Job) returns (p: Path)
    requires StoreSpec.Inv(cfg, s) && JobData(cfg, d, s, job) && NeedsMore(cfg, s, job)
    ensures p in Abs(d).files && Abs(d).files[p].canBeExpelled
  {
    if job.req.Open? {
      WithoutNone(s.files);
      p :| p in s.files;
    } else {
      assert FileOk(job.req.path, s.files[job.req.path]);
      p := NeverRunsDry(cfg, s, GrownBy(s, job.req, job.used), |DataOf(job.req)|, job.out);
    }
  }

  lemma LookupSteps(cfg: Config, g: G, t: Tid, req: Request) returns (c: Choice)
    requires Struct(g) && Th(g.threads, t) == Thread(Lookup(req), None)
    ensures c.sent && !c.spurious && LookupStep(cfg, g, t, c, req).Some?
  {
    var order := SomeOrder(g.d.table.Values);
    c := Calm(order, {});
    if !req.ReadN? && !req.Disconnect? && req.path in g.d.table {
      OutOf(g, t, g.d.table[req.path]);
    }
  }

  lemma LockedSteps(cfg: Config, g: G, t: Tid, s: State, req: Request, f: Fid) returns (c: Choice)
    requires Struct(g) && Th(g.threads, t) == Thread(Locked(req, f), None) && CtlData(cfg, g.d, s, Locked(req, f))
    ensures c.sent && !c.spurious && LockedStep(cfg, g, t, c, req, f).Some?
  {
    var order := SomeOrder(g.d.table.Values);
    c := Calm(order, {});
    CanUnlock(g, t, f);
  }

  lemma ScanSteps(cfg: Config, g: G, t: Tid, s: State, job: Job, todo: seq<Fid>, best: Option<Fid>) returns (c: Choice)
    requires Struct(g) && Th(g.threads, t) == Thread(Scan(job, todo, best), None)
    requires StoreSpec.Inv(cfg, s) && CtlData(cfg, g.d, s, Scan(job, todo, best))
    ensures c.sent && !c.spurious && ScanStep(cfg, g, t, c, job, todo, best).Some?
  {
    if todo == [] {
      ScanNotDry(cfg, g.d, g.locks.Keys, s, job, best);
      BestIsVictim(cfg, g.d, g.locks.Keys, best.value);
      var v := g.d.files[best.value];
      var order := SomeOrder((g.d.table - {v.path}).Values);
      c := Calm(order, {});
      ExpelSteps(cfg, g, t, c, s, job, best.value);
    } else {
      c := Calm([], {});
      CollectFound(g.d, g.locks.Keys, todo[0]);
      if g.d.files[todo[0]].canBeExpelled {
        CandidateIsOther(cfg, g.d, s, job, todo[0]);
        OutOf(g, t, todo[0]);
      }
    }
  }

  lemma ExpelSteps(cfg: Config, g: G, t: Tid, c: Choice, s: State, job: Job, b: Fid)
    requires Struct(g) && Th(g.threads, t) == Thread(Scan(job, [], Some(b)), None) && b in g.d.files
    requires IsOrder(AfterUnlink(g.d, g.d.files[b]), c.order) && job.own in g.d.files
    ensures Expel(cfg, g, t, c, job, b).Some?
  {
    CanUnlock(g, t, job.own);
  }

  lemma CompareSteps(cfg: Config, g: G, t: Tid, job: Job, todo: seq<Fid>, best: Option<Fid>, cur: Fid)
    requires Struct(g) && Th(g.threads, t) == Thread(Compare(job, todo, best, cur), None)
    requires cur in g.d.files && (best.Some? ==> best.value in g.d.files)
    ensures CompareStep(cfg, g, t, job, todo, best, cur).Some?
  {
    CanUnlock(g, t, cur);
    if best.Some? {
      CanUnlock(g, t, best.value);
    }
  }

  lemma ComparesFiles(cfg: Config, d: Data, s: State, job: Job, todo: seq<Fid>, best: Option<Fid>, cur: Fid)
    requires CtlData(cfg, d, s, Compare(job, todo, best, cur))
    ensures cur in d.files && (best.Some? ==> best.value in d.files)
  {
  }

  lemma InsertSteps(cfg: Config, g: G, t: Tid, s: State, job: Job)
    requires Struct(g) && Th(g.threads, t) == Thread(Insert(job), None) && CtlData(cfg, g.d, s, Insert(job))
    ensures InsertStep(g, t, job).Some?
  {
    CanUnlock(g, t, job.own);
  }

  lemma SweepSteps(cfg: Config, g: G, t: Tid, s: State, c: Choice, req: Request, todo: seq<Fid>)
    requires Struct(g) && Th(g.threads, t) == Thread(Sweep(req, todo), None) && CtlData(cfg, g.d, s, Sweep(req, todo))
    ensures SweepStep(g, t, c, req, todo).Some?
  {
    if todo != [] {
      CollectAliveAt(g.d, g.locks.Keys, todo[0]);
      OutOf(g, t, todo[0]);
    }
  }

  lemma SweepOneSteps(cfg: Config, g: G, t: Tid, s: State, req: Request, todo: seq<Fid>, cur: Fid)
    requires Struct(g) && Th(g.threads, t) == Thread(SweepOne(req, todo, cur), None)
    requires CtlData(cfg, g.d, s, SweepOne(req, todo, cur))
    ensures SweepOneStep(g, t, req, todo, cur).Some?
  {
    assert cur in [cur] + todo;
    CollectFound(g.d, g.locks.Keys, cur);
    CanUnlock(g, t, cur);
  }

  lemma CollectAliveAt(d: Data, alive: set<Fid>, f: Fid)
    requires TableOk(d, alive) && f in d.table.Values
    ensures f in alive
  {
    var p :| p in d.table && d.table[p] == f;
  }

  lemma CollectSteps(cfg: Config, g: G, t: Tid, s: State, req: Request, left: int, todo: seq<Fid>, taken: seq<Fid>)
      returns (c: Choice)
    requires Struct(g) && Th(g.threads, t) == Thread(Collect(req, left, todo, taken), None)
    requires CtlData(cfg, g.d, s, Collect(req, left, todo, taken))
    ensures c.sent && !c.spurious && CollectStep(g, t, c, req, left, todo, taken).Some?
  {
    c := Calm([], {});
    if left > 0 && todo != [] {
      var all := taken + todo;
      assert all[|taken|] == todo[0];
      CollectAliveAt(g.d, g.locks.Keys, todo[0]);
      NotTaken(taken, todo);
      OutOf(g, t, todo[0]);
    } else {
      forall f | f in taken ensures f in g.d.files {
        assert f in taken + todo;
        CollectFound(g.d, g.locks.Keys, f);
      }
    }
  }

  lemma NotTaken(taken: seq<Fid>, todo: seq<Fid>)
    requires NoDup(taken + todo) && todo != []
    ensures todo[0] !in taken
  {
    var all := taken + todo;
    assert all[|taken|] == todo[0];
    forall i | 0 <= i < |taken| ensures taken[i] != todo[0] {
      assert all[i] == taken[i];
    }
  }

  /** The owner of `files_mtx` is never stuck between lock calls. */
  lemma OwnerSteps(cfg: Config, g: G, t: Tid) returns (c: Choice)
    requires GInv(cfg, g) && g.owner == Some(t) && Th(g.threads, t).call == None
    ensures c.sent && !c.spurious && Step(cfg, g, t, c).Some?
  {
    AtThread(g, t);
    var s, ctl := Last(g.trace), Th(g.threads, t).ctl;
    assert CtlData(cfg, g.d, s, ctl);
    RunKeepsInv(cfg, g.trace);
    match ctl {
      case Lookup(req) => c := LookupSteps(cfg, g, t, req);
      case Locked(req, f) => c := LockedSteps(cfg, g, t, s, req, f);
      case Created(_, _, _, _) =>
        var order := SomeOrder(g.d.table.Values);
        c := Calm(order, {});
      case Scan(job, todo, best) => c := ScanSteps(cfg, g, t, s, job, todo, best);
      case Collect(req, left, todo, taken) => c := CollectSteps(cfg, g, t, s, req, left, todo, taken);
      case Compare(job, todo, best, cur) =>
        c := Calm([], {});
        ComparesFiles(cfg, g.d, s, job, todo, best, cur);
        CompareSteps(cfg, g, t, job, todo, best, cur);
      case Insert(job) =>
        c := Calm([], {});
        InsertSteps(cfg, g, t, s, job);
      case Sweep(req, todo) =>
        c := Calm([], {});
        SweepSteps(cfg, g, t, s, c, req, todo);
      case SweepOne(req, todo, cur) =>
        c := Calm([], {});
        SweepOneSteps(cfg, g, t, s, req, todo, cur);
      case Leave(_, _, _) => c := Calm([], {});
    }
  }

  // ----------------------------------------------------------------- the others

  /** A thread that can run on inside a lock or unlock call. */
  lemma AdvanceSteps(cfg: Config, g: G, v: Tid, h: Fid) returns (c: Choice)
    requires Struct(g) && h in g.locks && R.InCall(R.At(g.locks[h], v)) && R.CanAdvance(g.locks[h], v)
    ensures c.sent && !c.spurious && Step(cfg, g, v, c).Some? && !Idle(Th(g.threads, v))
  {
    assert Fits(Th(g.threads, v), h, R.At(g.locks[h], v));
    c := Calm([], R.Choice(g.locks[h], v));
  }

  /** Whoever is inside a call but not asking for a lock gets on, or its mutex holder does. */
  lemma LeaverSteps(cfg: Config, g: G, v: Tid, h: Fid) returns (w: Tid, c: Choice)
    requires Struct(g) && h in g.locks && R.InCall(R.At(g.locks[h], v)) && !R.Asks(R.At(g.locks[h], v))
    ensures c.sent && !c.spurious && Step(cfg, g, w, c).Some? && !Idle(Th(g.threads, w))
  {
    w := v;
    if !R.CanAdvance(g.locks[h], v) {
      R.ReachableInv(g.locks[h]);
      w := R.WhoBlocks(g.locks[h], v);
    }
    c := AdvanceSteps(cfg, g, w, h);
  }

  lemma CallMeansInCall(g: G, v: Tid, h: Fid)
    requires Struct(g) && Th(g.threads, v).call == Some(h)
    ensures h in g.locks && R.InCall(R.At(g.locks[h], v))
    ensures g.owner != Some(v) ==> !R.Asks(R.At(g.locks[h], v))
  {
    AtThread(g, v);
    assert Fits(Th(g.threads, v), h, R.At(g.locks[h], v));
    if R.Asks(R.At(g.locks[h], v)) {
      OnlyOwnerAcquires(g, v, h);
    }
  }

  /** A busy thread that does not own `files_mtx` gets on, unless it waits for that mutex. */
  lemma OtherSteps(cfg: Config, g: G, v: Tid) returns (w: Tid, c: Choice)
    requires Struct(g) && !Idle(Th(g.threads, v)) && g.owner != Some(v)
    requires Th(g.threads, v).ctl.WantFiles? && Th(g.threads, v).call == None ==> g.owner == None
    ensures c.sent && !c.spurious && Step(cfg, g, w, c).Some? && !Idle(Th(g.threads, w))
  {
    if Th(g.threads, v).call.Some? {
      var h := Th(g.threads, v).call.value;
      CallMeansInCall(g, v, h);
      w, c := LeaverSteps(cfg, g, v, h);
    } else {
      w, c := v, Calm([], {});
      AtThread(g, v);
      FinishSteps(g, v);
    }
  }

  lemma FinishSteps(g: G, v: Tid)
    requires Struct(g) && Th(g.threads, v).call == None
    ensures Th(g.threads, v).ctl.Finish? ==>
              FinishStep(g, v, Th(g.threads, v).ctl.e, Th(g.threads, v).ctl.send, Th(g.threads, v).ctl.doomed).Some?
  {
    var ctl := Th(g.threads, v).ctl;
    AtThread(g, v);
    if ctl.Finish? && ctl.send != [] {
      CanUnlock(g, v, ctl.send[0]);
    } else if ctl.Finish? && ctl.doomed != [] {
      assert ctl.doomed[0] in Wr(ctl);
    }
  }

  // ------------------------------------------------------------ deadlock freedom

  /** The owner of `files_mtx` sleeps as a writer on a file that counts a reader who left. */
  ghost predicate StuckOnLostReader(g: G) {
    && g.owner.Some?
    && var call := Th(g.threads, g.owner.value).call;
       && call.Some? && call.value in g.locks
       && g.locks[call.value].lost > 0
       && R.At(g.locks[call.value], g.owner.value) == R.Asleep(true)
  }

  /** The thread that the sleeping owner waits for gets on. */
  lemma AwaitedSteps(cfg: Config, g: G, o: Tid, f: Fid, v: Tid) returns (w: Tid, c: Choice)
    requires Struct(g) && g.owner == Some(o) && v != o && f in g.locks
    requires exists b :: R.CountsAs(R.At(g.locks[f], v), b)
    ensures c.sent && !c.spurious && Step(cfg, g, w, c).Some? && !Idle(Th(g.threads, w))
  {
    assert Fits(Th(g.threads, v), f, R.At(g.locks[f], v));
    AtThread(g, v);
    w, c := OtherSteps(cfg, g, v);
  }

  /** The owner inside a lock call: it, its blocker, or whom it waits for gets on. */
  lemma OwnerCallSteps(cfg: Config, g: G, o: Tid, f: Fid) returns (w: Tid, c: Choice)
    requires Struct(g) && g.owner == Some(o) && Th(g.threads, o).call == Some(f) && !StuckOnLostReader(g)
    ensures c.sent && !c.spurious && Step(cfg, g, w, c).Some? && !Idle(Th(g.threads, w))
  {
    CallMeansInCall(g, o, f);
    R.ReachableInv(g.locks[f]);
    if R.CanAdvance(g.locks[f], o) {
      w := o;
      c := AdvanceSteps(cfg, g, o, f);
    } else if R.At(g.locks[f], o).Asleep? {
      var v := R.WhoIsAwaited(g.locks[f], o);
      w, c := AwaitedSteps(cfg, g, o, f, v.value);
    } else {
      w := R.WhoBlocks(g.locks[f], o);
      OnlyOneOwner(g, o, w, f);
      c := AdvanceSteps(cfg, g, w, f);
    }
  }

  /** Whoever holds `order_mtx` beside the owner is past asking. */
  lemma OnlyOneOwner(g: G, o: Tid, w: Tid, f: Fid)
    requires Struct(g) && g.owner == Some(o) && w != o && f in g.locks
    ensures !R.Asks(R.At(g.locks[f], w))
    ensures R.HasOrder(R.At(g.locks[f], w)) ==> R.CanAdvance(g.locks[f], w)
  {
    if R.Asks(R.At(g.locks[f], w)) {
      OnlyOwnerAcquires(g, w, f);
    }
  }

  /**
    Deadlock needs a lost reader: as long as a thread is busy some busy thread can
    move on without a spurious wake-up, unless the owner of `files_mtx` sleeps on
    a file whose reader left without unlocking.
   */
  lemma SomebodyMoves(cfg: Config, g: G, u: Tid) returns (w: Tid, c: Choice)
    requires GInv(cfg, g) && !Idle(Th(g.threads, u)) && !StuckOnLostReader(g)
    ensures c.sent && !c.spurious && Step(cfg, g, w, c).Some? && !Idle(Th(g.threads, w))
  {
    if g.owner == None {
      w, c := OtherSteps(cfg, g, u);
    } else {
      var o := g.owner.value;
      if Th(g.threads, o).call == None {
        AtThread(g, o);
        w := o;
        c := OwnerSteps(cfg, g, o);
      } else {
        w, c := OwnerCallSteps(cfg, g, o, Th(g.threads, o).call.value);
      }
    }
  }
}
