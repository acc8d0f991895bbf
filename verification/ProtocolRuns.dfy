/** Whole runs of the interleaved handlers: what every reachable state of the server satisfies. */
module ProtocolRuns {
  import opened Basics
  import opened StoreSpec
  import opened StoreRuns
  import opened Protocol
  import opened ProtocolInv
  import opened ProtocolFrame
  import opened ProtocolFiles
  import opened ProtocolLoops
  import opened ProtocolEvict
  import opened ProtocolSettle

  /** Every step of every thread keeps the invariant. */
  lemma StepKeepsGInv(cfg: Config, g: G, t: Tid, c: Choice, g': G)
    requires GInv(cfg, g) && Step(cfg, g, t, c) == Some(g')
    ensures GInv(cfg, g')
  {
    var th := Th(g.threads, t);
    if th.call.Some? {
      InnerKeeps(cfg, g, t, c, g');
    } else {
      match th.ctl {
        case Resting => ArriveKeeps(cfg, g, t, c.req);
        case WantFiles(req) => EnterKeeps(cfg, g, t, req);
        case Lookup(req) => LookupKeeps(cfg, g, t, c, req, g');
        case Locked(req, f) => LockedKeeps(cfg, g, t, c, req, f, g');
        case Created(req, f, created, used) => CreatedKeeps(cfg, g, t, c, req, f, created, used, g');
        case Scan(job, todo, best) => ScanKeeps(cfg, g, t, c, job, todo, best, g');
        case Compare(job, todo, best, cur) => CompareKeeps(cfg, g, t, job, todo, best, cur, g');
        case Insert(job) => InsertKeeps(cfg, g, t, job, g');
        case Collect(req, left, todo, taken) => CollectKeeps(cfg, g, t, c, req, left, todo, taken, g');
        case Sweep(req, todo) => SweepKeeps(cfg, g, t, c, req, todo, g');
        case SweepOne(req, todo, cur) => SweepOneKeeps(cfg, g, t, req, todo, cur, g');
        case Leave(e, send, doomed) => LeaveKeeps(cfg, g, t, e, send, doomed, g');
        case Send(e, send, doomed) => SendKeeps(cfg, g, t, c, e, send, doomed, g');
        case Finish(e, send, doomed) => FinishKeeps(cfg, g, t, e, send, doomed, g');
      }
    }
  }

  lemma ScanKeeps(cfg: Config, g: G, t: Tid, c: Choice, job: Job, todo: seq<Fid>, best: Option<Fid>, g': G)
    requires GInv(cfg, g) && Th(g.threads, t) == Thread(Scan(job, todo, best), None)
    requires ScanStep(cfg, g, t, c, job, todo, best) == Some(g')
    ensures GInv(cfg, g')
  {
    if todo == [] {
      ExpelKeeps(cfg, g, t, c, job, best.value, g');
    } else {
      LooksKeeps(cfg, g, t, c, job, todo, best, g');
    }
  }

  // ------------------------------------------------------------------------ runs

  /** A run of the server: who moved, what the environment chose, the state that resulted. */
  datatype Run = Boot | Moved(before: Run, who: Tid, choice: Choice, g: G)

  function End(r: Run): G {
    if r.Boot? then BOOT else r.g
  }

  ghost predicate Happens(cfg: Config, r: Run) {
    r.Moved? ==> Happens(cfg, r.before) && Step(cfg, End(r.before), r.who, r.choice) == Some(r.g)
  }

  /** `early` is an earlier stage (or all) of `r`. */
  predicate Extends(r: Run, early: Run) {
    r == early || (r.Moved? && Extends(r.before, early))
  }

  lemma {:induction false} RunKeepsGInv(cfg: Config, r: Run)
    requires Happens(cfg, r)
    ensures GInv(cfg, End(r))
  {
    if r.Boot? {
      BootInv(cfg);
    } else {
      RunKeepsGInv(cfg, r.before);
      StepKeepsGInv(cfg, End(r.before), r.who, r.choice, r.g);
    }
  }

  /**
    Linearizability: in the order in which they release `files_mtx`, the critical
    sections of any interleaving are a lawful sequential history, and whenever
    the mutex is free the shared data is the state that history ends in.
   */
  lemma Linearizable(cfg: Config, r: Run)
    requires Happens(cfg, r)
    ensures Lawful(cfg, End(r).trace)
    ensures End(r).owner == None ==> Abs(End(r).d) == Last(End(r).trace)
  {
    RunKeepsGInv(cfg, r);
  }

  /** Capacity in all interleavings: limits and separately kept counters, whenever `files_mtx` is free. */
  lemma CapacityIsSafe(cfg: Config, r: Run)
    requires Happens(cfg, r) && End(r).owner == None
    ensures var s := Abs(End(r).d);
            && s.counters.files == |End(r).d.table|
            && s.counters.space == TotalSize(s.files) <= cfg.maxSpace
            && (cfg.maxFiles >= 1 ==> |End(r).d.table| <= cfg.maxFiles)
  {
    RunKeepsGInv(cfg, r);
    SpaceIsSafe(cfg, End(r).trace);
    if cfg.maxFiles >= 1 {
      CountIsSafe(cfg, End(r).trace);
    }
    TableSize(End(r));
  }

  lemma TableSize(g: G)
    requires Struct(g)
    ensures |Abs(g.d).files| == |g.d.table|
  {
    assert Abs(g.d).files.Keys == g.d.table.Keys;
  }
}
