/**
  Critical sections end: between taking and releasing `files_mtx` a thread makes a
  number of handler steps that is bounded by the number of stored files, however
  many of them an eviction has to visit and whatever their sizes.
 */
module ProtocolBudget {
  import opened Basics
  import opened Clock
  import opened StoreSpec
  import opened StoreRuns
  import opened Protocol
  import opened ProtocolInv
  import opened ProtocolLocks
  import opened ProtocolFiles
  import opened ProtocolEvict
  import opened ProtocolSettle
  import opened ProtocolRuns
  import opened ProtocolSafety

  /** For all the scans that can follow one that ends with `n` files stored. */
  function Scans(n: nat): nat {
    n * (n + 1)
  }

  /** How many handler steps are left at most, with `n` files stored. */
  function Budget(ctl: Control, n: nat): nat {
    match ctl
    case Lookup(_) => Scans(n) + 2 * n + 4
    case Locked(_, _) => Scans(n) + 2 * n + 3
    case Created(_, _, _, _) => Scans(n) + 2 * n + 3
    case Scan(_, todo, _) => Scans(n) + 2 * |todo| + 2
    case Compare(_, todo, _, _) => Scans(n) + 2 * |todo| + 3
    case Insert(_) => 1
    case Collect(_, _, todo, _) => |todo| + 1
    case Sweep(_, todo) => 2 * |todo| + 1
    case SweepOne(_, todo, _) => 2 * |todo| + 2
    case _ => 0
  }

  /** One file less pays for one scan more. */
  lemma OneScanLess(n: nat)
    requires n >= 1
    ensures Scans(n) == Scans(n - 1) + 2 * n
  {
  }

  /** The step stays inside the critical section and costs at least one. */
  ghost predicate Spends(g: G, t: Tid, g': G) {
    && Critical(Th(g'.threads, t).ctl)
    && Budget(Th(g'.threads, t).ctl, |g'.d.table|) < Budget(Th(g.threads, t).ctl, |g.d.table|)
  }

  lemma LookupSpends(cfg: Config, g: G, t: Tid, c: Choice, req: Request, g': G)
    requires TableOk(g.d, g.locks.Keys) && Th(g.threads, t) == Thread(Lookup(req), None)
    requires LookupStep(cfg, g, t, c, req) == Some(g')
    ensures Spends(g, t, g')
  {
    if req.ReadN? || req.Disconnect? {
      OrderCounts(g.d, g.locks.Keys, c.order);
    }
  }

  lemma GrowSpends(cfg: Config, g: G, t: Tid, c: Choice, req: Request, f: Fid, grown: File, added: nat, g': G)
    requires TableOk(g.d, g.locks.Keys) && Th(g.threads, t) == Thread(Locked(req, f), None)
    requires GrowStep(cfg, g, t, c, req, f, grown, added) == Some(g')
    ensures Spends(g, t, g')
  {
    GrowGoes(cfg, g, t, c, req, f, grown, added, g');
    if Th(g'.threads, t).ctl.Scan? {
      OrderCounts(g.d, g.locks.Keys, c.order);
    }
  }

  lemma OpenSpends(cfg: Config, g: G, t: Tid, c: Choice, req: Request, f: Fid, g': G)
    requires Th(g.threads, t) == Thread(Locked(req, f), None) && (req.Open? || req.Close?)
    requires LockedStep(cfg, g, t, c, req, f) == Some(g')
    ensures Spends(g, t, g')
  {
  }

  lemma PlainSpends(cfg: Config, g: G, t: Tid, c: Choice, req: Request, f: Fid, g': G)
    requires Th(g.threads, t) == Thread(Locked(req, f), None) && !req.Write? && !req.Append?
    requires LockedStep(cfg, g, t, c, req, f) == Some(g')
    ensures Spends(g, t, g')
  {
    if req.Open? || req.Close? {
      OpenSpends(cfg, g, t, c, req, f, g');
    }
  }

  /** A write or append is refused, or grows the file. */
  lemma RefusesOrGrows(cfg: Config, g: G, t: Tid, c: Choice, req: Request, f: Fid, g': G)
    requires Th(g.threads, t) == Thread(Locked(req, f), None) && (req.Write? || req.Append?)
    requires LockedStep(cfg, g, t, c, req, f) == Some(g') && f in g.d.files
    ensures var file := g.d.files[f];
            var grown := if req.Write? then Written(file, req.data, c.t1) else Extended(file, req.data, c.t1);
            Spends(g, t, g') || GrowStep(cfg, g, t, c, req, f, grown, |req.data|) == Some(g')
  {
  }

  lemma LockedSpends(cfg: Config, g: G, t: Tid, c: Choice, req: Request, f: Fid, g': G)
    requires TableOk(g.d, g.locks.Keys) && Th(g.threads, t) == Thread(Locked(req, f), None)
    requires LockedStep(cfg, g, t, c, req, f) == Some(g')
    ensures Spends(g, t, g')
  {
    if req.Write? || req.Append? {
      var file := g.d.files[f];
      var grown := if req.Write? then Written(file, req.data, c.t1) else Extended(file, req.data, c.t1);
      RefusesOrGrows(cfg, g, t, c, req, f, g');
      if GrowStep(cfg, g, t, c, req, f, grown, |req.data|) == Some(g') {
        GrowSpends(cfg, g, t, c, req, f, grown, |req.data|, g');
      }
    } else {
      PlainSpends(cfg, g, t, c, req, f, g');
    }
  }

  /** However little the victim frees, the next round has one file less to look at. */
  lemma ExpelSpends(cfg: Config, g: G, t: Tid, c: Choice, job: Job, b: Fid, g': G)
    requires TableOk(g.d, g.locks.Keys) && Th(g.threads, t) == Thread(Scan(job, [], Some(b)), None)
    requires b in g.d.files && g.d.files[b].path in g.d.table && Expel(cfg, g, t, c, job, b) == Some(g')
    ensures Spends(g, t, g')
  {
    var v := g.d.files[b];
    var d1 := AfterUnlink(g.d, v);
    assert d1.table.Keys == g.d.table.Keys - {v.path};
    OneScanLess(|g.d.table|);
    ExpelGoes(cfg, g, t, c, job, b, g');
    if Th(g'.threads, t).ctl.Scan? {
      OrderCounts(d1, g.locks.Keys, c.order);
    }
  }

  lemma LooksSpends(cfg: Config, g: G, t: Tid, c: Choice, job: Job, todo: seq<Fid>, best: Option<Fid>, g': G)
    requires Th(g.threads, t) == Thread(Scan(job, todo, best), None) && todo != []
    requires ScanStep(cfg, g, t, c, job, todo, best) == Some(g')
    ensures Spends(g, t, g')
  {
  }

  lemma CreatedSpends(cfg: Config, g: G, t: Tid, c: Choice, req: Request, f: Fid, created: Time, used: Time, g': G)
    requires TableOk(g.d, g.locks.Keys) && Th(g.threads, t) == Thread(Created(req, f, created, used), None)
    requires CreatedStep(cfg, g, t, c, req, f, created, used) == Some(g')
    ensures Spends(g, t, g')
  {
    if Th(g'.threads, t).ctl.Scan? {
      OrderCounts(g.d, g.locks.Keys, c.order);
    }
  }

  lemma CompareSpends(cfg: Config, g: G, t: Tid, job: Job, todo: seq<Fid>, best: Option<Fid>, cur: Fid, g': G)
    requires Th(g.threads, t) == Thread(Compare(job, todo, best, cur), None)
    requires CompareStep(cfg, g, t, job, todo, best, cur) == Some(g')
    ensures Spends(g, t, g')
  {
  }

  lemma CollectSpends(g: G, t: Tid, c: Choice, req: Request, left: int, todo: seq<Fid>, taken: seq<Fid>, g': G)
    requires Th(g.threads, t) == Thread(Collect(req, left, todo, taken), None)
    requires CollectStep(g, t, c, req, left, todo, taken) == Some(g')
    ensures Spends(g, t, g')
  {
  }

  lemma VisitSpends(cfg: Config, g: G, t: Tid, c: Choice, g': G)
    requires Th(g.threads, t).call == None && Step(cfg, g, t, c) == Some(g')
    requires var ctl := Th(g.threads, t).ctl; ctl.Insert? || ctl.Sweep? || ctl.SweepOne?
    ensures Spends(g, t, g')
  {
  }

  /** Every handler step of the owner, up to the release, spends from its budget. */
  lemma StepSpends(cfg: Config, g: G, t: Tid, c: Choice, g': G)
    requires GInv(cfg, g) && g.owner == Some(t) && Step(cfg, g, t, c) == Some(g')
    requires Th(g.threads, t).call == None && !Th(g.threads, t).ctl.Leave?
    ensures Spends(g, t, g')
  {
    AtThread(g, t);
    var ctl := Th(g.threads, t).ctl;
    assert CtlData(cfg, g.d, Last(g.trace), ctl);
    match ctl {
      case Lookup(req) => LookupSpends(cfg, g, t, c, req, g');
      case Locked(req, f) => LockedSpends(cfg, g, t, c, req, f, g');
      case Created(req, f, created, used) => CreatedSpends(cfg, g, t, c, req, f, created, used, g');
      case Scan(job, todo, best) =>
        if todo == [] {
          BestIsVictim(cfg, g.d, g.locks.Keys, best.value);
          ExpelSpends(cfg, g, t, c, job, best.value, g');
        } else {
          LooksSpends(cfg, g, t, c, job, todo, best, g');
        }
      case Compare(job, todo, best, cur) => CompareSpends(cfg, g, t, job, todo, best, cur, g');
      case Collect(req, left, todo, taken) => CollectSpends(g, t, c, req, left, todo, taken, g');
      case _ => VisitSpends(cfg, g, t, c, g');
    }
  }

  /** Steps inside lock calls and outside critical sections leave the data alone. */
  lemma OutsideData(cfg: Config, g: G, u: Tid, c: Choice, g': G)
    requires Step(cfg, g, u, c) == Some(g')
    requires Critical(Th(g.threads, u).ctl) ==> Th(g.threads, u).call.Some?
    ensures g'.d == g.d
    ensures Th(g.threads, u).call.Some? ==> Th(g'.threads, u).ctl == Th(g.threads, u).ctl
  {
  }

  /** A handler step: not one inside a lock or unlock call. */
  predicate Handles(g: G, u: Tid, t: Tid) {
    u == t && Th(g.threads, t).call == None
  }

  lemma AnyStepSpends(cfg: Config, g: G, t: Tid, u: Tid, c: Choice, g': G)
    requires GInv(cfg, g) && g.owner == Some(t) && Step(cfg, g, u, c) == Some(g')
    requires Handles(g, u, t) ==> !Th(g.threads, t).ctl.Leave?
    ensures Budget(Th(g'.threads, t).ctl, |g'.d.table|) + Bit(Handles(g, u, t)) <=
            Budget(Th(g.threads, t).ctl, |g.d.table|)
  {
    if Handles(g, u, t) {
      StepSpends(cfg, g, t, c, g');
    } else {
      AtThread(g, u);
      OutsideData(cfg, g, u, c, g');
      StepShape(cfg, g, u, c, g');
    }
  }

  /** `t` owns `files_mtx` in every state from `early` on. */
  predicate OwnsSince(r: Run, early: Run, t: Tid) {
    End(r).owner == Some(t) && (r == early || (r.Moved? && OwnsSince(r.before, early, t)))
  }

  /** How many handler steps `t` has made since `early`. */
  function HandlerSteps(r: Run, early: Run, t: Tid): int {
    if r == early || r.Boot? then 0
    else HandlerSteps(r.before, early, t) + Bit(Handles(End(r.before), r.who, t))
  }

  lemma LeaveReleases(cfg: Config, g: G, t: Tid, c: Choice, g': G)
    requires Th(g.threads, t).call == None && Th(g.threads, t).ctl.Leave? && Step(cfg, g, t, c) == Some(g')
    ensures g'.owner == None
  {
  }

  lemma {:induction false} StepsAreBudgeted(cfg: Config, r: Run, early: Run, t: Tid)
    requires Happens(cfg, r) && OwnsSince(r, early, t)
    ensures HandlerSteps(r, early, t) + Budget(Th(End(r).threads, t).ctl, |End(r).d.table|) <=
            Budget(Th(End(early).threads, t).ctl, |End(early).d.table|)
  {
    if r != early {
      StepsAreBudgeted(cfg, r.before, early, t);
      RunKeepsGInv(cfg, r.before);
      if Handles(End(r.before), r.who, t) && Th(End(r.before).threads, t).ctl.Leave? {
        LeaveReleases(cfg, End(r.before), t, r.choice, r.g);
      }
      AnyStepSpends(cfg, End(r.before), t, r.who, r.choice, r.g);
    }
  }

  /**
    Critical sections are bounded: whatever the request, whatever the others do
    meanwhile, and even if every victim is empty, its owner makes at most
    n(n+1) + 2n + 4 handler steps, for the n files stored when it began.
   */
  lemma CriticalSectionsAreBounded(cfg: Config, r: Run, early: Run, t: Tid)
    requires Happens(cfg, r) && OwnsSince(r, early, t) && Th(End(early).threads, t).ctl.Lookup?
    ensures var n := |End(early).d.table|; HandlerSteps(r, early, t) <= n * (n + 1) + 2 * n + 4
  {
    StepsAreBudgeted(cfg, r, early, t);
  }

  /** Only its owner, and only at the end of its critical section, lets go of `files_mtx`. */
  lemma OwnerStaysOrReleases(cfg: Config, g: G, t: Tid, u: Tid, c: Choice, g': G)
    requires GInv(cfg, g) && g.owner == Some(t) && Step(cfg, g, u, c) == Some(g')
    ensures g'.owner == Some(t) || (u == t && Releasing(Th(g.threads, t)))
  {
    AtThread(g, t);
    if !(u == t && Releasing(Th(g.threads, t))) {
      if Handles(g, u, t) {
        StepSpends(cfg, g, t, c, g');
      } else {
        StepShape(cfg, g, u, c, g');
        if u == t {
          OutsideData(cfg, g, u, c, g');
        }
      }
      StepKeepsGInv(cfg, g, u, c, g');
      AtThread(g', t);
    }
  }

  /** `t` has released `files_mtx` since `early`. */
  predicate ReleasedSince(r: Run, early: Run, t: Tid) {
    r != early && r.Moved?
    && ((r.who == t && Releasing(Th(End(r.before).threads, t))) || ReleasedSince(r.before, early, t))
  }

  lemma {:induction false} OwnsOrReleased(cfg: Config, r: Run, early: Run, t: Tid)
    requires Happens(cfg, r) && Extends(r, early) && End(early).owner == Some(t)
    ensures OwnsSince(r, early, t) || ReleasedSince(r, early, t)
  {
    if r != early {
      OwnsOrReleased(cfg, r.before, early, t);
      if OwnsSince(r.before, early, t) {
        RunKeepsGInv(cfg, r.before);
        OwnerStaysOrReleases(cfg, End(r.before), t, r.who, r.choice, r.g);
      }
    }
  }

  /**
    Every critical section ends: a thread that takes one handler step more than
    that after entering has released `files_mtx`.
   */
  lemma CriticalSectionsEnd(cfg: Config, r: Run, early: Run, t: Tid)
    requires Happens(cfg, r) && Extends(r, early)
    requires End(early).owner == Some(t) && Th(End(early).threads, t).ctl.Lookup?
    requires var n := |End(early).d.table|; HandlerSteps(r, early, t) > n * (n + 1) + 2 * n + 4
    ensures ReleasedSince(r, early, t)
  {
    OwnsOrReleased(cfg, r, early, t);
    if OwnsSince(r, early, t) {
      CriticalSectionsAreBounded(cfg, r, early, t);
    }
  }
}
