/**
  How much work is left on the server. Every step but an arrival and a wake-up for
  no reason uses some of it up: handler steps because each control point has a
  budget, steps inside lock calls because each signal is paid for by an unlock.
 */
module ProtocolMeasure {
  import opened Basics
  import opened StoreSpec
  import opened StoreRuns
  import opened Protocol
  import opened ProtocolInv
  import opened ProtocolLocks
  import opened ProtocolFiles
  import opened ProtocolEvict
  import opened ProtocolSettle
  import opened ProtocolSafety
  import opened ProtocolBudget
  import opened ProtocolLoss
  import S = ProtocolScan
  import R = RwLock

  // -------------------------------------------------------------------------- totals

  ghost function Total(w: map<Tid, nat>): nat {
    if w == map[] then 0
    else
      var t :| t in w;
      w[t] + Total(w - {t})
  }

  lemma {:induction false} TotalSplit(w: map<Tid, nat>, t: Tid)
    requires t in w
    ensures Total(w) == w[t] + Total(w - {t})
    decreases |w|
  {
    var u :| u in w && Total(w) == w[u] + Total(w - {u});
    if u != t {
      TotalSplit(w - {u}, t);
      TotalSplit(w - {t}, u);
      assert w - {u} - {t} == w - {t} - {u};
    }
  }

  lemma {:induction false} TotalMono(w: map<Tid, nat>, w': map<Tid, nat>)
    requires w'.Keys == w.Keys && forall t | t in w :: w'[t] <= w[t]
    ensures Total(w') <= Total(w)
    decreases |w|
  {
    if w != map[] {
      var t :| t in w;
      TotalSplit(w, t);
      TotalSplit(w', t);
      TotalMono(w - {t}, w' - {t});
    }
  }

  /** One falls, no other grows. */
  lemma TotalFalls(w: map<Tid, nat>, w': map<Tid, nat>, t: Tid)
    requires w'.Keys == w.Keys && t in w && w'[t] < w[t]
    requires forall u | u in w && u != t :: w'[u] <= w[u]
    ensures Total(w') < Total(w)
  {
    TotalSplit(w, t);
    TotalSplit(w', t);
    TotalMono(w - {t}, w' - {t});
  }

  /** Two fall together, no other grows. */
  lemma TwoFall(w: map<Tid, nat>, w': map<Tid, nat>, t: Tid, v: Tid)
    requires w'.Keys == w.Keys && t in w && v in w && t != v && w'[t] + w'[v] < w[t] + w[v]
    requires forall u | u in w && u != t && u != v :: w'[u] <= w[u]
    ensures Total(w') < Total(w)
  {
    TotalSplit(w, t);
    TotalSplit(w', t);
    TotalSplit(w - {t}, v);
    TotalSplit(w' - {t}, v);
    TotalMono(w - {t} - {v}, w' - {t} - {v});
  }

  // ---------------------------------------------------------------- room in the table

  /** May still enter a file in the table. */
  predicate MayInsert(ctl: Control) {
    match ctl
    case WantFiles(req) => req.Open? && req.create
    case Lookup(req) => req.Open? && req.create
    case Created(_, _, _, _) => true
    case Scan(job, _, _) => job.req.Open?
    case Compare(job, _, _, _) => job.req.Open?
    case Insert(_) => true
    case _ => false
  }

  function Inserters(threads: map<Tid, Thread>): map<Tid, nat> {
    map t | t in threads :: Bit(MayInsert(threads[t].ctl))
  }

  /** The most files that can be stored before another request arrives. */
  ghost function Room(g: G): nat {
    |g.d.table| + Total(Inserters(g.threads))
  }

  // --------------------------------------------------------------------- work left

  /** The most objects that are still to be unlocked or freed after the reply. */
  function Tail(ctl: Control, n: nat): nat {
    match ctl
    case Lookup(_) => n + 1
    case Locked(_, _) => n + 1
    case Created(_, _, _, _) => n + 1
    case Scan(job, _, _) => |job.gone| + n
    case Compare(job, _, _, _) => |job.gone| + n
    case Insert(job) => |job.gone|
    case Collect(_, _, todo, taken) => |taken| + |todo|
    case Leave(_, send, doomed) => |send| + |doomed|
    case _ => 0
  }

  /** How many handler steps are left at most, with `n` files stored and room for `room`. */
  function Left(ctl: Control, n: nat, room: nat): nat {
    match ctl
    case Resting => 0
    case WantFiles(_) => Scans(room) + 3 * room + 9
    case Send(_, send, doomed) => |send| + |doomed| + 2
    case Finish(_, send, doomed) => |send| + |doomed| + 1
    case _ => Budget(ctl, n) + Tail(ctl, n) + 3
  }

  function InCall(g: G, t: Tid): nat {
    var call := Th(g.threads, t).call;
    if call.Some? && call.value in g.locks then R.Rank(R.At(g.locks[call.value], t)) else 0
  }

  ghost function Weight(g: G, t: Tid): nat {
    7 * Left(Th(g.threads, t).ctl, |g.d.table|, Room(g)) + InCall(g, t)
  }

  ghost function Weights(g: G): map<Tid, nat> {
    map t | t in g.threads :: Weight(g, t)
  }

  /** All the work that is left. */
  ghost function Work(g: G): nat {
    Total(Weights(g))
  }

  // ------------------------------------------------------------- budgets are enough

  /** The step of the owner does not lengthen what comes after the reply. */
  ghost predicate TailHolds(g: G, t: Tid, g': G) {
    Tail(Th(g'.threads, t).ctl, |g'.d.table|) <= Tail(Th(g.threads, t).ctl, |g.d.table|)
  }

  lemma LookupTail(cfg: Config, g: G, t: Tid, c: Choice, req: Request, g': G)
    requires TableOk(g.d, g.locks.Keys) && Th(g.threads, t) == Thread(Lookup(req), None)
    requires LookupStep(cfg, g, t, c, req) == Some(g')
    ensures TailHolds(g, t, g')
  {
    if req.ReadN? || req.Disconnect? {
      OrderCounts(g.d, g.locks.Keys, c.order);
    }
  }

  lemma GrowTail(cfg: Config, g: G, t: Tid, c: Choice, req: Request, f: Fid, grown: File, added: nat, g': G)
    requires Th(g.threads, t) == Thread(Locked(req, f), None)
    requires GrowStep(cfg, g, t, c, req, f, grown, added) == Some(g')
    ensures TailHolds(g, t, g')
  {
    GrowGoes(cfg, g, t, c, req, f, grown, added, g');
  }

  lemma RefusedTail(cfg: Config, g: G, t: Tid, c: Choice, req: Request, f: Fid, g': G)
    requires Th(g.threads, t) == Thread(Locked(req, f), None) && (req.Write? || req.Append?)
    requires LockedStep(cfg, g, t, c, req, f) == Some(g') && f in g.d.files
    ensures var file := g.d.files[f];
            var grown := if req.Write? then Written(file, req.data, c.t1) else Extended(file, req.data, c.t1);
            TailHolds(g, t, g') || GrowStep(cfg, g, t, c, req, f, grown, |req.data|) == Some(g')
  {
  }

  lemma PlainTail(cfg: Config, g: G, t: Tid, c: Choice, req: Request, f: Fid, g': G)
    requires Th(g.threads, t) == Thread(Locked(req, f), None) && !req.Write? && !req.Append?
    requires LockedStep(cfg, g, t, c, req, f) == Some(g')
    ensures TailHolds(g, t, g')
  {
  }

  lemma LockedTail(cfg: Config, g: G, t: Tid, c: Choice, req: Request, f: Fid, g': G)
    requires Th(g.threads, t) == Thread(Locked(req, f), None) && LockedStep(cfg, g, t, c, req, f) == Some(g')
    ensures TailHolds(g, t, g')
  {
    if req.Write? || req.Append? {
      var file := g.d.files[f];
      var grown := if req.Write? then Written(file, req.data, c.t1) else Extended(file, req.data, c.t1);
      RefusedTail(cfg, g, t, c, req, f, g');
      if GrowStep(cfg, g, t, c, req, f, grown, |req.data|) == Some(g') {
        GrowTail(cfg, g, t, c, req, f, grown, |req.data|, g');
      }
    } else {
      PlainTail(cfg, g, t, c, req, f, g');
    }
  }

  lemma ExpelTail(cfg: Config, g: G, t: Tid, c: Choice, job: Job, b: Fid, g': G)
    requires Th(g.threads, t) == Thread(Scan(job, [], Some(b)), None)
    requires b in g.d.files && g.d.files[b].path in g.d.table && Expel(cfg, g, t, c, job, b) == Some(g')
    ensures TailHolds(g, t, g')
  {
    var v := g.d.files[b];
    ExpelGoes(cfg, g, t, c, job, b, g');
    assert AfterUnlink(g.d, v).table.Keys == g.d.table.Keys - {v.path};
  }

  lemma OtherTail(cfg: Config, g: G, t: Tid, c: Choice, g': G)
    requires Th(g.threads, t).call == None && Step(cfg, g, t, c) == Some(g')
    requires var ctl := Th(g.threads, t).ctl;
             ctl.Created? || ctl.Compare? || ctl.Insert? || ctl.Collect? || ctl.Sweep? || ctl.SweepOne?
             || (ctl.Scan? && ctl.todo != [])
    ensures TailHolds(g, t, g')
  {
  }

  lemma StepTail(cfg: Config, g: G, t: Tid, c: Choice, g': G)
    requires GInv(cfg, g) && g.owner == Some(t) && Step(cfg, g, t, c) == Some(g')
    requires Th(g.threads, t).call == None && !Th(g.threads, t).ctl.Leave?
    ensures TailHolds(g, t, g')
  {
    AtThread(g, t);
    var ctl := Th(g.threads, t).ctl;
    assert CtlData(cfg, g.d, Last(g.trace), ctl);
    if ctl.Lookup? {
      LookupTail(cfg, g, t, c, ctl.req, g');
    } else if ctl.Locked? {
      LockedTail(cfg, g, t, c, ctl.req, ctl.f, g');
    } else if ctl.Scan? && ctl.todo == [] {
      BestIsVictim(cfg, g.d, g.locks.Keys, ctl.best.value);
      ExpelTail(cfg, g, t, c, ctl.job, ctl.best.value, g');
    } else {
      OtherTail(cfg, g, t, c, g');
    }
  }

  // ------------------------------------------------------------- room is not gained

  /** The step is the thread's own, and gains no room. */
  ghost predicate KeepsRoom(g: G, t: Tid, g': G) {
    && g'.threads == g.threads[t := Th(g'.threads, t)]
    && |g'.d.table| + Bit(MayInsert(Th(g'.threads, t).ctl)) <= |g.d.table| + Bit(MayInsert(Th(g.threads, t).ctl))
  }

  lemma SmallerTable(m: map<Path, Fid>, p: Path)
    ensures |m - {p}| <= |m|
  {
    assert (m - {p}).Keys == m.Keys - {p};
  }

  lemma BiggerTable(m: map<Path, Fid>, p: Path, f: Fid)
    ensures |m[p := f]| <= |m| + 1
  {
    assert m[p := f].Keys == m.Keys + {p};
  }

  lemma LookupRoom(cfg: Config, g: G, t: Tid, c: Choice, req: Request, g': G)
    requires Th(g.threads, t) == Thread(Lookup(req), None) && LookupStep(cfg, g, t, c, req) == Some(g')
    ensures KeepsRoom(g, t, g')
  {
  }

  lemma GrowRoom(cfg: Config, g: G, t: Tid, c: Choice, req: Request, f: Fid, grown: File, added: nat, g': G)
    requires Th(g.threads, t) == Thread(Locked(req, f), None) && !req.Open?
    requires GrowStep(cfg, g, t, c, req, f, grown, added) == Some(g')
    ensures KeepsRoom(g, t, g')
  {
  }

  lemma RefusedRoom(cfg: Config, g: G, t: Tid, c: Choice, req: Request, f: Fid, g': G)
    requires Th(g.threads, t) == Thread(Locked(req, f), None) && (req.Write? || req.Append?)
    requires LockedStep(cfg, g, t, c, req, f) == Some(g') && f in g.d.files
    ensures var file := g.d.files[f];
            var grown := if req.Write? then Written(file, req.data, c.t1) else Extended(file, req.data, c.t1);
            KeepsRoom(g, t, g') || GrowStep(cfg, g, t, c, req, f, grown, |req.data|) == Some(g')
  {
  }

  lemma RemoveRoom(cfg: Config, g: G, t: Tid, c: Choice, req: Request, f: Fid, g': G)
    requires Th(g.threads, t) == Thread(Locked(req, f), None) && req.Remove?
    requires LockedStep(cfg, g, t, c, req, f) == Some(g')
    ensures KeepsRoom(g, t, g')
  {
    RemoveTurns(cfg, g, t, c, req, f, g');
    RemoveGoes(cfg, g, t, c, req, f, g');
    SmallerTable(g.d.table, req.path);
  }

  lemma RemoveTurns(cfg: Config, g: G, t: Tid, c: Choice, req: Request, f: Fid, g': G)
    requires req.Remove? && LockedStep(cfg, g, t, c, req, f) == Some(g')
    ensures g'.threads == g.threads[t := Th(g'.threads, t)]
  {
  }

  lemma PlainRoom(cfg: Config, g: G, t: Tid, c: Choice, req: Request, f: Fid, g': G)
    requires Th(g.threads, t) == Thread(Locked(req, f), None) && !req.Write? && !req.Append?
    requires LockedStep(cfg, g, t, c, req, f) == Some(g')
    ensures KeepsRoom(g, t, g')
  {
    if req.Remove? {
      RemoveRoom(cfg, g, t, c, req, f, g');
    }
  }

  lemma LockedRoom(cfg: Config, g: G, t: Tid, c: Choice, req: Request, f: Fid, g': G)
    requires Th(g.threads, t) == Thread(Locked(req, f), None) && LockedStep(cfg, g, t, c, req, f) == Some(g')
    ensures KeepsRoom(g, t, g')
  {
    if req.Write? || req.Append? {
      var file := g.d.files[f];
      var grown := if req.Write? then Written(file, req.data, c.t1) else Extended(file, req.data, c.t1);
      RefusedRoom(cfg, g, t, c, req, f, g');
      if GrowStep(cfg, g, t, c, req, f, grown, |req.data|) == Some(g') {
        GrowRoom(cfg, g, t, c, req, f, grown, |req.data|, g');
      }
    } else {
      PlainRoom(cfg, g, t, c, req, f, g');
    }
  }

  lemma ScanRoom(cfg: Config, g: G, t: Tid, c: Choice, job: Job, todo: seq<Fid>, best: Option<Fid>, g': G)
    requires Th(g.threads, t) == Thread(Scan(job, todo, best), None)
    requires ScanStep(cfg, g, t, c, job, todo, best) == Some(g')
    ensures KeepsRoom(g, t, g')
  {
    if todo == [] {
      ExpelRoom(cfg, g, t, c, job, best.value, g');
    } else {
      LooksRoom(cfg, g, t, c, job, todo, best, g');
    }
  }

  lemma LooksRoom(cfg: Config, g: G, t: Tid, c: Choice, job: Job, todo: seq<Fid>, best: Option<Fid>, g': G)
    requires Th(g.threads, t) == Thread(Scan(job, todo, best), None) && todo != []
    requires ScanStep(cfg, g, t, c, job, todo, best) == Some(g')
    ensures KeepsRoom(g, t, g')
  {
  }

  lemma ExpelTurns(cfg: Config, g: G, t: Tid, c: Choice, job: Job, b: Fid, g': G)
    requires b in g.d.files && Expel(cfg, g, t, c, job, b) == Some(g')
    ensures g'.threads == g.threads[t := Th(g'.threads, t)]
  {
  }

  lemma ExpelRoom(cfg: Config, g: G, t: Tid, c: Choice, job: Job, b: Fid, g': G)
    requires Th(g.threads, t).ctl == Scan(job, [], Some(b)) && b in g.d.files && Expel(cfg, g, t, c, job, b) == Some(g')
    ensures KeepsRoom(g, t, g')
  {
    ExpelTurns(cfg, g, t, c, job, b, g');
    ExpelGoes(cfg, g, t, c, job, b, g');
    SmallerTable(g.d.table, g.d.files[b].path);
  }

  lemma InsertRoom(g: G, t: Tid, job: Job, g': G)
    requires Th(g.threads, t) == Thread(Insert(job), None) && InsertStep(g, t, job) == Some(g')
    ensures KeepsRoom(g, t, g')
  {
    BiggerTable(g.d.table, job.req.path, job.own);
  }

  lemma VisitRoom(cfg: Config, g: G, t: Tid, c: Choice, g': G)
    requires var ctl := Th(g.threads, t).ctl; ctl.Compare? || ctl.Collect? || ctl.Sweep? || ctl.SweepOne?
    requires Th(g.threads, t).call == None && Step(cfg, g, t, c) == Some(g')
    ensures KeepsRoom(g, t, g')
  {
  }

  lemma CreatedRoom(cfg: Config, g: G, t: Tid, c: Choice, g': G)
    requires Th(g.threads, t).ctl.Created? && Th(g.threads, t).call == None && Step(cfg, g, t, c) == Some(g')
    ensures KeepsRoom(g, t, g')
  {
  }

  lemma OutsideRoom(cfg: Config, g: G, t: Tid, c: Choice, g': G)
    requires var ctl := Th(g.threads, t).ctl; ctl.WantFiles? || ctl.Leave? || ctl.Send? || ctl.Finish?
    requires Th(g.threads, t).call == None && Step(cfg, g, t, c) == Some(g')
    ensures KeepsRoom(g, t, g')
  {
  }

  lemma InnerRoom(cfg: Config, g: G, t: Tid, c: Choice, g': G)
    requires Th(g.threads, t).call.Some? && Step(cfg, g, t, c) == Some(g')
    ensures KeepsRoom(g, t, g')
  {
  }

  lemma StepRoom(cfg: Config, g: G, t: Tid, c: Choice, g': G)
    requires !Idle(Th(g.threads, t)) && Step(cfg, g, t, c) == Some(g')
    ensures KeepsRoom(g, t, g')
  {
    var th := Th(g.threads, t);
    if th.call.Some? {
      InnerRoom(cfg, g, t, c, g');
    } else {
      match th.ctl {
        case Lookup(req) => LookupRoom(cfg, g, t, c, req, g');
        case Locked(req, f) => LockedRoom(cfg, g, t, c, req, f, g');
        case Created(_, _, _, _) => CreatedRoom(cfg, g, t, c, g');
        case Scan(job, todo, best) => ScanRoom(cfg, g, t, c, job, todo, best, g');
        case Insert(job) => InsertRoom(g, t, job, g');
        case Compare(_, _, _, _) => VisitRoom(cfg, g, t, c, g');
        case Collect(_, _, _, _) => VisitRoom(cfg, g, t, c, g');
        case Sweep(_, _) => VisitRoom(cfg, g, t, c, g');
        case SweepOne(_, _, _) => VisitRoom(cfg, g, t, c, g');
        case _ => OutsideRoom(cfg, g, t, c, g');
      }
    }
  }

  lemma RoomFalls(g: G, t: Tid, g': G)
    requires t in g.threads && KeepsRoom(g, t, g')
    ensures Room(g') <= Room(g)
  {
    var w, w' := Inserters(g.threads), Inserters(g'.threads);
    assert w'.Keys == w.Keys;
    TotalSplit(w, t);
    TotalSplit(w', t);
    TotalMono(w - {t}, w' - {t});
  }

  // --------------------------------------------------------------- one step, less work

  lemma ScansGrow(n: nat, m: nat)
    requires n <= m
    ensures Scans(n) <= Scans(m)
  {
    assert n * (n + 1) <= m * (m + 1) by {
      assert n * (n + 1) <= n * (m + 1) <= m * (m + 1);
    }
  }

  lemma OutsideLeft(cfg: Config, g: G, t: Tid, c: Choice, g': G)
    requires var ctl := Th(g.threads, t).ctl; ctl.Leave? || ctl.Send? || ctl.Finish?
    requires Th(g.threads, t).call == None && Step(cfg, g, t, c) == Some(g')
    ensures forall n: nat, m: nat, room: nat, more: nat ::
              Left(Th(g'.threads, t).ctl, m, more) < Left(Th(g.threads, t).ctl, n, room)
  {
  }

  lemma EnterLeft(cfg: Config, g: G, t: Tid, c: Choice, g': G)
    requires Th(g.threads, t).ctl.WantFiles? && Th(g.threads, t).call == None && Step(cfg, g, t, c) == Some(g')
    ensures Left(Th(g'.threads, t).ctl, |g'.d.table|, Room(g')) < Left(Th(g.threads, t).ctl, |g.d.table|, Room(g))
  {
    ScansGrow(|g.d.table|, Room(g));
  }

  /** A handler step uses up some of its thread's budget. */
  lemma OwnLeft(cfg: Config, g: G, t: Tid, c: Choice, g': G)
    requires GInv(cfg, g) && Step(cfg, g, t, c) == Some(g') && !Idle(Th(g.threads, t)) && Th(g.threads, t).call == None
    ensures Left(Th(g'.threads, t).ctl, |g'.d.table|, Room(g')) < Left(Th(g.threads, t).ctl, |g.d.table|, Room(g))
  {
    AtThread(g, t);
    var ctl := Th(g.threads, t).ctl;
    if ctl.WantFiles? {
      EnterLeft(cfg, g, t, c, g');
    } else if ctl.Leave? || ctl.Send? || ctl.Finish? {
      OutsideLeft(cfg, g, t, c, g');
    } else {
      StepSpends(cfg, g, t, c, g');
      StepTail(cfg, g, t, c, g');
    }
  }

  lemma LeftMono(ctl: Control, n: nat, room: nat, more: nat)
    requires room <= more
    ensures Left(ctl, n, room) <= Left(ctl, n, more)
  {
    ScansGrow(room, more);
  }

  lemma BusyIsKnown(g: G, t: Tid)
    ensures t !in g.threads ==> Idle(Th(g.threads, t))
  {
  }

  /** A handler step moves nobody in a lock but its own thread. */
  lemma OthersInLock(l: R.Lock, t: Tid, l': R.Lock, u: Tid)
    requires Uses(l, t, l') && (R.At(l, t).Out? || R.At(l, t).Holds?) && u != t
    ensures R.At(l', u) == R.At(l, u)
  {
  }

  lemma OthersInCall(cfg: Config, g: G, t: Tid, c: Choice, g': G, u: Tid)
    requires GInv(cfg, g) && GInv(cfg, g') && Step(cfg, g, t, c) == Some(g') && Th(g.threads, t).call == None && u != t
    ensures InCall(g', u) == InCall(g, u)
  {
    StepShape(cfg, g, t, c, g');
    AtThread(g, u);
    AtThread(g', u);
    if Th(g.threads, u).call.Some? {
      var f := Th(g.threads, u).call.value;
      OthersAtLock(cfg, g, t, c, g', u, f);
    }
  }

  lemma OthersAtLock(cfg: Config, g: G, t: Tid, c: Choice, g': G, u: Tid, f: Fid)
    requires Struct(g) && Step(cfg, g, t, c) == Some(g') && Th(g.threads, t).call == None && u != t
    requires f in g.locks && f in g'.locks
    ensures R.At(g'.locks[f], u) == R.At(g.locks[f], u)
  {
    FreshIsNew(g);
    S.StepUses(cfg, g, t, c, g', f);
    HeldAs(g.threads, g.locks, t, f);
    OthersInLock(g.locks[f], t, g'.locks[f], u);
  }

  /** Whose budget depends on the stored files sees them change by its own steps only. */
  lemma OthersData(cfg: Config, g: G, t: Tid, c: Choice, g': G, u: Tid)
    requires GInv(cfg, g) && Step(cfg, g, t, c) == Some(g') && u != t && Critical(Th(g.threads, u).ctl)
    ensures g'.d == g.d
  {
    AtThread(g, u);
    AtThread(g, t);
    OutsideData(cfg, g, t, c, g');
  }

  lemma LeftOutside(ctl: Control, n: nat, m: nat, room: nat)
    requires !Critical(ctl)
    ensures Left(ctl, n, room) == Left(ctl, m, room)
  {
  }

  /** Other threads have no more to do than before. */
  lemma OthersLeft(cfg: Config, g: G, t: Tid, c: Choice, g': G, u: Tid)
    requires GInv(cfg, g) && Step(cfg, g, t, c) == Some(g') && u != t
    requires Room(g') <= Room(g) && Th(g'.threads, u) == Th(g.threads, u)
    ensures Left(Th(g'.threads, u).ctl, |g'.d.table|, Room(g')) <= Left(Th(g.threads, u).ctl, |g.d.table|, Room(g))
  {
    var ctl := Th(g.threads, u).ctl;
    if Critical(ctl) {
      OthersData(cfg, g, t, c, g', u);
    } else {
      LeftOutside(ctl, |g.d.table|, |g'.d.table|, Room(g'));
    }
    LeftMono(ctl, |g.d.table|, Room(g'), Room(g));
  }

  lemma StepTurns(cfg: Config, g: G, t: Tid, c: Choice, g': G)
    requires Step(cfg, g, t, c) == Some(g') && !Idle(Th(g.threads, t))
    ensures t in g.threads && g'.threads.Keys == g.threads.Keys && Room(g') <= Room(g)
    ensures forall u: Tid | u != t :: Th(g'.threads, u) == Th(g.threads, u)
  {
    StepRoom(cfg, g, t, c, g');
    BusyIsKnown(g, t);
    RoomFalls(g, t, g');
    TurnIs(g, t, g');
  }

  lemma TurnIs(g: G, t: Tid, g': G)
    requires t in g.threads && KeepsRoom(g, t, g')
    ensures g'.threads.Keys == g.threads.Keys
    ensures forall u: Tid | u != t :: Th(g'.threads, u) == Th(g.threads, u)
  {
  }

  /** The weight of a thread, split into what it has to do and where it is in a call. */
  lemma WeightIs(g: G, t: Tid)
    ensures Weight(g, t) == 7 * Left(Th(g.threads, t).ctl, |g.d.table|, Room(g)) + InCall(g, t)
    ensures InCall(g, t) <= 6
  {
  }

  lemma WorkFalls(g: G, t: Tid, g': G)
    requires t in g.threads && g'.threads.Keys == g.threads.Keys && Weight(g', t) < Weight(g, t)
    requires forall u | u in g.threads && u != t :: Weight(g', u) <= Weight(g, u)
    ensures Work(g') < Work(g)
  {
    TotalFalls(Weights(g), Weights(g'), t);
  }

  lemma WorkTwoFall(g: G, t: Tid, v: Tid, g': G)
    requires t in g.threads && v in g.threads && t != v && g'.threads.Keys == g.threads.Keys
    requires Weight(g', t) + Weight(g', v) < Weight(g, t) + Weight(g, v)
    requires forall u | u in g.threads && u != t && u != v :: Weight(g', u) <= Weight(g, u)
    ensures Work(g') < Work(g)
  {
    TwoFall(Weights(g), Weights(g'), t, v);
  }

  lemma OthersWeigh(cfg: Config, g: G, t: Tid, c: Choice, g': G, u: Tid)
    requires GInv(cfg, g) && Step(cfg, g, t, c) == Some(g') && u != t
    requires Room(g') <= Room(g) && Th(g'.threads, u) == Th(g.threads, u)
    ensures Weight(g', u) + InCall(g, u) <= Weight(g, u) + InCall(g', u)
  {
    OthersLeft(cfg, g, t, c, g', u);
    WeightIs(g, u);
    WeightIs(g', u);
  }

  lemma OwnWeighs(cfg: Config, g: G, t: Tid, c: Choice, g': G)
    requires GInv(cfg, g) && Step(cfg, g, t, c) == Some(g') && !Idle(Th(g.threads, t)) && Th(g.threads, t).call == None
    ensures Weight(g', t) < Weight(g, t)
  {
    OwnLeft(cfg, g, t, c, g');
    WeightIs(g, t);
    WeightIs(g', t);
  }

  lemma HandlerWorks(cfg: Config, g: G, t: Tid, c: Choice, g': G)
    requires GInv(cfg, g) && GInv(cfg, g') && Step(cfg, g, t, c) == Some(g')
    requires !Idle(Th(g.threads, t)) && Th(g.threads, t).call == None
    ensures Work(g') < Work(g)
  {
    StepTurns(cfg, g, t, c, g');
    OwnWeighs(cfg, g, t, c, g');
    forall u | u in g.threads && u != t ensures Weight(g', u) <= Weight(g, u) {
      OthersWeigh(cfg, g, t, c, g', u);
      OthersInCall(cfg, g, t, c, g', u);
    }
    WorkFalls(g, t, g');
  }

  /** A step inside a call on `f`. */
  lemma InnerGoes(cfg: Config, g: G, t: Tid, c: Choice, g': G)
    requires Th(g.threads, t).call.Some? && !c.spurious && Step(cfg, g, t, c) == Some(g')
    ensures var f := Th(g.threads, t).call.value;
            && f in g.locks && R.Enabled(g.locks[f], t, R.Advance(c.woken))
            && g'.locks == g.locks[f := R.Do(g.locks[f], t, R.Advance(c.woken))]
    ensures g'.d == g.d && Th(g'.threads, t).ctl == Th(g.threads, t).ctl
    ensures Th(g'.threads, t).call == Th(g.threads, t).call || Th(g'.threads, t).call == None
  {
  }

  lemma InnerOwn(cfg: Config, g: G, t: Tid, c: Choice, g': G)
    requires Th(g.threads, t).call.Some? && !c.spurious && Step(cfg, g, t, c) == Some(g')
    ensures var f := Th(g.threads, t).call.value;
            && f in g.locks && f in g'.locks
            && InCall(g, t) == R.Rank(R.At(g.locks[f], t)) && InCall(g', t) == R.Rank(R.At(g'.locks[f], t))
  {
  }

  lemma InnerOther(g: G, f: Fid, l: R.Lock, g': G, u: Tid)
    requires f in g.locks && g'.locks == g.locks[f := l] && Th(g'.threads, u) == Th(g.threads, u)
    ensures if Th(g.threads, u).call == Some(f) then
              InCall(g, u) == R.Rank(R.At(g.locks[f], u)) && InCall(g', u) == R.Rank(R.At(l, u))
            else InCall(g', u) == InCall(g, u)
  {
  }

  /** What a step inside a call does to the ranks; `v` is whom it wakes, if anybody. */
  lemma InnerRanks(cfg: Config, g: G, t: Tid, c: Choice, g': G) returns (v: Tid)
    requires Struct(g) && Th(g.threads, t).call.Some? && !c.spurious && Step(cfg, g, t, c) == Some(g')
    requires forall u: Tid | u != t :: Th(g'.threads, u) == Th(g.threads, u)
    ensures v != t && InCall(g', t) < InCall(g, t)
    ensures forall u: Tid | u != t && u != v :: InCall(g', u) <= InCall(g, u)
    ensures InCall(g', t) + InCall(g', v) < InCall(g, t) + InCall(g, v)
  {
    var f := Th(g.threads, t).call.value;
    InnerGoes(cfg, g, t, c, g');
    InnerOwn(cfg, g, t, c, g');
    v := LockRanks(g.locks[f], t, c.woken);
    forall u: Tid | u != t && u != v ensures InCall(g', u) <= InCall(g, u) {
      InnerOther(g, f, g'.locks[f], g', u);
    }
    InnerOther(g, f, g'.locks[f], g', v);
  }

  lemma LockRanks(l: R.Lock, t: Tid, woken: set<Tid>) returns (v: Tid)
    requires R.Reachable(l) && R.Enabled(l, t, R.Advance(woken))
    ensures v != t
    ensures var l' := R.Do(l, t, R.Advance(woken));
            && R.Rank(R.At(l', t)) < R.Rank(R.At(l, t))
            && R.Rank(R.At(l', t)) + R.Rank(R.At(l', v)) < R.Rank(R.At(l, t)) + R.Rank(R.At(l, v))
            && (forall u: Tid | u != t && u != v :: R.Rank(R.At(l', u)) <= R.Rank(R.At(l, u)))
  {
    R.ReachableInv(l);
    v := R.RankFalls(l, t, woken);
  }

  lemma InnerWeighs(cfg: Config, g: G, t: Tid, c: Choice, g': G)
    requires Th(g.threads, t).call.Some? && !c.spurious && Step(cfg, g, t, c) == Some(g') && Room(g') <= Room(g)
    ensures Weight(g', t) + InCall(g, t) <= Weight(g, t) + InCall(g', t)
  {
    InnerGoes(cfg, g, t, c, g');
    LeftMono(Th(g.threads, t).ctl, |g.d.table|, Room(g'), Room(g));
    WeightIs(g, t);
    WeightIs(g', t);
  }

  lemma InnerWorks(cfg: Config, g: G, t: Tid, c: Choice, g': G)
    requires GInv(cfg, g) && Step(cfg, g, t, c) == Some(g') && Th(g.threads, t).call.Some? && !c.spurious
    ensures Work(g') < Work(g)
  {
    StepTurns(cfg, g, t, c, g');
    var v := InnerRanks(cfg, g, t, c, g');
    AllWeigh(cfg, g, t, c, g');
    RanksFall(g, t, v, g');
  }

  lemma AllWeigh(cfg: Config, g: G, t: Tid, c: Choice, g': G)
    requires GInv(cfg, g) && Step(cfg, g, t, c) == Some(g') && Th(g.threads, t).call.Some? && !c.spurious
    requires Room(g') <= Room(g) && forall u: Tid | u != t :: Th(g'.threads, u) == Th(g.threads, u)
    ensures forall u | u in g.threads :: Weight(g', u) + InCall(g, u) <= Weight(g, u) + InCall(g', u)
  {
    InnerWeighs(cfg, g, t, c, g');
    forall u | u in g.threads && u != t
      ensures Weight(g', u) + InCall(g, u) <= Weight(g, u) + InCall(g', u)
    {
      OthersWeigh(cfg, g, t, c, g', u);
    }
  }

  lemma RanksFall(g: G, t: Tid, v: Tid, g': G)
    requires t in g.threads && v != t && g'.threads.Keys == g.threads.Keys
    requires forall u | u in g.threads :: Weight(g', u) + InCall(g, u) <= Weight(g, u) + InCall(g', u)
    requires InCall(g', t) < InCall(g, t) && InCall(g', t) + InCall(g', v) < InCall(g, t) + InCall(g, v)
    requires forall u | u in g.threads && u != t && u != v :: InCall(g', u) <= InCall(g, u)
    ensures Work(g') < Work(g)
  {
    if v in g.threads {
      WorkTwoFall(g, t, v, g');
    } else {
      WorkFalls(g, t, g');
    }
  }

  /** Every step but an arrival and a wake-up for no reason uses up some of the work that is left. */
  lemma StepWorks(cfg: Config, g: G, t: Tid, c: Choice, g': G)
    requires GInv(cfg, g) && GInv(cfg, g') && Step(cfg, g, t, c) == Some(g')
    requires !Idle(Th(g.threads, t)) && !c.spurious
    ensures Work(g') < Work(g)
  {
    if Th(g.threads, t).call.Some? {
      InnerWorks(cfg, g, t, c, g');
    } else {
      HandlerWorks(cfg, g, t, c, g');
    }
  }
}
