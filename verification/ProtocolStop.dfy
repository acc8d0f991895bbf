/**
  What a lost reader stops for good. Closing a client write-locks every stored
  file, so once the send of a `read_file` has failed no client is closed any more,
  and the first one to be closed takes `files_mtx` with it.
 */
module ProtocolStop {
  import opened Basics
  import opened StoreSpec
  import opened StoreRuns
  import opened Protocol
  import opened ProtocolInv
  import opened ProtocolLocks
  import opened ProtocolRuns
  import opened ProtocolSafety
  import opened ProtocolBudget
  import opened ProtocolLoss
  import opened ProtocolAlone
  import S = ProtocolScan
  import R = RwLock

  /** In the sweep of `close_client`, or at its end. */
  predicate Sweeping(ctl: Control) {
    ctl.Sweep? || ctl.SweepOne? || (ctl.Leave? && ctl.e.req.Disconnect?)
  }

  /** The files that the sweep has not yet unlocked again. */
  function Remaining(ctl: Control): set<Fid> {
    match ctl
    case Sweep(_, todo) => Elems(todo)
    case SweepOne(_, todo, cur) => Elems(todo) + {cur}
    case _ => {}
  }

  /** The stored files behind the sweep count no reader, lost or not. */
  ghost predicate SweptClear(g: G) {
    forall t: Tid, f | Sweeping(Th(g.threads, t).ctl) && f in g.d.table.Values && f in g.locks ::
      f in Remaining(Th(g.threads, t).ctl) || g.locks[f].nReaders == 0
  }

  /** Whoever is not on the way in counts no reader in. */
  lemma NobodyCountsIn(l: R.Lock, u: Tid, l': R.Lock)
    requires Uses(l, u, l') && !R.Asks(R.At(l, u))
    ensures l'.nReaders <= l.nReaders
  {
    if l' != l {
      var a :| R.Enabled(l, u, a) && l' == R.Do(l, u, a);
      R.StepCounters(l, u, a);
    }
  }

  lemma ReadersAreCounted(g: G, f: Fid)
    requires Struct(g) && f in g.locks
    ensures g.locks[f].nReaders >= g.locks[f].lost
  {
    R.ReachableInv(g.locks[f]);
  }

  /** A step in which its thread is not on the way into the lock of `f` leaves it as clear as it was. */
  lemma StaysClear(cfg: Config, g: G, u: Tid, c: Choice, g': G, f: Fid)
    requires GInv(cfg, g) && GInv(cfg, g') && Step(cfg, g, u, c) == Some(g') && f in g.locks && f in g'.locks
    requires g.locks[f].nReaders == 0 && !R.Asks(R.At(g.locks[f], u))
    ensures g'.locks[f].nReaders == 0
  {
    FreshIsNew(g);
    S.StepUses(cfg, g, u, c, g', f);
    NobodyCountsIn(g.locks[f], u, g'.locks[f]);
    ReadersAreCounted(g', f);
  }

  /** A thread asks for the lock of its target only. */
  lemma AsksForTarget(g: G, t: Tid, f: Fid)
    requires Struct(g) && f in g.locks && Target(Th(g.threads, t).ctl) != Some(f)
    ensures !R.Asks(R.At(g.locks[f], t))
  {
    if R.Asks(R.At(g.locks[f], t)) {
      OnlyOwnerAcquires(g, t, f);
    }
  }

  /** How a thread gets to where it is in a sweep, other than by a step inside a lock call. */
  ghost predicate SweepsOn(g: G, t: Tid, g': G) {
    var ctl, ctl' := Th(g.threads, t).ctl, Th(g'.threads, t).ctl;
    && g'.d.table == g.d.table
    && (ctl.Lookup? || Sweeping(ctl))
    && (ctl.Lookup? ==> g.d.table.Values <= Remaining(ctl'))
    && (Sweeping(ctl) ==> Remaining(ctl') == if ctl.SweepOne? then Elems(ctl.todo) else Remaining(ctl))
  }

  lemma LookupSweeps(cfg: Config, g: G, t: Tid, c: Choice, req: Request, g': G)
    requires Th(g.threads, t) == Thread(Lookup(req), None) && LookupStep(cfg, g, t, c, req) == Some(g')
    requires Sweeping(Th(g'.threads, t).ctl)
    ensures SweepsOn(g, t, g')
  {
    if req.Disconnect? {
      assert Elems(c.order) == g.d.table.Values;
    }
  }

  lemma SweepGoesOn(g: G, t: Tid, c: Choice, req: Request, todo: seq<Fid>, g': G)
    requires Th(g.threads, t) == Thread(Sweep(req, todo), None) && SweepStep(g, t, c, req, todo) == Some(g')
    ensures SweepsOn(g, t, g')
  {
  }

  lemma SweepUnlocks(g: G, t: Tid, req: Request, todo: seq<Fid>, cur: Fid, g': G)
    requires Th(g.threads, t) == Thread(SweepOne(req, todo, cur), None)
    requires SweepOneStep(g, t, req, todo, cur) == Some(g')
    ensures SweepsOn(g, t, g')
  {
  }

  predicate ServesDisconnect(ctl: Control) {
    ProtocolSafety.Serving(ctl).Some? && ProtocolSafety.Serving(ctl).value.Disconnect?
  }

  /** The other control points serve other requests. */
  lemma DisconnectsSweep(cfg: Config, d: Data, s: State, ctl: Control)
    requires CtlData(cfg, d, s, ctl) && Critical(ctl)
    ensures ServesDisconnect(ctl) <==> Sweeping(ctl) || (ctl.Lookup? && ctl.req.Disconnect?)
  {
  }

  lemma OwnerSweeps(cfg: Config, g: G, t: Tid)
    requires GInv(cfg, g) && Critical(Th(g.threads, t).ctl)
    ensures var ctl := Th(g.threads, t).ctl;
            ServesDisconnect(ctl) <==> Sweeping(ctl) || (ctl.Lookup? && ctl.req.Disconnect?)
  {
    AtThread(g, t);
    DisconnectsSweep(cfg, g.d, Last(g.trace), Th(g.threads, t).ctl);
  }

  lemma SweepsFrom(cfg: Config, g: G, t: Tid, c: Choice, g': G)
    requires GInv(cfg, g) && GInv(cfg, g') && g.owner == Some(t) && Step(cfg, g, t, c) == Some(g')
    requires Th(g.threads, t).call == None && Sweeping(Th(g'.threads, t).ctl)
    ensures var ctl := Th(g.threads, t).ctl; ctl.Lookup? || ctl.Sweep? || ctl.SweepOne?
  {
    AtThread(g, t);
    OwnerSweeps(cfg, g', t);
    StepShape(cfg, g, t, c, g');
    OwnerSweeps(cfg, g, t);
  }

  lemma StepSweeps(cfg: Config, g: G, t: Tid, c: Choice, g': G)
    requires GInv(cfg, g) && GInv(cfg, g') && g.owner == Some(t) && Step(cfg, g, t, c) == Some(g')
    requires Th(g.threads, t).call == None && Sweeping(Th(g'.threads, t).ctl)
    ensures SweepsOn(g, t, g')
  {
    SweepsFrom(cfg, g, t, c, g');
    match Th(g.threads, t).ctl {
      case Lookup(req) => LookupSweeps(cfg, g, t, c, req, g');
      case Sweep(req, todo) => SweepGoesOn(g, t, c, req, todo, g');
      case SweepOne(req, todo, cur) => SweepUnlocks(g, t, req, todo, cur, g');
    }
  }

  /** The file a sweep is about to unlock is its own. */
  lemma CurrentIsClear(g: G, t: Tid)
    requires Struct(g) && Th(g.threads, t).ctl.SweepOne? && Th(g.threads, t).call == None
    ensures var cur := Th(g.threads, t).ctl.cur; cur in g.locks ==> g.locks[cur].nReaders == 0
  {
    var cur := Th(g.threads, t).ctl.cur;
    if cur in g.locks {
      HeldAs(g.threads, g.locks, t, cur);
      R.ReachableInv(g.locks[cur]);
      R.MemberOfCounted(g.locks[cur], t, true);
    }
  }

  /** Steps of others, and steps inside lock calls. */
  lemma ClearOutside(cfg: Config, g: G, u: Tid, c: Choice, g': G, t: Tid, f: Fid)
    requires GInv(cfg, g) && GInv(cfg, g') && SweptClear(g) && Step(cfg, g, u, c) == Some(g')
    requires g.owner == Some(t) && (u != t || Th(g.threads, u).call.Some?)
    requires Th(g'.threads, t).ctl == Th(g.threads, t).ctl && g'.d == g.d
    requires Sweeping(Th(g'.threads, t).ctl) && f in g'.d.table.Values && f in g'.locks
    requires f !in Remaining(Th(g'.threads, t).ctl)
    ensures g'.locks[f].nReaders == 0
  {
    S.StoredIsAlive(g, f);
    if u != t && R.Asks(R.At(g.locks[f], u)) {
      OnlyOwnerAcquires(g, u, f);
    }
    if u == t {
      AsksForTarget(g, t, f);
    }
    StaysClear(cfg, g, u, c, g', f);
  }

  /** Steps of the sweep itself. */
  lemma ClearAlong(cfg: Config, g: G, t: Tid, c: Choice, g': G, f: Fid)
    requires GInv(cfg, g) && GInv(cfg, g') && SweptClear(g) && Step(cfg, g, t, c) == Some(g')
    requires SweepsOn(g, t, g') && Th(g.threads, t).call == None
    requires f in g'.d.table.Values && f in g'.locks && f !in Remaining(Th(g'.threads, t).ctl)
    ensures g'.locks[f].nReaders == 0
  {
    S.StoredIsAlive(g, f);
    ClearBehind(g, t, g', f);
    NotAsking(g, t, f);
    StaysClear(cfg, g, t, c, g', f);
  }

  /** What the sweep is done with after the step was clear before it. */
  lemma ClearBehind(g: G, t: Tid, g': G, f: Fid)
    requires Struct(g) && SweptClear(g) && SweepsOn(g, t, g') && Th(g.threads, t).call == None
    requires f in g.d.table.Values && f in g.locks && f !in Remaining(Th(g'.threads, t).ctl)
    ensures g.locks[f].nReaders == 0
  {
    if Th(g.threads, t).ctl.SweepOne? && f == Th(g.threads, t).ctl.cur {
      CurrentIsClear(g, t);
    }
  }

  /** Outside lock calls nobody is on the way into a lock. */
  lemma NotAsking(g: G, t: Tid, f: Fid)
    requires Struct(g) && f in g.locks && Th(g.threads, t).call != Some(f)
    ensures !R.Asks(R.At(g.locks[f], t))
  {
    HeldAs(g.threads, g.locks, t, f);
  }

  /** Others, and lock calls, leave the owner where it is. */
  lemma OwnerStands(cfg: Config, g: G, u: Tid, c: Choice, g': G, t: Tid)
    requires GInv(cfg, g) && Step(cfg, g, u, c) == Some(g') && g.owner == Some(t)
    requires u != t || Th(g.threads, u).call.Some?
    ensures Th(g'.threads, t).ctl == Th(g.threads, t).ctl && g'.d == g.d
  {
    AtThread(g, u);
    OutsideData(cfg, g, u, c, g');
    StepShape(cfg, g, u, c, g');
  }

  /** Only the owner of `files_mtx` starts on a sweep. */
  lemma SweeperOwns(cfg: Config, g: G, u: Tid, c: Choice, g': G, t: Tid)
    requires GInv(cfg, g) && GInv(cfg, g') && Step(cfg, g, u, c) == Some(g') && Sweeping(Th(g'.threads, t).ctl)
    ensures g.owner == Some(t)
  {
    AtThread(g, t);
    OwnerSweeps(cfg, g', t);
    StepShape(cfg, g, u, c, g');
    if u == t && Th(g.threads, t).ctl.WantFiles? {
      EntersLookup(cfg, g, t, c, g');
    }
  }

  lemma EntersLookup(cfg: Config, g: G, t: Tid, c: Choice, g': G)
    requires Step(cfg, g, t, c) == Some(g') && Th(g.threads, t).ctl.WantFiles?
    ensures Th(g'.threads, t).ctl.Lookup? || Th(g'.threads, t).ctl.WantFiles?
  {
  }

  lemma OneStaysClear(cfg: Config, g: G, u: Tid, c: Choice, g': G, t: Tid, f: Fid)
    requires GInv(cfg, g) && GInv(cfg, g') && SweptClear(g) && Step(cfg, g, u, c) == Some(g')
    requires Sweeping(Th(g'.threads, t).ctl) && f in g'.d.table.Values && f in g'.locks
    requires f !in Remaining(Th(g'.threads, t).ctl)
    ensures g'.locks[f].nReaders == 0
  {
    SweeperOwns(cfg, g, u, c, g', t);
    if u != t || Th(g.threads, u).call.Some? {
      OwnerStands(cfg, g, u, c, g', t);
      ClearOutside(cfg, g, u, c, g', t, f);
    } else {
      StepSweeps(cfg, g, t, c, g');
      ClearAlong(cfg, g, t, c, g', f);
    }
  }

  lemma {:induction false} SweptIsClear(cfg: Config, r: Run)
    requires Happens(cfg, r)
    ensures SweptClear(End(r))
  {
    if r.Moved? {
      SweptIsClear(cfg, r.before);
      RunKeepsGInv(cfg, r.before);
      RunKeepsGInv(cfg, r);
      forall t: Tid, f | Sweeping(Th(End(r).threads, t).ctl) && f in End(r).d.table.Values && f in End(r).locks
        ensures f in Remaining(Th(End(r).threads, t).ctl) || End(r).locks[f].nReaders == 0
      {
        if f !in Remaining(Th(End(r).threads, t).ctl) {
          OneStaysClear(cfg, End(r.before), r.who, r.choice, r.g, t, f);
        }
      }
    }
  }

  // -------------------------------------------------------------------- the conclusion

  /** The closing of a client joins the trace. */
  predicate Closes(g: G, t: Tid) {
    Releasing(Th(g.threads, t)) && Th(g.threads, t).ctl.e.req.Disconnect?
  }

  /** Once the send of a read has failed no client is closed any more. */
  lemma NoCloseAfterFailure(cfg: Config, r: Run, t: Tid)
    requires Happens(cfg, r) && ReadSendFailed(r)
    ensures !Closes(End(r), t)
  {
    if Closes(End(r), t) {
      var f := FailedLeavesLoss(cfg, r);
      LosersAreStored(cfg, r, f);
      SweptIsClear(cfg, r);
      RunKeepsGInv(cfg, r);
      ReadersAreCounted(End(r), f);
    }
  }

  /** How many clients have been closed. */
  function Closings(tr: Trace): nat {
    if tr.Start? then 0 else Closings(tr.before) + Bit(tr.event.req.Disconnect?)
  }

  /** The history has no more closings after the failure than before. */
  lemma {:induction false} ClosingsStop(cfg: Config, r: Run, early: Run)
    requires Happens(cfg, r) && Extends(r, early) && ReadSendFailed(early)
    ensures ReadSendFailed(r) && Closings(End(r).trace) == Closings(End(early).trace)
    decreases r
  {
    if r != early {
      ClosingsStop(cfg, r.before, early);
      NoCloseAfterFailure(cfg, r.before, r.who);
      StepShape(cfg, End(r.before), r.who, r.choice, r.g);
    }
  }

  /** A thread that closes a client holds `files_mtx`. */
  predicate ClosingHeld(g: G, t: Tid) {
    g.owner == Some(t) && ServesDisconnect(Th(g.threads, t).ctl)
  }

  /** The first thread to close a client after the failure keeps `files_mtx` for ever. */
  lemma {:induction false} CloserKeepsMutex(cfg: Config, r: Run, early: Run, t: Tid)
    requires Happens(cfg, r) && Extends(r, early) && ReadSendFailed(early) && ClosingHeld(End(early), t)
    ensures ReadSendFailed(r) && ClosingHeld(End(r), t) && End(r).trace == End(early).trace
    decreases r
  {
    if r != early {
      CloserKeepsMutex(cfg, r.before, early, t);
      var g := End(r.before);
      RunKeepsGInv(cfg, r.before);
      RunKeepsGInv(cfg, r);
      NoCloseAfterFailure(cfg, r.before, t);
      OwnerStaysOrReleases(cfg, g, t, r.who, r.choice, r.g);
      AtThread(g, t);
      AtThread(g, r.who);
      AtThread(r.g, t);
      StepShape(cfg, g, r.who, r.choice, r.g);
    }
  }

  /** Some continuation without a further failed send closes a client. */
  ghost predicate CanClose(cfg: Config, r: Run) {
    exists r', t: Tid :: Happens(cfg, r') && Extends(r', r) && NoNewFailure(r', r) && Closes(End(r'), t)
  }

  lemma {:induction false} NoFailureYet(r: Run, early: Run)
    requires Extends(r, early) && !ReadSendFailed(r)
    ensures NoNewFailure(r, early)
  {
    if r != early {
      NoFailureYet(r.before, early);
    }
  }

  lemma NeverCloses(cfg: Config, r: Run)
    requires Happens(cfg, r) && ReadSendFailed(r)
    ensures forall r', u: Tid | Happens(cfg, r') && Extends(r', r) :: !Closes(End(r'), u)
  {
    forall r', u: Tid | Happens(cfg, r') && Extends(r', r) ensures !Closes(End(r'), u) {
      ClosingsStop(cfg, r', r);
      NoCloseAfterFailure(cfg, r', u);
    }
  }

  /** The exact condition: a server at rest can close a client if and only if no send of a read has failed. */
  lemma ClosesIffNotFailed(cfg: Config, r: Run, t: Tid, fd: Fd)
    requires Happens(cfg, r) && AtRest(End(r))
    ensures CanClose(cfg, r) <==> !ReadSendFailed(r)
  {
    if ReadSendFailed(r) {
      NeverCloses(cfg, r);
    } else {
      var r' := ReachesRelease(cfg, r, t, Disconnect(fd));
      NoFailureYet(r', r);
      assert Closes(End(r'), t);
    }
  }
}
