/**
  What a critical section leaves of the locks of stored files: the scans of the
  eviction lock and unlock every expellable file, and in the end no surviving
  file's lock is any different for it.
 */
module ProtocolScan {
  import opened Basics
  import opened StoreSpec
  import opened StoreRuns
  import opened Protocol
  import opened ProtocolInv
  import opened ProtocolLocks
  import opened ProtocolRuns
  import opened ProtocolSafety
  import opened ProtocolBudget
  import opened ProtocolLoss
  import R = RwLock

  // ------------------------------------------------------------- one step, one lock

  lemma InnerUses(cfg: Config, g: G, u: Tid, c: Choice, g': G, f: Fid)
    requires Th(g.threads, u).call.Some? && f in g.locks && f in g'.locks
    requires InnerStep(g, u, c, Th(g.threads, u).ctl, Th(g.threads, u).call.value) == Some(g')
    ensures Uses(g.locks[f], u, g'.locks[f])
  {
  }

  lemma LockedUses(cfg: Config, g: G, u: Tid, c: Choice, req: Request, h: Fid, g': G, f: Fid)
    requires Th(g.threads, u) == Thread(Locked(req, h), None) && f in g.locks && f in g'.locks
    requires LockedStep(cfg, g, u, c, req, h) == Some(g')
    ensures Uses(g.locks[f], u, g'.locks[f])
  {
    if req.Write? || req.Append? {
      var file := g.d.files[h];
      var grown := if req.Write? then Written(file, req.data, c.t1) else Extended(file, req.data, c.t1);
      if GrowStep(cfg, g, u, c, req, h, grown, |req.data|) == Some(g') {
        GrowUses(cfg, g, u, c, req, h, grown, |req.data|, g', f);
      }
    }
  }

  lemma GrowUses(cfg: Config, g: G, u: Tid, c: Choice, req: Request, h: Fid, grown: File, added: nat, g': G, f: Fid)
    requires f in g.locks && f in g'.locks && GrowStep(cfg, g, u, c, req, h, grown, added) == Some(g')
    ensures Uses(g.locks[f], u, g'.locks[f])
  {
  }

  lemma ScanUses(cfg: Config, g: G, u: Tid, c: Choice, job: Job, todo: seq<Fid>, best: Option<Fid>, g': G, f: Fid)
    requires f in g.locks && f in g'.locks && ScanStep(cfg, g, u, c, job, todo, best) == Some(g')
    ensures Uses(g.locks[f], u, g'.locks[f])
  {
  }

  /** A step leaves a lock alone or is one action of its thread on it. */
  lemma StepUses(cfg: Config, g: G, u: Tid, c: Choice, g': G, f: Fid)
    requires Step(cfg, g, u, c) == Some(g') && f in g.locks && f in g'.locks && g.next !in g.locks
    ensures Uses(g.locks[f], u, g'.locks[f])
  {
    var th := Th(g.threads, u);
    if th.call.Some? {
      InnerUses(cfg, g, u, c, g', f);
    } else if th.ctl.Locked? {
      LockedUses(cfg, g, u, c, th.ctl.req, th.ctl.f, g', f);
    } else if th.ctl.Scan? {
      ScanUses(cfg, g, u, c, th.ctl.job, th.ctl.todo, th.ctl.best, g', f);
    }
  }

  // ---------------------------------------------------------------------- readers

  /** The readers counted in a lock, `t` itself left out. */
  function OthersReading(l: R.Lock, t: Tid): int {
    l.nReaders - Bit(R.CountsAs(R.At(l, t), false))
  }

  /** `u` counts itself out as a reader. */
  predicate CountsOut(l: R.Lock, u: Tid, l': R.Lock) {
    l' != l && R.At(l, u) == R.UnCount(false)
  }

  /** While `t` alone asks for locks, other readers only leave. */
  lemma LockReaders(l: R.Lock, u: Tid, t: Tid, l': R.Lock)
    requires Uses(l, u, l') && (u == t ==> l'.lost == l.lost) && (u != t ==> !R.Asks(R.At(l, u)))
    ensures OthersReading(l', t) == OthersReading(l, t) - Bit(u != t && CountsOut(l, u, l'))
  {
    if l' != l {
      var a :| R.Enabled(l, u, a) && l' == R.Do(l, u, a);
      R.StepCounters(l, u, a);
      if u != t {
        R.OthersStand(l, u, a, t);
      }
    }
  }

  /** How many times since `early` another thread has unlocked `f` as a reader. */
  function ReaderUnlocks(r: Run, early: Run, t: Tid, f: Fid): int {
    if r == early || r.Boot? then 0
    else
      var g, g' := End(r.before), r.g;
      ReaderUnlocks(r.before, early, t, f)
      + Bit(r.who != t && f in g.locks && f in g'.locks && CountsOut(g.locks[f], r.who, g'.locks[f]))
  }

  lemma {:induction false} NextGrows(cfg: Config, r: Run, early: Run)
    requires Happens(cfg, r) && Extends(r, early)
    ensures End(early).next <= End(r).next
  {
    if r != early {
      NextGrows(cfg, r.before, early);
      StepObjects(cfg, End(r.before), r.who, r.choice, r.g);
    }
  }

  lemma {:induction false} OwnsExtends(r: Run, early: Run, t: Tid)
    requires OwnsSince(r, early, t)
    ensures Extends(r, early)
  {
    if r != early {
      OwnsExtends(r.before, early, t);
    }
  }

  /** An object alive at two stages is alive in between. */
  lemma AliveBefore(cfg: Config, r: Run, early: Run, f: Fid)
    requires Happens(cfg, r) && r.Moved? && Extends(r.before, early) && f in End(early).locks && f in End(r).locks
    requires Happens(cfg, early)
    ensures f in End(r.before).locks
  {
    RunKeepsGInv(cfg, early);
    NextGrows(cfg, r.before, early);
    StepObjects(cfg, End(r.before), r.who, r.choice, r.g);
    assert f !in End(r).locks.Keys - End(r.before).locks.Keys;
  }

  lemma StepReaders(cfg: Config, g: G, t: Tid, u: Tid, c: Choice, g': G, f: Fid)
    requires GInv(cfg, g) && g.owner == Some(t) && Step(cfg, g, u, c) == Some(g') && f in g.locks && f in g'.locks
    ensures OthersReading(g'.locks[f], t) ==
            OthersReading(g.locks[f], t) - Bit(u != t && CountsOut(g.locks[f], u, g'.locks[f]))
  {
    FreshIsNew(g);
    StepUses(cfg, g, u, c, g', f);
    if u == t {
      AtThread(g, t);
      StepKeepsLost(cfg, g, t, c, g');
    } else if R.Asks(R.At(g.locks[f], u)) {
      OnlyOwnerAcquires(g, u, f);
    }
    LockReaders(g.locks[f], u, t, g'.locks[f]);
  }

  /** During a critical section the other readers of a file change by their own unlocks only. */
  lemma {:induction false} ReadersOnlyLeave(cfg: Config, r: Run, early: Run, t: Tid, f: Fid)
    requires Happens(cfg, r) && Happens(cfg, early) && OwnsSince(r, early, t)
    requires f in End(early).locks && f in End(r).locks
    ensures OthersReading(End(r).locks[f], t) == OthersReading(End(early).locks[f], t) - ReaderUnlocks(r, early, t, f)
  {
    if r != early {
      OwnsExtends(r.before, early, t);
      AliveBefore(cfg, r, early, f);
      ReadersOnlyLeave(cfg, r.before, early, t, f);
      RunKeepsGInv(cfg, r.before);
      StepReaders(cfg, End(r.before), t, r.who, r.choice, r.g, f);
    }
  }

  // ---------------------------------------------------------------------- writers

  /** Unlocking as a reader. */
  predicate Quits(p: R.Pc) {
    p == R.UnWant(false) || p == R.UnCount(false) || p == R.UnDrop(false)
  }

  /** Outside critical sections a thread in a lock call is unlocking as a reader. */
  ghost predicate OutCallsRead(g: G) {
    forall u: Tid, f | Th(g.threads, u).call == Some(f) && f in g.locks && !Critical(Th(g.threads, u).ctl) ::
      Quits(R.At(g.locks[f], u))
  }

  lemma OutsideStarts(cfg: Config, g: G, u: Tid, c: Choice, g': G)
    requires Step(cfg, g, u, c) == Some(g') && Th(g.threads, u).call == None && !Critical(Th(g.threads, u).ctl)
    requires Th(g'.threads, u).call.Some? && !Critical(Th(g'.threads, u).ctl)
    ensures var ctl := Th(g.threads, u).ctl;
            && ctl.Finish? && ctl.send != [] && Th(g'.threads, u).call == Some(ctl.send[0])
            && CanBegin(g, u, ctl.send[0], R.Release)
            && g'.locks == g.locks[ctl.send[0] := R.Do(g.locks[ctl.send[0]], u, R.Release)]
  {
  }

  /** A call begun outside a critical section unlocks what was read. */
  lemma StartsQuit(cfg: Config, g: G, u: Tid, c: Choice, g': G, f: Fid)
    requires GInv(cfg, g) && Step(cfg, g, u, c) == Some(g') && Th(g.threads, u).call == None
    requires Th(g'.threads, u).call == Some(f) && f in g'.locks && !Critical(Th(g'.threads, u).ctl)
    ensures Quits(R.At(g'.locks[f], u))
  {
    AtThread(g, u);
    if Critical(Th(g.threads, u).ctl) {
      if Th(g.threads, u).ctl.Leave? {
        StepShape(cfg, g, u, c, g');
      } else {
        StepSpends(cfg, g, u, c, g');
      }
    } else {
      OutsideQuits(cfg, g, u, c, g', f);
    }
  }

  lemma OutsideQuits(cfg: Config, g: G, u: Tid, c: Choice, g': G, f: Fid)
    requires Struct(g) && Step(cfg, g, u, c) == Some(g')
    requires Th(g.threads, u).call == None && !Critical(Th(g.threads, u).ctl)
    requires Th(g'.threads, u).call == Some(f) && f in g'.locks && !Critical(Th(g'.threads, u).ctl)
    ensures Quits(R.At(g'.locks[f], u))
  {
    OutsideStarts(cfg, g, u, c, g');
    AtThread(g, u);
    assert f in Elems(Th(g.threads, u).ctl.send);
    HeldAs(g.threads, g.locks, u, f);
  }

  lemma GoesOnQuitting(cfg: Config, g: G, u: Tid, c: Choice, g': G, f: Fid)
    requires Th(g.threads, u).call == Some(f) && f in g.locks && Quits(R.At(g.locks[f], u))
    requires Step(cfg, g, u, c) == Some(g') && Th(g'.threads, u).call == Some(f)
    ensures Quits(R.At(g'.locks[f], u))
  {
  }

  lemma StepKeepsOutCalls(cfg: Config, g: G, u: Tid, c: Choice, g': G)
    requires GInv(cfg, g) && GInv(cfg, g') && OutCallsRead(g) && Step(cfg, g, u, c) == Some(g')
    ensures OutCallsRead(g')
  {
    StepShape(cfg, g, u, c, g');
    FreshIsNew(g);
    forall v: Tid, f | Th(g'.threads, v).call == Some(f) && f in g'.locks && !Critical(Th(g'.threads, v).ctl)
      ensures Quits(R.At(g'.locks[f], v))
    {
      OneOutCall(cfg, g, u, c, g', v, f);
    }
  }

  lemma OneOutCall(cfg: Config, g: G, u: Tid, c: Choice, g': G, v: Tid, f: Fid)
    requires GInv(cfg, g) && OutCallsRead(g) && Step(cfg, g, u, c) == Some(g')
    requires v != u ==> Th(g'.threads, v) == Th(g.threads, v)
    requires Th(g'.threads, v).call == Some(f) && f in g'.locks && !Critical(Th(g'.threads, v).ctl)
    ensures Quits(R.At(g'.locks[f], v))
  {
    AtThread(g, v);
    if v != u {
      FreshIsNew(g);
      StepUses(cfg, g, u, c, g', f);
      StandsQuitting(g.locks[f], u, g'.locks[f], v);
    } else if Th(g.threads, u).call == None {
      StartsQuit(cfg, g, u, c, g', f);
    } else {
      InnerKeepsCall(cfg, g, u, c, g');
      GoesOnQuitting(cfg, g, u, c, g', f);
    }
  }

  lemma InnerKeepsCall(cfg: Config, g: G, u: Tid, c: Choice, g': G)
    requires Th(g.threads, u).call.Some? && Step(cfg, g, u, c) == Some(g')
    ensures Th(g'.threads, u).ctl == Th(g.threads, u).ctl
    ensures Th(g'.threads, u).call.Some? ==> Th(g'.threads, u).call == Th(g.threads, u).call
  {
  }

  lemma StandsQuitting(l: R.Lock, u: Tid, l': R.Lock, v: Tid)
    requires Uses(l, u, l') && v != u && Quits(R.At(l, v))
    ensures Quits(R.At(l', v))
  {
    if l' != l {
      var a :| R.Enabled(l, u, a) && l' == R.Do(l, u, a);
      R.OthersStand(l, u, a, v);
    }
  }

  lemma {:induction false} OutCallsAlwaysRead(cfg: Config, r: Run)
    requires Happens(cfg, r)
    ensures OutCallsRead(End(r))
  {
    if r.Moved? {
      OutCallsAlwaysRead(cfg, r.before);
      RunKeepsGInv(cfg, r.before);
      RunKeepsGInv(cfg, r);
      StepKeepsOutCalls(cfg, End(r.before), r.who, r.choice, r.g);
    }
  }

  /** While `t` owns `files_mtx` nobody else writes a stored file. */
  lemma NoForeignWriter(cfg: Config, g: G, t: Tid, u: Tid, f: Fid)
    requires Struct(g) && OutCallsRead(g) && g.owner == Some(t) && u != t && f in g.locks && f in g.d.table.Values
    ensures !R.CountsAs(R.At(g.locks[f], u), true)
  {
    AtThread(g, u);
    assert Fits(Th(g.threads, u), f, R.At(g.locks[f], u));
    assert Wr(Th(g.threads, u).ctl) <= Loose(Th(g.threads, u).ctl);
  }

  // -------------------------------------------------------------- before and after

  /** `t` is out of the lock, or only has its own unlock to finish. */
  predicate LetsGo(g: G, t: Tid, f: Fid)
    requires f in g.locks
  {
    if Th(g.threads, t).call == Some(f)
    then PlaceOf(R.At(g.locks[f], t)) == Leaving
    else R.At(g.locks[f], t) == R.Out
  }

  /** About to release `files_mtx` with nothing to send, a thread has let go of every stored file. */
  lemma LeavesNoLocks(g: G, t: Tid, f: Fid)
    requires Struct(g) && Th(g.threads, t).ctl.Leave? && Th(g.threads, t).ctl.send == []
    requires f in g.locks && f in g.d.table.Values
    ensures LetsGo(g, t, f)
  {
    AtThread(g, t);
    assert Fits(Th(g.threads, t), f, R.At(g.locks[f], t));
  }

  /** Nobody writes a stored file that the owner of `files_mtx` is out of. */
  lemma NobodyWrites(cfg: Config, g: G, t: Tid, f: Fid)
    requires Struct(g) && OutCallsRead(g) && g.owner == Some(t) && f in g.locks && f in g.d.table.Values
    requires R.At(g.locks[f], t) == R.Out
    ensures g.locks[f].nWriters == 0
  {
    R.ReachableInv(g.locks[f]);
    forall u: Tid ensures u !in R.Counted(g.locks[f], true) {
      R.MemberOfCounted(g.locks[f], u, true);
      if u != t {
        NoForeignWriter(cfg, g, t, u, f);
      }
    }
    assert R.Counted(g.locks[f], true) == {};
  }

  /** Nothing is sent in answer to a creation, write or append: what is expelled goes its own way. */
  lemma EvictorsSendNothing(cfg: Config, g: G, t: Tid)
    requires GInv(cfg, g) && g.owner == Some(t) && Th(g.threads, t).ctl.Leave?
    requires var req := Th(g.threads, t).ctl.e.req; req.Open? || req.Write? || req.Append?
    ensures Th(g.threads, t).ctl.send == []
  {
    AtThread(g, t);
    var Leave(e, send, doomed) := Th(g.threads, t).ctl;
    assert CtlData(cfg, g.d, Last(g.trace), Leave(e, send, doomed));
    SendsNothing(cfg, Last(g.trace), e, Abs(g.d));
  }

  lemma SendsNothing(cfg: Config, s: State, e: Event, s': State)
    requires Next(cfg, s, e, s') && (e.req.Open? || e.req.Write? || e.req.Append?)
    ensures e.reply.sent == []
  {
  }

  /**
    The scans leave no trace in the locks of the survivors: from the moment `t`
    takes `files_mtx` for a creation, write or append, through every hand-over-hand
    scan and expulsion, to the moment it is about to release it, a file that is
    stored at both ends has no writer at either, `t` is out of its lock at both
    (but for the end of its last unlock), and its reader count differs by exactly
    the unlocks of other threads' readers.
   */
  lemma SurvivorsAsBefore(cfg: Config, r: Run, early: Run, t: Tid, f: Fid)
    requires Happens(cfg, r) && OwnsSince(r, early, t)
    requires Th(End(early).threads, t).ctl.Lookup? && Th(End(early).threads, t).call == None
    requires Th(End(r).threads, t).ctl.Leave?
    requires var req := Th(End(r).threads, t).ctl.e.req; req.Open? || req.Write? || req.Append?
    requires f in End(early).d.table.Values && f in End(r).d.table.Values
    ensures f in End(early).locks && f in End(r).locks
    ensures R.At(End(early).locks[f], t) == R.Out && LetsGo(End(r), t, f)
    ensures End(early).locks[f].nWriters == 0
    ensures Th(End(r).threads, t).call != Some(f) ==> End(r).locks[f].nWriters == 0
    ensures Th(End(r).threads, t).call != Some(f) ==>
              End(r).locks[f].nReaders == End(early).locks[f].nReaders - ReaderUnlocks(r, early, t, f)
  {
    OwnedEarly(cfg, r, early, t);
    StoredAtRest(cfg, early, t, f);
    StoredAtLeave(cfg, r, t, f);
    ReadersOnlyLeave(cfg, r, early, t, f);
  }

  lemma {:induction false} OwnedEarly(cfg: Config, r: Run, early: Run, t: Tid)
    requires Happens(cfg, r) && OwnsSince(r, early, t)
    ensures Happens(cfg, early) && End(early).owner == Some(t)
    decreases r
  {
    if r != early {
      OwnedEarly(cfg, r.before, early, t);
    }
  }

  lemma StoredAtRest(cfg: Config, early: Run, t: Tid, f: Fid)
    requires Happens(cfg, early) && End(early).owner == Some(t) && f in End(early).d.table.Values
    requires Th(End(early).threads, t).ctl.Lookup? && Th(End(early).threads, t).call == None
    ensures f in End(early).locks && R.At(End(early).locks[f], t) == R.Out && End(early).locks[f].nWriters == 0
  {
    RunKeepsGInv(cfg, early);
    OutCallsAlwaysRead(cfg, early);
    StoredIsAlive(End(early), f);
    HeldAs(End(early).threads, End(early).locks, t, f);
    NobodyWrites(cfg, End(early), t, f);
  }

  lemma StoredIsAlive(g: G, f: Fid)
    requires Struct(g) && f in g.d.table.Values
    ensures f in g.locks
  {
    var p :| p in g.d.table && g.d.table[p] == f;
  }

  lemma StoredAtLeave(cfg: Config, r: Run, t: Tid, f: Fid)
    requires Happens(cfg, r) && End(r).owner == Some(t) && f in End(r).d.table.Values
    requires Th(End(r).threads, t).ctl.Leave?
    requires var req := Th(End(r).threads, t).ctl.e.req; req.Open? || req.Write? || req.Append?
    ensures f in End(r).locks && LetsGo(End(r), t, f)
    ensures Th(End(r).threads, t).call != Some(f) ==> End(r).locks[f].nWriters == 0
  {
    RunKeepsGInv(cfg, r);
    OutCallsAlwaysRead(cfg, r);
    StoredIsAlive(End(r), f);
    EvictorsSendNothing(cfg, End(r), t);
    LeavesNoLocks(End(r), t, f);
    if Th(End(r).threads, t).call != Some(f) {
      NobodyWrites(cfg, End(r), t, f);
    }
  }
}
