/** Every primitive of the protocol keeps the structural invariant. */
module ProtocolLocks {
  import opened Basics
  import opened StoreSpec
  import opened Protocol
  import opened ProtocolInv
  import R = RwLock

  // ------------------------------------------------------------- who holds what

  /** Outside a call on `f`, the lock knows exactly what the handler holds. */
  lemma HeldAs(threads: map<Tid, Thread>, locks: map<Fid, R.Lock>, t: Tid, f: Fid)
    requires FitOk(threads, locks) && f in locks && Th(threads, t).call != Some(f)
    ensures PlaceOf(R.At(locks[f], t)) == Wanted(Th(threads, t), f)
    ensures f in Wr(Th(threads, t).ctl) ==> R.At(locks[f], t) == R.Holds(true)
    ensures f !in Wr(Th(threads, t).ctl) && f in Rd(Th(threads, t).ctl) ==> R.At(locks[f], t) == R.Holds(false)
  {
    assert Fits(Th(threads, t), f, R.At(locks[f], t));
  }

  lemma AtThread(g: G, t: Tid)
    requires Struct(g)
    ensures ThreadOk(Th(g.threads, t), t, g.locks.Keys, g.owner, g.d.table.Values, g.d.files)
  {
  }

  /** Only the owner of `files_mtx` is ever on its way into a lock. */
  lemma OnlyOwnerAcquires(g: G, t: Tid, f: Fid)
    requires Struct(g) && f in g.locks && R.Asks(R.At(g.locks[f], t))
    ensures g.owner == Some(t)
    ensures Th(g.threads, t).call == Some(f) == Target(Th(g.threads, t).ctl)
  {
    assert Fits(Th(g.threads, t), f, R.At(g.locks[f], t));
    AtThread(g, t);
  }

  /**
    A file that `t` holds as a writer concerns nobody else, except that the owner
    of `files_mtx` may be queueing for it.
   */
  lemma WriterExcludes(g: G, t: Tid, f: Fid, u: Tid)
    requires Struct(g) && f in g.locks && u != t && R.At(g.locks[f], t) == R.Holds(true)
    ensures R.At(g.locks[f], u) == R.Out
         || (g.owner == Some(u) && Th(g.threads, u).call == Some(f) == Target(Th(g.threads, u).ctl))
    ensures g.locks[f].lost == 0
  {
    R.ReachableInv(g.locks[f]);
    R.BesideWriter(g.locks[f], t, u);
    if R.Asks(R.At(g.locks[f], u)) {
      OnlyOwnerAcquires(g, u, f);
    }
  }

  /** Being out of a lock means not referring to it. */
  lemma OutIsUnreferenced(g: G, u: Tid, f: Fid)
    requires Struct(g) && f in g.locks && R.At(g.locks[f], u) == R.Out
    ensures f !in Refs(Th(g.threads, u))
  {
    assert Fits(Th(g.threads, u), f, R.At(g.locks[f], u));
  }

  // ------------------------------------------------------------ locks and places

  /** The handler's new place: holding `f` after an acquire, without it after a release. */
  predicate Calls(ctl0: Control, f: Fid, a: R.Action, ctl: Control) {
    && (a.Acquire? || a.Release?)
    && Wr(ctl) == (if a.Acquire? && a.w then Wr(ctl0) + {f} else if a.Acquire? then Wr(ctl0) else Wr(ctl0) - {f})
    && Rd(ctl) == (if a.Acquire? && !a.w then Rd(ctl0) + {f} else if a.Acquire? then Rd(ctl0) else Rd(ctl0) - {f})
  }

  lemma BeginFits(th: Thread, l: R.Lock, t: Tid, f: Fid, a: R.Action, ctl: Control)
    requires th.call == None && Fits(th, f, R.At(l, t)) && R.Enabled(l, t, a) && Calls(th.ctl, f, a, ctl)
    ensures Fits(Thread(ctl, Some(f)), f, R.At(R.Do(l, t, a), t))
  {
  }

  lemma InnerFits(th: Thread, l: R.Lock, t: Tid, f: Fid, a: R.Action)
    requires th.call == Some(f) && Fits(th, f, R.At(l, t)) && R.Enabled(l, t, a)
    requires a.Advance? || a.Spurious?
    ensures Fits(Thread(th.ctl, if R.InCall(R.At(R.Do(l, t, a), t)) then Some(f) else None), f, R.At(R.Do(l, t, a), t))
  {
  }

  lemma ElsewhereFits(th: Thread, f: Fid, a: R.Action, ctl: Control, h: Fid, p: R.Pc)
    requires th.call == None && Calls(th.ctl, f, a, ctl) && h != f && Fits(th, h, p)
    ensures Fits(Thread(ctl, Some(f)), h, p)
  {
    assert h in Wr(ctl) <==> h in Wr(th.ctl);
    assert h in Rd(ctl) <==> h in Rd(th.ctl);
  }

  /** Others fit as before: a signal moves a sleeper only from one waiting place to the next. */
  lemma OthersFit(th: Thread, l: R.Lock, t: Tid, f: Fid, a: R.Action, u: Tid)
    requires u != t && R.Enabled(l, t, a) && Fits(th, f, R.At(l, u))
    ensures Fits(th, f, R.At(R.Do(l, t, a), u))
  {
    R.OthersStand(l, t, a, u);
  }

  /** A step of one lock's users keeps every lock's invariant. */
  lemma StepKeepsLocks(locks: map<Fid, R.Lock>, t: Tid, f: Fid, a: R.Action)
    requires LocksOk(locks) && f in locks && R.Enabled(locks[f], t, a)
    ensures LocksOk(locks[f := R.Do(locks[f], t, a)])
  {
    R.StepReachable(locks[f], t, a);
  }

  /** Starting a lock or unlock call. */
  lemma BeginKeepsFit(threads: map<Tid, Thread>, locks: map<Fid, R.Lock>, t: Tid, f: Fid, a: R.Action, ctl: Control)
    requires FitOk(threads, locks) && f in locks && R.Enabled(locks[f], t, a)
    requires Th(threads, t).call == None && Calls(Th(threads, t).ctl, f, a, ctl)
    ensures FitOk(threads[t := Thread(ctl, Some(f))], locks[f := R.Do(locks[f], t, a)])
  {
    var threads', locks' := threads[t := Thread(ctl, Some(f))], locks[f := R.Do(locks[f], t, a)];
    forall u: Tid, h | h in locks' ensures Fits(Th(threads', u), h, R.At(locks'[h], u)) {
      assert Fits(Th(threads, u), h, R.At(locks[h], u));
      if h == f && u != t {
        OthersFit(Th(threads, u), locks[f], t, f, a, u);
      } else if h == f {
        BeginFits(Th(threads, t), locks[f], t, f, a, ctl);
      } else if u == t {
        ElsewhereFits(Th(threads, t), f, a, ctl, h, R.At(locks[h], t));
      }
    }
  }

  /** One step inside a lock or unlock call. */
  lemma InnerKeepsFit(threads: map<Tid, Thread>, locks: map<Fid, R.Lock>, t: Tid, f: Fid, a: R.Action, th: Thread)
    requires FitOk(threads, locks) && f in locks && R.Enabled(locks[f], t, a)
    requires Th(threads, t).call == Some(f) && (a.Advance? || a.Spurious?)
    requires th == Thread(Th(threads, t).ctl, if R.InCall(R.At(R.Do(locks[f], t, a), t)) then Some(f) else None)
    ensures FitOk(threads[t := th], locks[f := R.Do(locks[f], t, a)])
  {
    var threads', locks' := threads[t := th], locks[f := R.Do(locks[f], t, a)];
    forall u: Tid, h | h in locks' ensures Fits(Th(threads', u), h, R.At(locks'[h], u)) {
      assert Fits(Th(threads, u), h, R.At(locks[h], u));
      if h == f && u != t {
        OthersFit(Th(threads, u), locks[f], t, f, a, u);
      } else if h == f {
        InnerFits(Th(threads, t), locks[f], t, f, a);
      }
    }
  }

  lemma GoKeepsFit(threads: map<Tid, Thread>, locks: map<Fid, R.Lock>, t: Tid, ctl: Control)
    requires FitOk(threads, locks) && Th(threads, t).call == None
    requires Wr(ctl) == Wr(Th(threads, t).ctl) && Rd(ctl) == Rd(Th(threads, t).ctl)
    ensures FitOk(threads[t := Thread(ctl, None)], locks)
  {
    var threads' := threads[t := Thread(ctl, None)];
    forall u: Tid, h | h in locks ensures Fits(Th(threads', u), h, R.At(locks[h], u)) {
      assert Fits(Th(threads, u), h, R.At(locks[h], u));
    }
  }

  lemma FreeKeepsFit(threads: map<Tid, Thread>, locks: map<Fid, R.Lock>, t: Tid, f: Fid, ctl: Control)
    requires FitOk(threads, locks) && Th(threads, t).call == None
    requires Wr(ctl) == Wr(Th(threads, t).ctl) - {f} && Rd(ctl) == Rd(Th(threads, t).ctl) - {f}
    ensures FitOk(threads[t := Thread(ctl, None)], locks - {f})
  {
    var threads', locks' := threads[t := Thread(ctl, None)], locks - {f};
    forall u: Tid, h | h in locks' ensures Fits(Th(threads', u), h, R.At(locks'[h], u)) {
      assert Fits(Th(threads, u), h, R.At(locks[h], u));
    }
  }

  /** A new object, held by `t` and unknown to everybody else. */
  lemma AllocateKeepsFit(threads: map<Tid, Thread>, locks: map<Fid, R.Lock>, t: Tid, f: Fid, ctl: Control)
    requires FitOk(threads, locks) && f !in locks && (forall u: Tid :: f !in Refs(Th(threads, u)))
    requires Th(threads, t).call == None && Wr(Th(threads, t).ctl) == Rd(Th(threads, t).ctl) == Rd(ctl) == {}
    requires Wr(ctl) == {f}
    ensures FitOk(threads[t := Thread(ctl, None)], locks[f := R.TakenBy(t)])
  {
    var threads', locks' := threads[t := Thread(ctl, None)], locks[f := R.TakenBy(t)];
    forall u: Tid, h | h in locks' ensures Fits(Th(threads', u), h, R.At(locks'[h], u)) {
      if h != f {
        assert Fits(Th(threads, u), h, R.At(locks[h], u));
      } else {
        assert f !in Refs(Th(threads, u));
      }
    }
  }

  /** The failed send of `read_file`: the lock stays counted, the thread is gone. */
  lemma AbandonKeepsFit(threads: map<Tid, Thread>, locks: map<Fid, R.Lock>, t: Tid, f: Fid)
    requires FitOk(threads, locks) && f in locks && R.Enabled(locks[f], t, R.Abandon)
    requires Th(threads, t).call == None && Wr(Th(threads, t).ctl) == {} && Rd(Th(threads, t).ctl) == {f}
    ensures FitOk(threads[t := Thread(Resting, None)], locks[f := R.Do(locks[f], t, R.Abandon)])
  {
    var threads', locks' := threads[t := Thread(Resting, None)], locks[f := R.Do(locks[f], t, R.Abandon)];
    forall u: Tid, h | h in locks' ensures Fits(Th(threads', u), h, R.At(locks'[h], u)) {
      assert Fits(Th(threads, u), h, R.At(locks[h], u));
      if h == f && u != t {
        OthersFit(Th(threads, u), locks[f], t, f, R.Abandon, u);
      }
    }
  }

  // -------------------------------------------------------------- whole threads

  /** Replacing one thread. */
  lemma ThreadKeeps(threads: map<Tid, Thread>, t: Tid, th: Thread,
                    alive: set<Fid>, owner: Option<Tid>, stored: set<Fid>, files: map<Fid, File>)
    requires ThreadsOk(threads, alive, owner, stored, files)
    requires ThreadOk(th, t, alive, owner, stored, files)
    ensures ThreadsOk(threads[t := th], alive, owner, stored, files)
  {
    var threads' := threads[t := th];
    forall u: Tid ensures ThreadOk(Th(threads', u), u, alive, owner, stored, files) {
      assert ThreadOk(Th(threads, u), u, alive, owner, stored, files);
    }
  }

  /** A step that starts a lock or unlock call. */
  lemma BeginKeepsStruct(g: G, t: Tid, f: Fid, a: R.Action, ctl: Control)
    requires Struct(g) && Th(g.threads, t).call == None && CanBegin(g, t, f, a)
    requires Calls(Th(g.threads, t).ctl, f, a, ctl) && Critical(ctl) == Critical(Th(g.threads, t).ctl)
    requires CallOk(Thread(ctl, Some(f))) && Loose(ctl) !! g.d.table.Values && SnapOk(g.d.files, ctl)
    ensures Struct(Begin(g, t, f, a, ctl))
  {
    StepKeepsLocks(g.locks, t, f, a);
    BeginKeepsFit(g.threads, g.locks, t, f, a, ctl);
    BeginKeepsThreads(g, t, f, a, ctl);
    assert Begin(g, t, f, a, ctl).locks.Keys == g.locks.Keys;
  }

  lemma BeginKeepsThreads(g: G, t: Tid, f: Fid, a: R.Action, ctl: Control)
    requires ThreadsOk(g.threads, g.locks.Keys, g.owner, g.d.table.Values, g.d.files) && f in g.locks
    requires Calls(Th(g.threads, t).ctl, f, a, ctl) && Critical(ctl) == Critical(Th(g.threads, t).ctl)
    requires CallOk(Thread(ctl, Some(f))) && Loose(ctl) !! g.d.table.Values && SnapOk(g.d.files, ctl)
    ensures ThreadsOk(g.threads[t := Thread(ctl, Some(f))], g.locks.Keys, g.owner, g.d.table.Values, g.d.files)
  {
    assert ThreadOk(Th(g.threads, t), t, g.locks.Keys, g.owner, g.d.table.Values, g.d.files);
    ThreadKeeps(g.threads, t, Thread(ctl, Some(f)), g.locks.Keys, g.owner, g.d.table.Values, g.d.files);
  }

  /** A step that moves on inside the handler. */
  lemma GoKeepsStruct(g: G, t: Tid, ctl: Control)
    requires Struct(g) && Th(g.threads, t).call == None
    requires Wr(ctl) == Wr(Th(g.threads, t).ctl) && Rd(ctl) == Rd(Th(g.threads, t).ctl)
    requires Critical(ctl) == Critical(Th(g.threads, t).ctl)
    requires Loose(ctl) !! g.d.table.Values && SnapOk(g.d.files, ctl)
    ensures Struct(Go(g, t, ctl))
  {
    AtThread(g, t);
    GoKeepsFit(g.threads, g.locks, t, ctl);
    ThreadKeeps(g.threads, t, Thread(ctl, None), g.locks.Keys, g.owner, g.d.table.Values, g.d.files);
  }

  // ------------------------------------------------------------- changing a file

  /** Files whose contents a control point has reported and not yet let go of. */
  function Reported(ctl: Control): set<Fid> {
    match ctl
    case Leave(_, send, doomed) => Elems(send) + Elems(doomed)
    case Send(_, send, doomed) => Elems(send) + Elems(doomed)
    case _ => {}
  }

  lemma SnapAfterWrite(files: map<Fid, File>, f: Fid, file: File, ctl: Control)
    requires SnapOk(files, ctl) && f in files
    requires f !in Reported(ctl) || (PayloadOf(file) == PayloadOf(files[f]) && f !in Loose(ctl))
    ensures SnapOk(files[f := file], ctl)
  {
  }

  /** What the holder of a lock may do to a file: anything as a writer, nothing that shows as a reader. */
  predicate MayWrite(g: G, t: Tid, f: Fid, file: File) {
    && g.owner == Some(t)
    && f in g.locks && f in g.d.files
    && file.path == g.d.files[f].path
    && (R.At(g.locks[f], t) == R.Holds(true)
        || (R.At(g.locks[f], t) == R.Holds(false) && f in g.d.table.Values
            && PayloadOf(file) == PayloadOf(g.d.files[f])))
    && f !in Reported(Th(g.threads, t).ctl)
  }

  /** Nobody's report is falsified by what a lock holder writes. */
  lemma WriteKeepsSnap(g: G, t: Tid, f: Fid, file: File, u: Tid)
    requires Struct(g) && MayWrite(g, t, f, file)
    ensures SnapOk(g.d.files[f := file], Th(g.threads, u).ctl)
  {
    AtThread(g, u);
    if u != t && f in Reported(Th(g.threads, u).ctl) && R.At(g.locks[f], t) == R.Holds(true) {
      WriterExcludes(g, t, f, u);
      ReporterHolds(g, u, f);
    }
    SnapAfterWrite(g.d.files, f, file, Th(g.threads, u).ctl);
  }

  lemma ReporterHolds(g: G, u: Tid, f: Fid)
    requires Struct(g) && f in g.locks && f in Reported(Th(g.threads, u).ctl)
    ensures R.At(g.locks[f], u).Holds? && Target(Th(g.threads, u).ctl) == None
  {
    AtThread(g, u);
    HeldAs(g.threads, g.locks, u, f);
  }

  lemma SetFileKeepsStruct(g: G, t: Tid, f: Fid, file: File)
    requires Struct(g) && MayWrite(g, t, f, file)
    ensures Struct(SetFile(g, f, file))
  {
    var files := g.d.files[f := file];
    forall u: Tid ensures ThreadOk(Th(g.threads, u), u, g.locks.Keys, g.owner, g.d.table.Values, files) {
      AtThread(g, u);
      WriteKeepsSnap(g, t, f, file, u);
    }
  }

  /** Dropping a table entry and changing counters disturbs nobody. */
  lemma UnlinkKeepsStruct(g: G, p: Path, c: Counters)
    requires Struct(g)
    ensures Struct(Unlink(g, p, c))
  {
    var table := g.d.table - {p};
    assert table.Values <= g.d.table.Values;
    forall u: Tid ensures ThreadOk(Th(g.threads, u), u, g.locks.Keys, g.owner, table.Values, g.d.files) {
      AtThread(g, u);
    }
  }

  lemma CountersKeepStruct(g: G, c: Counters)
    requires Struct(g)
    ensures Struct(SetCounters(g, c))
  {
  }
}
