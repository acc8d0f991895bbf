/** The steps outside the store's data: lock calls, taking and releasing `files_mtx`, replying. */
module ProtocolFrame {
  import opened Basics
  import opened StoreSpec
  import opened StoreRuns
  import opened Protocol
  import opened ProtocolInv
  import opened ProtocolLocks
  import R = RwLock

  /** A step that leaves data, trace and owner alone, and the owner where it was. */
  lemma DataFrame(cfg: Config, g: G, g': G)
    requires DataOk(cfg, g)
    requires g'.d == g.d && g'.trace == g.trace && g'.owner == g.owner
    requires g.owner.Some? ==> Th(g'.threads, g.owner.value).ctl == Th(g.threads, g.owner.value).ctl
    ensures DataOk(cfg, g')
  {
  }

  // ------------------------------------------------------------- inside lock calls

  lemma InnerKeeps(cfg: Config, g: G, t: Tid, c: Choice, g': G)
    requires GInv(cfg, g) && Th(g.threads, t).call.Some?
    requires InnerStep(g, t, c, Th(g.threads, t).ctl, Th(g.threads, t).call.value) == Some(g')
    ensures GInv(cfg, g')
  {
    var f := Th(g.threads, t).call.value;
    var a := if c.spurious then R.Spurious else R.Advance(c.woken);
    var th := Thread(Th(g.threads, t).ctl, if R.InCall(R.At(R.Do(g.locks[f], t, a), t)) then Some(f) else None);
    AtThread(g, t);
    InnerKeepsFit(g.threads, g.locks, t, f, a, th);
    StepKeepsLocks(g.locks, t, f, a);
    ThreadKeeps(g.threads, t, th, g.locks.Keys, g.owner, g.d.table.Values, g.d.files);
    assert g'.locks.Keys == g.locks.Keys;
    DataFrame(cfg, g, g');
  }

  // --------------------------------------------------- arriving, replying, finishing

  lemma ArriveKeeps(cfg: Config, g: G, t: Tid, req: Request)
    requires GInv(cfg, g) && Th(g.threads, t) == Thread(Resting, None) && NeedsFiles(req)
    ensures GInv(cfg, Go(g, t, WantFiles(req)))
  {
    AtThread(g, t);
    GoKeepsStruct(g, t, WantFiles(req));
    DataFrame(cfg, g, Go(g, t, WantFiles(req)));
  }

  lemma EnterKeeps(cfg: Config, g: G, t: Tid, req: Request)
    requires GInv(cfg, g) && Th(g.threads, t) == Thread(WantFiles(req), None) && g.owner == None
    ensures GInv(cfg, Go(g.(owner := Some(t)), t, Lookup(req)))
  {
    AtThread(g, t);
    GoKeepsFit(g.threads, g.locks, t, Lookup(req));
    OwnerKeepsThreads(g, t, Lookup(req), Some(t));
  }

  /** Taking or releasing `files_mtx`. */
  lemma OwnerKeepsThreads(g: G, t: Tid, ctl: Control, owner: Option<Tid>)
    requires ThreadsOk(g.threads, g.locks.Keys, g.owner, g.d.table.Values, g.d.files)
    requires ThreadOk(Thread(ctl, None), t, g.locks.Keys, owner, g.d.table.Values, g.d.files)
    requires g.owner in {None, Some(t)} && owner in {None, Some(t)}
    ensures ThreadsOk(g.threads[t := Thread(ctl, None)], g.locks.Keys, owner, g.d.table.Values, g.d.files)
  {
    var threads' := g.threads[t := Thread(ctl, None)];
    forall u: Tid ensures ThreadOk(Th(threads', u), u, g.locks.Keys, owner, g.d.table.Values, g.d.files) {
      assert ThreadOk(Th(g.threads, u), u, g.locks.Keys, g.owner, g.d.table.Values, g.d.files);
    }
  }

  /** Releasing `files_mtx` extends the trace by one lawful event. */
  lemma LeaveKeeps(cfg: Config, g: G, t: Tid, e: Event, send: seq<Fid>, doomed: seq<Fid>, g': G)
    requires GInv(cfg, g) && Th(g.threads, t) == Thread(Leave(e, send, doomed), None)
    requires LeaveStep(g, t, e, send, doomed) == Some(g')
    ensures GInv(cfg, g')
  {
    LeaveStruct(g, t, e, send, doomed, g');
    AtThread(g, t);
    LeaveData(cfg, g, t, e, g');
  }

  lemma LeaveStruct(g: G, t: Tid, e: Event, send: seq<Fid>, doomed: seq<Fid>, g': G)
    requires Struct(g) && Th(g.threads, t) == Thread(Leave(e, send, doomed), None)
    requires LeaveStep(g, t, e, send, doomed) == Some(g')
    ensures Struct(g')
  {
    AtThread(g, t);
    GoKeepsFit(g.threads, g.locks, t, Send(e, send, doomed));
    OwnerKeepsThreads(g, t, Send(e, send, doomed), None);
  }

  lemma LeaveData(cfg: Config, g: G, t: Tid, e: Event, g': G)
    requires DataOk(cfg, g) && g.owner == Some(t)
    requires Th(g.threads, t).ctl.Leave? && Th(g.threads, t).ctl.e == e
    requires g'.d == g.d && g'.owner == None && g'.trace == Then(g.trace, e, Abs(g.d))
    ensures DataOk(cfg, g')
  {
  }

  lemma SendKeeps(cfg: Config, g: G, t: Tid, c: Choice, e: Event, send: seq<Fid>, doomed: seq<Fid>, g': G)
    requires GInv(cfg, g) && Th(g.threads, t) == Thread(Send(e, send, doomed), None)
    requires SendStep(g, t, c, e, send, doomed) == Some(g')
    ensures GInv(cfg, g')
  {
    SendStruct(g, t, c, e, send, doomed, g');
    AtThread(g, t);
    DataFrame(cfg, g, g');
  }

  lemma SendStruct(g: G, t: Tid, c: Choice, e: Event, send: seq<Fid>, doomed: seq<Fid>, g': G)
    requires Struct(g) && Th(g.threads, t) == Thread(Send(e, send, doomed), None)
    requires SendStep(g, t, c, e, send, doomed) == Some(g')
    ensures Struct(g')
  {
    AtThread(g, t);
    if !c.sent && e.req.Read? && send != [] {
      AbandonKeeps(g, t, e, send, doomed, g');
    } else {
      GoKeepsStruct(g, t, Finish(e, send, doomed));
    }
  }

  /** The one step after which a lock stays counted for nobody. */
  lemma AbandonKeeps(g: G, t: Tid, e: Event, send: seq<Fid>, doomed: seq<Fid>, g': G)
    requires Struct(g) && Th(g.threads, t) == Thread(Send(e, send, doomed), None)
    requires |send| == 1 && doomed == [] && CanBegin(g, t, send[0], R.Abandon)
    requires g' == Go(g.(locks := g.locks[send[0] := R.Do(g.locks[send[0]], t, R.Abandon)]), t, Resting)
    ensures Struct(g')
  {
    AtThread(g, t);
    assert Elems(send) == {send[0]};
    AbandonKeepsFit(g.threads, g.locks, t, send[0]);
    StepKeepsLocks(g.locks, t, send[0], R.Abandon);
    ThreadKeeps(g.threads, t, Thread(Resting, None), g.locks.Keys, g.owner, g.d.table.Values, g.d.files);
    assert g'.locks.Keys == g.locks.Keys;
  }

  lemma TailElems(s: seq<Fid>)
    requires s != [] && NoDup(s)
    ensures Elems(s[1..]) == Elems(s) - {s[0]} && NoDup(s[1..]) && s[0] in Elems(s)
  {
    forall f | f in s && f != s[0] ensures f in s[1..] {
      var i :| 0 <= i < |s| && s[i] == f;
      assert s[1..][i-1] == f;
    }
    forall i | 0 <= i < |s| - 1 ensures s[1..][i] != s[0] {
      assert s[1..][i] == s[i+1];
    }
  }

  lemma UnlockStruct(g: G, t: Tid, e: Event, send: seq<Fid>, doomed: seq<Fid>)
    requires Struct(g) && Th(g.threads, t) == Thread(Finish(e, send, doomed), None)
    requires send != [] && CanBegin(g, t, send[0], R.Release)
    ensures Struct(Begin(g, t, send[0], R.Release, Finish(e, send[1..], doomed)))
  {
    AtThread(g, t);
    TailElems(send);
    BeginKeepsStruct(g, t, send[0], R.Release, Finish(e, send[1..], doomed));
  }

  lemma FinishStruct(g: G, t: Tid, e: Event, send: seq<Fid>, doomed: seq<Fid>, g': G)
    requires Struct(g) && Th(g.threads, t) == Thread(Finish(e, send, doomed), None)
    requires send == [] && doomed != [] ==> Mine(g, t, doomed[0])
    requires FinishStep(g, t, e, send, doomed) == Some(g')
    ensures Struct(g')
  {
    AtThread(g, t);
    if send != [] {
      UnlockStruct(g, t, e, send, doomed);
    } else if doomed != [] {
      TailElems(doomed);
      FreeKeepsStruct(g, t, doomed[0], Finish(e, [], doomed[1..]));
    } else {
      GoKeepsStruct(g, t, Resting);
    }
  }

  lemma FinishKeeps(cfg: Config, g: G, t: Tid, e: Event, send: seq<Fid>, doomed: seq<Fid>, g': G)
    requires GInv(cfg, g) && Th(g.threads, t) == Thread(Finish(e, send, doomed), None)
    requires FinishStep(g, t, e, send, doomed) == Some(g')
    ensures GInv(cfg, g')
  {
    if send == [] && doomed != [] {
      DoomedIsMine(cfg, g, t, e, doomed);
    }
    FinishStruct(g, t, e, send, doomed, g');
    AtThread(g, t);
    DataFrame(cfg, g, g');
  }

  // -------------------------------------------------------------------- freeing

  /** Nobody but `t` is in the lock of `f` or refers to `f`, and the table does not lead to it. */
  ghost predicate Mine(g: G, t: Tid, f: Fid) {
    && f in g.locks && g.locks[f].lost == 0
    && f !in g.d.table.Values
    && forall u: Tid | u != t :: R.At(g.locks[f], u) == R.Out && f !in Refs(Th(g.threads, u))
  }

  /** The owner of `files_mtx` queues only for files in the table. */
  lemma QueuesAtTable(cfg: Config, g: G, u: Tid, f: Fid)
    requires GInv(cfg, g) && g.owner == Some(u) && Target(Th(g.threads, u).ctl) == Some(f)
    ensures f in g.d.table.Values
  {
    var ctl := Th(g.threads, u).ctl;
    assert CtlData(cfg, g.d, Last(g.trace), ctl);
    match ctl {
      case Locked(_, _) =>
      case Compare(_, _, _, _) =>
      case Collect(_, _, _, taken) => assert taken[|taken|-1] in taken;
      case SweepOne(_, todo, cur) => assert cur in [cur] + todo;
    }
  }

  /** A loose file that `t` holds as a writer is its alone. */
  lemma LooseIsMine(cfg: Config, g: G, t: Tid, f: Fid)
    requires GInv(cfg, g) && Th(g.threads, t).call == None
    requires f in g.locks && f in Wr(Th(g.threads, t).ctl) && f !in g.d.table.Values
    ensures Mine(g, t, f)
  {
    HeldAs(g.threads, g.locks, t, f);
    var stranger: Tid := t + 1;
    WriterExcludes(g, t, f, stranger);
    forall u: Tid | u != t ensures R.At(g.locks[f], u) == R.Out && f !in Refs(Th(g.threads, u)) {
      WriterExcludes(g, t, f, u);
      if g.owner == Some(u) && Target(Th(g.threads, u).ctl) == Some(f) {
        QueuesAtTable(cfg, g, u, f);
      }
      OutIsUnreferenced(g, u, f);
    }
  }

  lemma DoomedIsMine(cfg: Config, g: G, t: Tid, e: Event, doomed: seq<Fid>)
    requires GInv(cfg, g) && Th(g.threads, t) == Thread(Finish(e, [], doomed), None) && doomed != []
    ensures doomed[0] in g.locks && Mine(g, t, doomed[0])
  {
    AtThread(g, t);
    assert doomed[0] in Loose(Th(g.threads, t).ctl);
    LooseIsMine(cfg, g, t, doomed[0]);
  }

  /** Freeing an object that only `t` can still reach. */
  lemma FreeKeepsStruct(g: G, t: Tid, f: Fid, ctl: Control)
    requires Struct(g) && Th(g.threads, t).call == None && Mine(g, t, f)
    requires Wr(ctl) == Wr(Th(g.threads, t).ctl) - {f} && Rd(ctl) == Rd(Th(g.threads, t).ctl) - {f}
    requires Critical(ctl) == Critical(Th(g.threads, t).ctl)
    requires Loose(ctl) !! g.d.table.Values && SnapOk(g.d.files, ctl)
    ensures Struct(Go(Free(g, f), t, ctl))
  {
    FreeKeepsFit(g.threads, g.locks, t, f, ctl);
    FreeKeepsThreads(g, t, f, ctl);
    assert (g.locks - {f}).Keys == g.locks.Keys - {f};
  }

  lemma FreeKeepsThreads(g: G, t: Tid, f: Fid, ctl: Control)
    requires ThreadsOk(g.threads, g.locks.Keys, g.owner, g.d.table.Values, g.d.files)
    requires Mine(g, t, f)
    requires Wr(ctl) == Wr(Th(g.threads, t).ctl) - {f} && Rd(ctl) == Rd(Th(g.threads, t).ctl) - {f}
    requires Critical(ctl) == Critical(Th(g.threads, t).ctl)
    requires Loose(ctl) !! g.d.table.Values && SnapOk(g.d.files, ctl)
    ensures ThreadsOk(g.threads[t := Thread(ctl, None)], g.locks.Keys - {f}, g.owner, g.d.table.Values, g.d.files)
  {
    var threads' := g.threads[t := Thread(ctl, None)];
    forall u: Tid ensures ThreadOk(Th(threads', u), u, g.locks.Keys - {f}, g.owner, g.d.table.Values, g.d.files) {
      assert ThreadOk(Th(g.threads, u), u, g.locks.Keys, g.owner, g.d.table.Values, g.d.files);
    }
  }
}
