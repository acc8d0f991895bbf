/**
  Lost readers: `read_file` returns on a failed send without unlocking. When that
  happens, what it leads to, and that nothing else can block the server.
 */
module ProtocolLoss {
  import opened Basics
  import opened StoreSpec
  import opened Protocol
  import opened ProtocolInv
  import opened ProtocolLocks
  import opened ProtocolFrame
  import opened ProtocolRuns
  import opened ProtocolSafety
  import opened ProtocolReclaim
  import opened ProtocolProgress
  import R = RwLock

  ghost predicate NobodyLost(g: G) {
    forall f | f in g.locks :: g.locks[f].lost == 0
  }

  /** The client of a `read_file` does not take what is sent. */
  predicate ReadSendFails(g: G, t: Tid, c: Choice) {
    var th := Th(g.threads, t);
    th.call == None && th.ctl.Send? && th.ctl.e.req.Read? && th.ctl.send != [] && !c.sent
  }

  /** That has happened. */
  predicate ReadSendFailed(r: Run) {
    r.Moved? && (ReadSendFails(End(r.before), r.who, r.choice) || ReadSendFailed(r.before))
  }

  // -------------------------------------------------------- how a reader gets lost

  /** What a step without such a failure does to the lost readers of a live object. */
  ghost predicate KeepsLost(g: G, g': G) {
    forall f | f in g'.locks :: g'.locks[f].lost == if f in g.locks then g.locks[f].lost else 0
  }

  lemma PlainLost(cfg: Config, g: G, t: Tid, c: Choice, req: Request, f: Fid, g': G)
    requires LockedStep(cfg, g, t, c, req, f) == Some(g') && !req.Write? && !req.Append?
    ensures KeepsLost(g, g')
  {
  }

  lemma VisitLost(cfg: Config, g: G, t: Tid, c: Choice, g': G)
    requires var ctl := Th(g.threads, t).ctl; ctl.Compare? || ctl.Collect? || ctl.Sweep? || ctl.SweepOne?
    requires Th(g.threads, t).call == None && Step(cfg, g, t, c) == Some(g')
    ensures KeepsLost(g, g')
  {
  }

  lemma LockedLost(cfg: Config, g: G, t: Tid, c: Choice, req: Request, f: Fid, g': G)
    requires LockedStep(cfg, g, t, c, req, f) == Some(g')
    ensures KeepsLost(g, g')
  {
    if req.Write? || req.Append? {
      var file := g.d.files[f];
      var grown := if req.Write? then Written(file, req.data, c.t1) else Extended(file, req.data, c.t1);
      if GrowStep(cfg, g, t, c, req, f, grown, |req.data|) == Some(g') {
        GrowLost(cfg, g, t, c, req, f, grown, |req.data|, g');
      }
    } else {
      PlainLost(cfg, g, t, c, req, f, g');
    }
  }

  lemma GrowLost(cfg: Config, g: G, t: Tid, c: Choice, req: Request, f: Fid, grown: File, added: nat, g': G)
    requires GrowStep(cfg, g, t, c, req, f, grown, added) == Some(g')
    ensures KeepsLost(g, g')
  {
  }

  lemma ScanLost(cfg: Config, g: G, t: Tid, c: Choice, job: Job, todo: seq<Fid>, best: Option<Fid>, g': G)
    requires ScanStep(cfg, g, t, c, job, todo, best) == Some(g')
    ensures KeepsLost(g, g')
  {
  }

  lemma ReplyLost(g: G, t: Tid, c: Choice, g': G)
    requires Th(g.threads, t).ctl.Send? && Th(g.threads, t).call == None && !ReadSendFails(g, t, c)
    requires var Send(e, send, doomed) := Th(g.threads, t).ctl; SendStep(g, t, c, e, send, doomed) == Some(g')
    ensures KeepsLost(g, g')
  {
  }

  lemma StepKeepsLost(cfg: Config, g: G, t: Tid, c: Choice, g': G)
    requires !ReadSendFails(g, t, c) && Step(cfg, g, t, c) == Some(g') && g.next !in g.locks
    ensures KeepsLost(g, g')
  {
    var th := Th(g.threads, t);
    if th.call == None && th.ctl.Locked? {
      LockedLost(cfg, g, t, c, th.ctl.req, th.ctl.f, g');
    } else if th.call == None && th.ctl.Scan? {
      ScanLost(cfg, g, t, c, th.ctl.job, th.ctl.todo, th.ctl.best, g');
    } else if th.call == None && th.ctl.Send? {
      ReplyLost(g, t, c, g');
    } else if th.call == None && (th.ctl.Compare? || th.ctl.Collect? || th.ctl.Sweep? || th.ctl.SweepOne?) {
      VisitLost(cfg, g, t, c, g');
    }
  }

  lemma FreshIsNew(g: G)
    requires Struct(g)
    ensures g.next !in g.locks
  {
  }

  lemma {:induction false} NothingFailedNobodyLost(cfg: Config, r: Run)
    requires Happens(cfg, r) && !ReadSendFailed(r)
    ensures NobodyLost(End(r))
  {
    if r.Moved? {
      NothingFailedNobodyLost(cfg, r.before);
      RunKeepsGInv(cfg, r.before);
      FreshIsNew(End(r.before));
      StepKeepsLost(cfg, End(r.before), r.who, r.choice, r.g);
    }
  }

  /**
    Deadlock freedom: unless the send of a read has failed, as long as a handler
    is unfinished some unfinished handler can step, without help from spurious
    wake-ups. Any other send may fail.
   */
  lemma DeadlockFree(cfg: Config, r: Run, u: Tid) returns (w: Tid, c: Choice)
    requires Happens(cfg, r) && !ReadSendFailed(r) && !Idle(Th(End(r).threads, u))
    ensures c.sent && !c.spurious && !Idle(Th(End(r).threads, w)) && Step(cfg, End(r), w, c).Some?
  {
    RunKeepsGInv(cfg, r);
    NothingFailedNobodyLost(cfg, r);
    w, c := SomebodyMoves(cfg, End(r), u);
  }

  /** A failed send of a read leaves its reader counted for ever. */
  lemma FailureLoses(cfg: Config, g: G, t: Tid, c: Choice, g': G) returns (f: Fid)
    requires ReadSendFails(g, t, c) && Step(cfg, g, t, c) == Some(g')
    ensures f in g.locks && g'.locks == g.locks[f := g'.locks[f]] && g'.locks[f].lost == g.locks[f].lost + 1
  {
    f := Th(g.threads, t).ctl.send[0];
  }

  /** Only files held as a writer are freed, so an object with a lost reader is not. */
  lemma LosersLive(cfg: Config, g: G, t: Tid, c: Choice, g': G, f: Fid)
    requires GInv(cfg, g) && Step(cfg, g, t, c) == Some(g') && f in g.locks && g.locks[f].lost > 0
    ensures f in g'.locks
  {
    StepObjects(cfg, g, t, c, g');
    if f !in g'.locks {
      assert f in g.locks.Keys - g'.locks.Keys;
      HeldAs(g.threads, g.locks, t, f);
      WriterExcludes(g, t, f, t + 1);
    }
  }

  lemma LossStays(cfg: Config, g: G, t: Tid, c: Choice, g': G, f: Fid)
    requires GInv(cfg, g) && Step(cfg, g, t, c) == Some(g') && f in g.locks && g.locks[f].lost > 0
    ensures f in g'.locks && g'.locks[f].lost > 0
  {
    LosersLive(cfg, g, t, c, g', f);
    if ReadSendFails(g, t, c) {
      var h := FailureLoses(cfg, g, t, c, g');
    } else {
      FreshIsNew(g);
      StepKeepsLost(cfg, g, t, c, g');
    }
  }

  /** Once the send of a read has failed, some live object counts a lost reader. */
  lemma {:induction false} FailedLeavesLoss(cfg: Config, r: Run) returns (f: Fid)
    requires Happens(cfg, r) && ReadSendFailed(r)
    ensures f in End(r).locks && End(r).locks[f].lost > 0
  {
    if ReadSendFailed(r.before) {
      f := FailedLeavesLoss(cfg, r.before);
      RunKeepsGInv(cfg, r.before);
      LossStays(cfg, End(r.before), r.who, r.choice, r.g, f);
    } else {
      f := FailureLoses(cfg, End(r.before), r.who, r.choice, r.g);
    }
  }

  /** A reader is lost if and only if the send of a read has failed. */
  lemma LostIffFailed(cfg: Config, r: Run)
    requires Happens(cfg, r)
    ensures NobodyLost(End(r)) <==> !ReadSendFailed(r)
  {
    if ReadSendFailed(r) {
      var f := FailedLeavesLoss(cfg, r);
    } else {
      NothingFailedNobodyLost(cfg, r);
    }
  }

  /** A file with a lost reader is never removed or expelled: it stays in the table. */
  lemma LosersAreStored(cfg: Config, r: Run, f: Fid)
    requires Happens(cfg, r) && f in End(r).locks && End(r).locks[f].lost > 0
    ensures f in End(r).d.table.Values
  {
    NothingLeaks(cfg, r);
    RunKeepsGInv(cfg, r);
    if f !in End(r).d.table.Values {
      var u: Tid :| f in Loose(Th(End(r).threads, u).ctl);
      LooseLosesNobody(cfg, End(r), u, f);
    }
  }

  /** What a thread has in hand, not in the table, it holds as a writer. */
  lemma LooseLosesNobody(cfg: Config, g: G, u: Tid, f: Fid)
    requires GInv(cfg, g) && f in g.locks && f in Loose(Th(g.threads, u).ctl) && f !in g.d.table.Values
    ensures g.locks[f].lost == 0
  {
    AtThread(g, u);
    if Th(g.threads, u).call == Some(f) {
      QueuesAtTable(cfg, g, u, f);
    } else {
      HeldAs(g.threads, g.locks, u, f);
      WriterExcludes(g, u, f, u + 1);
    }
  }

  // ------------------------------------------------------- what a lost reader leads to

  /** The owner of `files_mtx` asks, as a writer, for a file that counts a reader who left. */
  ghost predicate Wedged(g: G, o: Tid, f: Fid) {
    && g.owner == Some(o) && Th(g.threads, o).call == Some(f) && f in g.locks
    && g.locks[f].lost > 0
    && R.Asks(R.At(g.locks[f], o)) && R.At(g.locks[f], o).w
  }

  lemma WedgedLock(l: R.Lock, o: Tid, t: Tid, a: R.Action)
    requires R.Inv(l) && l.lost > 0 && R.Asks(R.At(l, o)) && R.At(l, o).w && R.Enabled(l, t, a)
    requires t == o ==> a.Advance? || a.Spurious?
    ensures var l' := R.Do(l, t, a); l'.lost > 0 && R.Asks(R.At(l', o)) && R.At(l', o).w
  {
    if t != o {
      R.OthersStand(l, t, a, o);
    }
  }

  /** A step of `t` leaves `l` alone or is an action of `t` on it. */
  ghost predicate Uses(l: R.Lock, t: Tid, l': R.Lock) {
    l' == l || exists a :: R.Enabled(l, t, a) && l' == R.Do(l, t, a)
  }

  /** Outside `files_mtx` a thread runs calls, sends, unlocks and frees what it holds as a writer. */
  lemma OutsideUses(cfg: Config, g: G, t: Tid, c: Choice, g': G, f: Fid)
    requires Step(cfg, g, t, c) == Some(g') && g.owner.Some? && f in g.locks
    requires Critical(Th(g.threads, t).ctl) ==> Th(g.threads, t).call.Some?
    requires f !in Wr(Th(g.threads, t).ctl) || Th(g.threads, t).call.Some?
    ensures g'.owner == g.owner
    ensures f in g'.locks && Uses(g.locks[f], t, g'.locks[f])
  {
  }

  /** The wedged owner itself can only go on asking. */
  lemma OwnerAsksOn(cfg: Config, g: G, o: Tid, f: Fid, c: Choice, g': G)
    requires Wedged(g, o, f) && R.Inv(g.locks[f]) && Step(cfg, g, o, c) == Some(g')
    ensures Wedged(g', o, f)
  {
    var a := if c.spurious then R.Spurious else R.Advance(c.woken);
    WedgedLock(g.locks[f], o, o, a);
  }

  lemma WedgeStands(g: G, o: Tid, f: Fid, t: Tid, g': G)
    requires Wedged(g, o, f) && R.Inv(g.locks[f]) && t != o
    requires g'.owner == g.owner && Th(g'.threads, o) == Th(g.threads, o)
    requires f in g'.locks && Uses(g.locks[f], t, g'.locks[f])
    ensures Wedged(g', o, f)
  {
    if g'.locks[f] != g.locks[f] {
      var a :| R.Enabled(g.locks[f], t, a) && g'.locks[f] == R.Do(g.locks[f], t, a);
      WedgedLock(g.locks[f], o, t, a);
    }
  }

  lemma OthersHoldNoWriter(g: G, o: Tid, f: Fid, t: Tid)
    requires Struct(g) && Wedged(g, o, f) && Th(g.threads, t).call == None
    ensures f !in Wr(Th(g.threads, t).ctl)
  {
    if f in Wr(Th(g.threads, t).ctl) {
      HeldAs(g.threads, g.locks, t, f);
      WriterExcludes(g, t, f, o);
    }
  }

  lemma WedgedStays(cfg: Config, g: G, o: Tid, f: Fid, t: Tid, c: Choice, g': G)
    requires GInv(cfg, g) && Wedged(g, o, f) && Step(cfg, g, t, c) == Some(g')
    ensures Wedged(g', o, f)
  {
    R.ReachableInv(g.locks[f]);
    if t == o {
      OwnerAsksOn(cfg, g, o, f, c, g');
    } else {
      AtThread(g, t);
      if Th(g.threads, t).call == None {
        OthersHoldNoWriter(g, o, f, t);
      }
      OutsideUses(cfg, g, t, c, g', f);
      StepShape(cfg, g, t, c, g');
      WedgeStands(g, o, f, t, g');
    }
  }

  /** A wedged server stays wedged: no other thread ever takes `files_mtx` again. */
  lemma {:induction false} WedgedForever(cfg: Config, r: Run, early: Run, o: Tid, f: Fid)
    requires Happens(cfg, r) && Extends(r, early) && Wedged(End(early), o, f)
    ensures Wedged(End(r), o, f)
  {
    if r != early {
      WedgedForever(cfg, r.before, early, o, f);
      RunKeepsGInv(cfg, r.before);
      WedgedStays(cfg, End(r.before), o, f, r.who, r.choice, r.g);
    }
  }

  /** Arriving and taking the free `files_mtx`. */
  lemma TwoStepsIn(cfg: Config, g: G, t: Tid, c: Choice) returns (g1: G, g2: G)
    requires g.owner == None && Idle(Th(g.threads, t)) && NeedsFiles(c.req)
    ensures Step(cfg, g, t, c) == Some(g1) && Step(cfg, g1, t, c) == Some(g2)
    ensures g2.d == g.d && g2.locks == g.locks && g2.owner == Some(t)
            && Th(g2.threads, t) == Thread(Lookup(c.req), None)
  {
    g1 := Go(g, t, WantFiles(c.req));
    g2 := Go(g1.(owner := Some(t)), t, Lookup(c.req));
  }

  /** Asking for the requested file. */
  lemma AsksForFile(cfg: Config, g: G, t: Tid, c: Choice, f: Fid) returns (g': G)
    requires g.owner == Some(t) && Th(g.threads, t) == Thread(Lookup(c.req), None)
    requires c.req.Open? && !c.req.create && c.req.path in g.d.table && g.d.table[c.req.path] == f
    requires f in g.locks && g.locks[f].lost > 0 && R.At(g.locks[f], t) == R.Out
    ensures Step(cfg, g, t, c) == Some(g') && Wedged(g', t, f)
  {
    g' := Begin(g, t, f, Ask(true), Locked(c.req, f));
  }

  /** A stored file with a lost reader wedges the server at the next request that opens it. */
  lemma LostReaderWedges(cfg: Config, r: Run, t: Tid, p: Path) returns (r': Run)
    requires Happens(cfg, r) && End(r).owner == None && Idle(Th(End(r).threads, t))
    requires p in End(r).d.table && End(r).d.table[p] in End(r).locks && End(r).locks[End(r).d.table[p]].lost > 0
    ensures Happens(cfg, r') && Extends(r', r) && NoNewFailure(r', r) && Wedged(End(r'), t, End(r).d.table[p])
  {
    var c := Calm([], {}).(req := Open(0, p, false, false));
    var f := End(r).d.table[p];
    IdleIsOut(cfg, r, t, f);
    var g1, g2 := TwoStepsIn(cfg, End(r), t, c);
    var g3 := AsksForFile(cfg, g2, t, c, f);
    r' := OneMore(cfg, r, r, t, c, g1);
    r' := OneMore(cfg, r', r, t, c, g2);
    r' := OneMore(cfg, r', r, t, c, g3);
  }

  lemma OneMore(cfg: Config, r: Run, early: Run, t: Tid, c: Choice, g: G) returns (r': Run)
    requires Happens(cfg, r) && Extends(r, early) && NoNewFailure(r, early)
    requires Step(cfg, End(r), t, c) == Some(g) && !ReadSendFails(End(r), t, c)
    ensures Happens(cfg, r') && Extends(r', early) && NoNewFailure(r', early) && End(r') == g
  {
    r' := Moved(r, t, c, g);
  }

  lemma IdleIsOut(cfg: Config, r: Run, t: Tid, f: Fid)
    requires Happens(cfg, r) && Idle(Th(End(r).threads, t)) && f in End(r).locks
    ensures R.At(End(r).locks[f], t) == R.Out
  {
    RunKeepsGInv(cfg, r);
    OutOf(End(r), t, f);
  }

  /** The exception to `SomebodyMoves` is a server wedged for good. */
  lemma StuckIsWedged(g: G)
    requires StuckOnLostReader(g)
    ensures Wedged(g, g.owner.value, Th(g.threads, g.owner.value).call.value)
  {
  }

  // --------------------------------------------------------------- the exact condition

  /** From `early` to `r` no further send of a read fails. */
  predicate NoNewFailure(r: Run, early: Run) {
    r == early
    || (r.Moved? && !ReadSendFails(End(r.before), r.who, r.choice) && NoNewFailure(r.before, early))
  }

  lemma {:induction false} StillNoFailure(r: Run, early: Run)
    requires NoNewFailure(r, early) && !ReadSendFailed(early)
    ensures !ReadSendFailed(r)
  {
    if r != early {
      StillNoFailure(r.before, early);
    }
  }

  /** Some continuation, in which no further send of a read fails, wedges the server for good. */
  ghost predicate CanWedge(cfg: Config, r: Run) {
    exists r', o: Tid, f: Fid :: Happens(cfg, r') && Extends(r', r) && NoNewFailure(r', r) && Wedged(End(r'), o, f)
  }

  lemma LostPath(cfg: Config, r: Run) returns (p: Path)
    requires Happens(cfg, r) && ReadSendFailed(r)
    ensures p in End(r).d.table && End(r).d.table[p] in End(r).locks && End(r).locks[End(r).d.table[p]].lost > 0
  {
    var f := FailedLeavesLoss(cfg, r);
    LosersAreStored(cfg, r, f);
    p :| p in End(r).d.table && End(r).d.table[p] == f;
  }

  /**
    The exact condition: with `files_mtx` free and a thread at rest, the server
    can still be wedged, without any further failed send of a read, if and only if
    the send of a read has failed before.
   */
  lemma WedgesIffFailed(cfg: Config, r: Run, t: Tid)
    requires Happens(cfg, r) && End(r).owner == None && Idle(Th(End(r).threads, t))
    ensures CanWedge(cfg, r) <==> ReadSendFailed(r)
  {
    if ReadSendFailed(r) {
      var p := LostPath(cfg, r);
      var r' := LostReaderWedges(cfg, r, t, p);
    } else if CanWedge(cfg, r) {
      var r', o: Tid, f: Fid :| Happens(cfg, r') && Extends(r', r) && NoNewFailure(r', r) && Wedged(End(r'), o, f);
      StillNoFailure(r', r);
      NothingFailedNobodyLost(cfg, r');
    }
  }
}
