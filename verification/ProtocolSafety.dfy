/** Safety over whole runs: one effect per request, atomic snapshots, safe and complete reclamation. */
module ProtocolSafety {
  import opened Basics
  import opened StoreSpec
  import opened StoreRuns
  import opened Protocol
  import opened ProtocolInv
  import opened ProtocolLocks
  import opened ProtocolRuns
  import R = RwLock

  // --------------------------------------------------------------- shape of a step

  /** The request a thread is serving. */
  function Serving(ctl: Control): Option<Request> {
    match ctl
    case Resting => None
    case WantFiles(req) => Some(req)
    case Lookup(req) => Some(req)
    case Locked(req, _) => Some(req)
    case Created(req, _, _, _) => Some(req)
    case Scan(job, _, _) => Some(job.req)
    case Compare(job, _, _, _) => Some(job.req)
    case Insert(job) => Some(job.req)
    case Collect(req, _, _, _) => Some(req)
    case Sweep(req, _) => Some(req)
    case SweepOne(req, _, _) => Some(req)
    case Leave(e, _, _) => Some(e.req)
    case Send(e, _, _) => Some(e.req)
    case Finish(e, _, _) => Some(e.req)
  }

  predicate Idle(th: Thread) {
    th.ctl.Resting? && th.call == None
  }

  predicate Releasing(th: Thread) {
    th.ctl.Leave? && th.call == None
  }

  /** What any step does to the threads. */
  ghost predicate Shape(g: G, t: Tid, c: Choice, g': G) {
    var th, th' := Th(g.threads, t), Th(g'.threads, t);
    && (forall u: Tid | u != t :: Th(g'.threads, u) == Th(g.threads, u))
    && (if Idle(th) then th' == Thread(WantFiles(c.req), None)
        else th'.ctl.Resting? || Serving(th'.ctl) == Serving(th.ctl))
    && (if Releasing(th) then
          && g'.trace == Then(g.trace, th.ctl.e, Abs(g.d))
          && th' == Thread(Send(th.ctl.e, th.ctl.send, th.ctl.doomed), None)
        else g'.trace == g.trace)
    && (th'.ctl.Send? && !Releasing(th) ==> th.ctl == th'.ctl)
    && (th'.ctl.Finish? ==> th.ctl.Send? || th.ctl.Finish?)
    && (Critical(th'.ctl) ==> Critical(th.ctl) || th.ctl.WantFiles?)
    && (th'.ctl.Resting? ==> th.ctl.Resting? || th.ctl.Send? || th.ctl.Finish?)
    && (th'.ctl.WantFiles? ==> th.ctl.Resting? || th.ctl == th'.ctl)
  }

  lemma InnerShape(cfg: Config, g: G, t: Tid, c: Choice, g': G)
    requires Th(g.threads, t).call.Some?
    requires InnerStep(g, t, c, Th(g.threads, t).ctl, Th(g.threads, t).call.value) == Some(g')
    ensures Shape(g, t, c, g')
  {
  }

  lemma LookupShape(cfg: Config, g: G, t: Tid, c: Choice, req: Request, g': G)
    requires Th(g.threads, t) == Thread(Lookup(req), None) && LookupStep(cfg, g, t, c, req) == Some(g')
    ensures Shape(g, t, c, g')
  {
  }

  lemma GrowShape(cfg: Config, g: G, t: Tid, c: Choice, req: Request, f: Fid, grown: File, added: nat, g': G)
    requires Th(g.threads, t) == Thread(Locked(req, f), None)
             && GrowStep(cfg, g, t, c, req, f, grown, added) == Some(g')
    ensures Shape(g, t, c, g')
  {
  }

  lemma LockedShape(cfg: Config, g: G, t: Tid, c: Choice, req: Request, f: Fid, g': G)
    requires Th(g.threads, t) == Thread(Locked(req, f), None) && LockedStep(cfg, g, t, c, req, f) == Some(g')
    ensures Shape(g, t, c, g')
  {
    if req.Write? || req.Append? {
      var file := g.d.files[f];
      var grown := if req.Write? then Written(file, req.data, c.t1) else Extended(file, req.data, c.t1);
      if GrowStep(cfg, g, t, c, req, f, grown, |req.data|) == Some(g') {
        GrowShape(cfg, g, t, c, req, f, grown, |req.data|, g');
      }
    } else {
      PlainShape(cfg, g, t, c, req, f, g');
    }
  }

  lemma PlainShape(cfg: Config, g: G, t: Tid, c: Choice, req: Request, f: Fid, g': G)
    requires Th(g.threads, t) == Thread(Locked(req, f), None) && LockedStep(cfg, g, t, c, req, f) == Some(g')
    requires !req.Write? && !req.Append?
    ensures Shape(g, t, c, g')
  {
  }

  lemma VisitShape(cfg: Config, g: G, t: Tid, c: Choice, g': G)
    requires var ctl := Th(g.threads, t).ctl; ctl.Compare? || ctl.Collect? || ctl.Sweep? || ctl.SweepOne?
    requires Th(g.threads, t).call == None && Step(cfg, g, t, c) == Some(g')
    ensures Shape(g, t, c, g')
  {
  }

  lemma ScanShape(cfg: Config, g: G, t: Tid, c: Choice, job: Job, todo: seq<Fid>, best: Option<Fid>, g': G)
    requires Th(g.threads, t) == Thread(Scan(job, todo, best), None)
             && ScanStep(cfg, g, t, c, job, todo, best) == Some(g')
    ensures Shape(g, t, c, g')
  {
  }

  lemma ReplyShape(cfg: Config, g: G, t: Tid, c: Choice, g': G)
    requires var ctl := Th(g.threads, t).ctl; ctl.Leave? || ctl.Send? || ctl.Finish?
    requires Th(g.threads, t).call == None && Step(cfg, g, t, c) == Some(g')
    ensures Shape(g, t, c, g')
  {
  }

  lemma StepShape(cfg: Config, g: G, t: Tid, c: Choice, g': G)
    requires Step(cfg, g, t, c) == Some(g')
    ensures Shape(g, t, c, g')
  {
    var th := Th(g.threads, t);
    if th.call.Some? {
      InnerShape(cfg, g, t, c, g');
    } else if th.ctl.Lookup? {
      LookupShape(cfg, g, t, c, th.ctl.req, g');
    } else if th.ctl.Locked? {
      LockedShape(cfg, g, t, c, th.ctl.req, th.ctl.f, g');
    } else if th.ctl.Scan? {
      ScanShape(cfg, g, t, c, th.ctl.job, th.ctl.todo, th.ctl.best, g');
    } else if th.ctl.Compare? || th.ctl.Collect? || th.ctl.Sweep? || th.ctl.SweepOne? {
      VisitShape(cfg, g, t, c, g');
    } else if th.ctl.Leave? || th.ctl.Send? || th.ctl.Finish? {
      ReplyShape(cfg, g, t, c, g');
    }
  }

  // ------------------------------------------------------- one effect per request

  /** How many requests `t` has started on. */
  function Arrivals(r: Run, t: Tid): int {
    if r.Boot? then 0 else Arrivals(r.before, t) + Bit(r.who == t && Idle(Th(End(r.before).threads, t)))
  }

  /** How many critical sections of `t` have joined the trace. */
  function Effects(r: Run, t: Tid): int {
    if r.Boot? then 0 else Effects(r.before, t) + Bit(r.who == t && Releasing(Th(End(r.before).threads, t)))
  }

  /** Not yet past the release of `files_mtx`. */
  predicate Pending(ctl: Control) {
    ctl.WantFiles? || Critical(ctl)
  }

  /** Each request takes effect exactly once, after it arrives and before it is answered. */
  lemma {:induction false} OneEffectPerRequest(cfg: Config, r: Run, t: Tid)
    requires Happens(cfg, r)
    ensures Arrivals(r, t) == Effects(r, t) + Bit(Pending(Th(End(r).threads, t).ctl))
  {
    if r.Moved? {
      OneEffectPerRequest(cfg, r.before, t);
      StepShape(cfg, End(r.before), r.who, r.choice, r.g);
    }
  }

  // ------------------------------------------------------------- atomic snapshots

  /** While it sends, a thread holds what it sends as a reader, so that others may read it too. */
  lemma SendersAreReaders(cfg: Config, r: Run, t: Tid, f: Fid)
    requires Happens(cfg, r) && Th(End(r).threads, t).ctl.Send? && f in Th(End(r).threads, t).ctl.send
    requires Th(End(r).threads, t).call != Some(f)
    ensures f in End(r).locks && R.At(End(r).locks[f], t) == R.Holds(false)
  {
    RunKeepsGInv(cfg, r);
    SendsAsReader(End(r), t, f);
  }

  lemma SendsAsReader(g: G, t: Tid, f: Fid)
    requires Struct(g) && Th(g.threads, t).ctl.Send? && f in Th(g.threads, t).ctl.send
    requires Th(g.threads, t).call != Some(f)
    ensures f in g.locks && R.At(g.locks[f], t) == R.Holds(false)
  {
    AtThread(g, t);
    SendIsRead(Th(g.threads, t), t, g.locks.Keys, g.owner, g.d.table.Values, g.d.files, f);
    HeldAs(g.threads, g.locks, t, f);
  }

  lemma SendIsRead(th: Thread, t: Tid, alive: set<Fid>, owner: Option<Tid>, stored: set<Fid>, files: map<Fid, File>,
                   f: Fid)
    requires ThreadOk(th, t, alive, owner, stored, files) && th.ctl.Send? && f in th.ctl.send
    ensures f in alive && f in Rd(th.ctl) && f !in Wr(th.ctl)
  {
    assert f in Elems(th.ctl.send);
  }

  /** The stage of the run at which a sending thread released `files_mtx`. */
  lemma {:induction false} SendingSince(cfg: Config, r: Run, t: Tid) returns (r0: Run)
    requires Happens(cfg, r) && Th(End(r).threads, t).ctl.Send?
    ensures Extends(r, r0) && Happens(cfg, r0) && r0.Moved? && r0.who == t
    ensures Releasing(Th(End(r0.before).threads, t)) && Th(End(r0).threads, t).ctl == Th(End(r).threads, t).ctl
    ensures Th(End(r0.before).threads, t).ctl.e == Th(End(r).threads, t).ctl.e
    ensures End(r0).trace == Then(End(r0.before).trace, Th(End(r).threads, t).ctl.e, Abs(End(r0.before).d))
  {
    StepShape(cfg, End(r.before), r.who, r.choice, r.g);
    if r.who == t && Releasing(Th(End(r.before).threads, t)) {
      r0 := r;
    } else {
      r0 := SendingSince(cfg, r.before, t);
    }
  }

  /** What a lawful event sends is in the store it leaves. */
  lemma SentIsStored(cfg: Config, s: State, e: Event, s': State, i: nat)
    requires StoreSpec.Inv(cfg, s) && Next(cfg, s, e, s') && i < |e.reply.sent|
    ensures var p := e.reply.sent[i].path; p in s'.files && PayloadOf(s'.files[p]) == e.reply.sent[i]
    ensures e.req.Read? || e.req.ReadN?
  {
  }

  /** The last event of a lawful history sends what the state it leaves has stored. */
  lemma SentAtRelease(cfg: Config, tr: Trace)
    requires Lawful(cfg, tr) && tr.Then?
    ensures forall i | 0 <= i < |tr.event.reply.sent| ::
              var p := tr.event.reply.sent[i].path;
              p in tr.state.files && PayloadOf(tr.state.files[p]) == tr.event.reply.sent[i]
    ensures tr.event.req.ReadN? ==> |tr.event.reply.sent| == HowMany(tr.event.req.n, |tr.state.files|)
  {
    RunKeepsInv(cfg, tr.before);
    forall i | 0 <= i < |tr.event.reply.sent|
      ensures var p := tr.event.reply.sent[i].path;
              p in tr.state.files && PayloadOf(tr.state.files[p]) == tr.event.reply.sent[i]
    {
      SentIsStored(cfg, Last(tr.before), tr.event, tr.state, i);
    }
  }

  /** While a thread sends, its objects are alive and show what its reply lists. */
  lemma SendingShows(cfg: Config, r: Run, t: Tid)
    requires Happens(cfg, r) && Th(End(r).threads, t).ctl.Send?
    ensures var Send(e, send, _) := Th(End(r).threads, t).ctl;
            && |send| == |e.reply.sent|
            && forall i | 0 <= i < |send| ::
                 && send[i] in End(r).locks && send[i] in End(r).d.files
                 && var f := End(r).d.files[send[i]];
                    && f.path == e.reply.sent[i].path
                    && f.contents == e.reply.sent[i].contents && f.size == e.reply.sent[i].size
  {
    RunKeepsGInv(cfg, r);
    AtThread(End(r), t);
    var Send(e, send, doomed) := Th(End(r).threads, t).ctl;
    forall i | 0 <= i < |send| ensures send[i] in End(r).locks {
      assert send[i] in Elems(send);
    }
  }

  /**
    Atomic snapshots: however long a thread takes to send, and whatever others
    do meanwhile, the objects it sends from are alive and contain what the store
    contained at the moment `r0` at which the thread released `files_mtx`.
   */
  lemma AtomicSnapshot(cfg: Config, r: Run, t: Tid) returns (r0: Run)
    requires Happens(cfg, r) && Th(End(r).threads, t).ctl.Send?
    ensures Happens(cfg, r0) && Extends(r, r0)
    ensures r0.Moved? && r0.who == t && Releasing(Th(End(r0.before).threads, t))
    ensures var Send(e, send, _) := Th(End(r).threads, t).ctl;
            var s := Abs(End(r0.before).d);
            && e == Th(End(r0.before).threads, t).ctl.e
            && |send| == |e.reply.sent|
            && forall i | 0 <= i < |send| ::
                 && send[i] in End(r).locks && send[i] in End(r).d.files
                 && e.reply.sent[i].path in s.files
                 && var f := s.files[e.reply.sent[i].path];
                    && f.path == End(r).d.files[send[i]].path == e.reply.sent[i].path
                    && f.contents == End(r).d.files[send[i]].contents == e.reply.sent[i].contents
                    && f.size == End(r).d.files[send[i]].size == e.reply.sent[i].size
    ensures var e := Th(End(r).threads, t).ctl.e;
            var stored := |Abs(End(r0.before).d).files|;
            e.req.ReadN? ==> |e.reply.sent| == if 0 < e.req.n <= stored then e.req.n else stored
  {
    r0 := SendingSince(cfg, r, t);
    ReleaseIsLawful(cfg, r0);
    SendingShows(cfg, r, t);
    SentAtRelease(cfg, End(r0).trace);
  }

  lemma ReleaseIsLawful(cfg: Config, r: Run)
    requires Happens(cfg, r)
    ensures Lawful(cfg, End(r).trace)
  {
    Linearizable(cfg, r);
  }

  // ------------------------------------------------------------ safe reclamation

  /** What a step does to the objects: it frees one at most, held by its thread as a writer, or makes a fresh one. */
  ghost predicate Objects(g: G, t: Tid, g': G) {
    && g.next <= g'.next
    && g'.locks.Keys - g.locks.Keys <= {g.next}
    && (g'.locks.Keys - g.locks.Keys != {} ==> g'.next > g.next)
    && g.locks.Keys - g'.locks.Keys <= Wr(Th(g.threads, t).ctl)
    && (g.locks.Keys - g'.locks.Keys != {} ==> Th(g.threads, t).call == None)
  }

  lemma InnerObjects(cfg: Config, g: G, t: Tid, c: Choice, g': G)
    requires Th(g.threads, t).call.Some?
    requires InnerStep(g, t, c, Th(g.threads, t).ctl, Th(g.threads, t).call.value) == Some(g')
    ensures Objects(g, t, g')
  {
  }

  lemma LockedObjects(cfg: Config, g: G, t: Tid, c: Choice, req: Request, f: Fid, g': G)
    requires Th(g.threads, t) == Thread(Locked(req, f), None) && LockedStep(cfg, g, t, c, req, f) == Some(g')
    ensures Objects(g, t, g')
  {
    if req.Write? || req.Append? {
      var file := g.d.files[f];
      var grown := if req.Write? then Written(file, req.data, c.t1) else Extended(file, req.data, c.t1);
      if GrowStep(cfg, g, t, c, req, f, grown, |req.data|) == Some(g') {
        assert g'.locks.Keys == g.locks.Keys;
      }
    }
  }

  lemma ScanObjects(cfg: Config, g: G, t: Tid, c: Choice, job: Job, todo: seq<Fid>, best: Option<Fid>, g': G)
    requires Th(g.threads, t) == Thread(Scan(job, todo, best), None)
             && ScanStep(cfg, g, t, c, job, todo, best) == Some(g')
    ensures Objects(g, t, g')
  {
  }

  lemma StepObjects(cfg: Config, g: G, t: Tid, c: Choice, g': G)
    requires Step(cfg, g, t, c) == Some(g')
    ensures Objects(g, t, g')
  {
    var th := Th(g.threads, t);
    if th.call.Some? {
      InnerObjects(cfg, g, t, c, g');
    } else if th.ctl.Locked? {
      LockedObjects(cfg, g, t, c, th.ctl.req, th.ctl.f, g');
    } else if th.ctl.Scan? {
      ScanObjects(cfg, g, t, c, th.ctl.job, th.ctl.todo, th.ctl.best, g');
    }
  }

  /** The files that a thread's iterator will still reach. */
  function ToVisit(ctl: Control): seq<Fid> {
    match ctl
    case Scan(_, todo, _) => todo
    case Compare(_, todo, _, _) => todo
    case Collect(_, _, todo, _) => todo
    case Sweep(_, todo) => todo
    case SweepOne(_, todo, _) => todo
    case _ => []
  }

  lemma VisitsAreStored(cfg: Config, g: G, u: Tid)
    requires GInv(cfg, g)
    ensures forall f | f in ToVisit(Th(g.threads, u).ctl) :: f in g.d.table.Values
  {
    AtThread(g, u);
    var ctl := Th(g.threads, u).ctl;
    if Critical(ctl) {
      assert CtlData(cfg, g.d, Last(g.trace), ctl);
    }
  }

  /**
    Safe reclamation: at the step that frees a file object nobody else holds its
    lock, sleeps on its condition or is on the way into it, and afterwards
    neither the table nor any thread leads to it, nor an iterator that is still
    under way.
   */
  lemma FreedIsUnreachable(cfg: Config, r: Run, f: Fid, u: Tid)
    requires Happens(cfg, r) && r.Moved? && f in End(r.before).locks && f !in End(r).locks
    ensures f in Wr(Th(End(r.before).threads, r.who).ctl) && R.At(End(r.before).locks[f], r.who) == R.Holds(true)
    ensures u != r.who ==> R.At(End(r.before).locks[f], u) == R.Out
    ensures f !in End(r).d.table.Values && f !in Refs(Th(End(r).threads, u))
    ensures f !in ToVisit(Th(End(r).threads, u).ctl)
  {
    RunKeepsGInv(cfg, r.before);
    RunKeepsGInv(cfg, r);
    VisitsAreStored(cfg, End(r), u);
    StepObjects(cfg, End(r.before), r.who, r.choice, r.g);
    StepShape(cfg, End(r.before), r.who, r.choice, r.g);
    FreedFits(End(r.before), End(r), r.who, f, u);
  }

  lemma FreedFits(g: G, g': G, t: Tid, f: Fid, u: Tid)
    requires Struct(g) && Struct(g') && f in g.locks && f !in g'.locks && f in Wr(Th(g.threads, t).ctl)
    requires Th(g.threads, t).call == None
    requires u != t ==> Th(g'.threads, u) == Th(g.threads, u)
    ensures R.At(g.locks[f], t) == R.Holds(true)
    ensures u != t ==> R.At(g.locks[f], u) == R.Out
    ensures f !in g'.d.table.Values && f !in Refs(Th(g'.threads, u))
  {
    HeldAs(g.threads, g.locks, t, f);
    AtThread(g', u);
    if u != t {
      assert Fits(Th(g.threads, u), f, R.At(g.locks[f], u));
    }
  }

  /** No object is freed twice or comes back: identities are never used again. */
  lemma {:induction false} FreedForever(cfg: Config, r: Run, early: Run, f: Fid)
    requires Happens(cfg, r) && Extends(r, early)
    requires f < End(early).next && f !in End(early).locks
    ensures f < End(r).next && f !in End(r).locks
  {
    if r != early {
      FreedForever(cfg, r.before, early, f);
      StepObjects(cfg, End(r.before), r.who, r.choice, r.g);
      assert f !in End(r).locks.Keys - End(r.before).locks.Keys;
    }
  }
}
