/** The critical sections that may evict: creation, and growth beyond the byte limit. */
module ProtocolEvict {
  import opened Basics
  import opened Clock
  import opened StoreSpec
  import opened Eviction
  import opened StoreRuns
  import opened Protocol
  import opened ProtocolInv
  import opened ProtocolLocks
  import opened ProtocolFrame
  import opened ProtocolFiles
  import opened ProtocolLoops
  import R = RwLock

  // ------------------------------------------------------------- a file is created

  lemma CreatedStruct(cfg: Config, g: G, t: Tid, c: Choice, job: Job, g': G)
    requires Struct(g) && Th(g.threads, t) == Thread(Created(job.req, job.own, job.created, job.used), None)
    requires job.gone == [] && g' in {Go(g, t, Scan(job, c.order, None)), Go(g, t, Insert(job))} && job.req.Open?
    ensures Struct(g')
  {
    AtThread(g, t);
    if g' == Go(g, t, Insert(job)) {
      GoKeepsStruct(g, t, Insert(job));
    } else {
      GoKeepsStruct(g, t, Scan(job, c.order, None));
    }
  }

  lemma CreatedKeeps(cfg: Config, g: G, t: Tid, c: Choice, req: Request, f: Fid, created: Time, used: Time, g': G)
    requires GInv(cfg, g) && Th(g.threads, t) == Thread(Created(req, f, created, used), None)
    requires CreatedStep(cfg, g, t, c, req, f, created, used) == Some(g')
    ensures GInv(cfg, g')
  {
    var job := Job(req, f, created, used, 0, 0, [], []);
    AtThread(g, t);
    assert CtlData(cfg, g.d, Last(g.trace), Created(req, f, created, used));
    CreatedStruct(cfg, g, t, c, job, g');
    CreatedData(cfg, g.d, g.locks.Keys, Last(g.trace), job, c.order);
    OwnerData(cfg, g, t, g');
  }

  lemma CreatedData(cfg: Config, d: Data, alive: set<Fid>, s: State, job: Job, order: seq<Fid>)
    requires TableOk(d, alive) && CreateData(cfg, d, s, job) && job.out == [] && job.gone == []
    ensures if d.counters.files == cfg.maxFiles && d.table != map[]
            then IsOrder(d, order) ==> CtlData(cfg, d, s, Scan(job, order, None))
            else CtlData(cfg, d, s, Insert(job))
  {
    WithoutNone(s.files);
    TableEmpty(d, alive);
    if IsOrder(d, order) {
      ScanBegins(cfg, d, order);
    }
  }

  lemma TableEmpty(d: Data, alive: set<Fid>)
    requires TableOk(d, alive)
    ensures d.table != map[] <==> |Abs(d).files| != 0
  {
    assert Abs(d).files.Keys == d.table.Keys;
  }

  // -------------------------------------------------------------- the victim scan

  /** The control point after `expell_single_file` has looked at one more file. */
  lemma SkipKeeps(cfg: Config, d: Data, s: State, job: Job, todo: seq<Fid>, best: Option<Fid>)
    requires CtlData(cfg, d, s, Scan(job, todo, best)) && todo != []
    requires todo[0] in d.files && !d.files[todo[0]].canBeExpelled
    ensures CtlData(cfg, d, s, Scan(job, todo[1..], best))
  {
    TailElems(todo);
    ScanSkips(cfg, d, todo, best);
  }

  lemma InTail(todo: seq<Fid>, f: Fid)
    requires todo != [] && NoDup(todo)
    ensures f in todo[1..] <==> f in todo && f != todo[0]
  {
    TailElems(todo);
    assert f in todo[1..] <==> f in Elems(todo[1..]);
  }

  lemma ScanSkips(cfg: Config, d: Data, todo: seq<Fid>, best: Option<Fid>)
    requires ScanData(cfg, d, todo, best, None) && todo != []
    requires todo[0] in d.files && !d.files[todo[0]].canBeExpelled
    ensures ScanData(cfg, d, todo[1..], best, None)
  {
    forall f ensures f in todo[1..] <==> f in todo && f != todo[0] {
      InTail(todo, f);
    }
    TailElems(todo);
  }

  lemma ScanLooks(cfg: Config, d: Data, todo: seq<Fid>, best: Option<Fid>)
    requires ScanData(cfg, d, todo, best, None) && todo != []
    requires todo[0] in d.files && d.files[todo[0]].canBeExpelled
    ensures ScanData(cfg, d, todo[1..], best, Some(todo[0]))
  {
    forall f ensures f in todo[1..] <==> f in todo && f != todo[0] {
      InTail(todo, f);
    }
    TailElems(todo);
  }

  /** Keeping the older of the two keeps a best that is no newer than any file passed. */
  lemma ScanCompares(cfg: Config, d: Data, todo: seq<Fid>, best: Option<Fid>, cur: Fid)
    requires ScanData(cfg, d, todo, best, Some(cur))
    ensures best.None? || Older(cfg.policy, d.files[cur], d.files[best.value]) ==>
            ScanData(cfg, d, todo, Some(cur), None)
    ensures best.Some? && !Older(cfg.policy, d.files[cur], d.files[best.value]) ==> ScanData(cfg, d, todo, best, None)
  {
  }

  /** A candidate is neither the file being made nor one already expelled. */
  lemma CandidateIsOther(cfg: Config, d: Data, s: State, job: Job, b: Fid)
    requires JobData(cfg, d, s, job) && Candidate(d, b)
    ensures b !in {job.own} + Elems(job.gone)
  {
  }

  lemma LooksStruct(cfg: Config, g: G, t: Tid, c: Choice, job: Job, todo: seq<Fid>, best: Option<Fid>, g': G)
    requires Struct(g) && Th(g.threads, t) == Thread(Scan(job, todo, best), None) && todo != []
    requires ScanStep(cfg, g, t, c, job, todo, best) == Some(g')
    ensures Struct(g') && g'.owner == g.owner && g'.trace == g.trace
  {
    AtThread(g, t);
    if !g.d.files[todo[0]].canBeExpelled {
      GoKeepsStruct(g, t, Scan(job, todo[1..], best));
    } else {
      BeginKeepsStruct(g, t, todo[0], Ask(true), Compare(job, todo[1..], best, todo[0]));
    }
  }

  lemma LooksData(cfg: Config, g: G, t: Tid, c: Choice, s: State, job: Job, todo: seq<Fid>, best: Option<Fid>, g': G)
    requires CtlData(cfg, g.d, s, Scan(job, todo, best)) && todo != []
    requires ScanStep(cfg, g, t, c, job, todo, best) == Some(g')
    ensures CtlData(cfg, g'.d, s, Th(g'.threads, t).ctl)
  {
    if !g.d.files[todo[0]].canBeExpelled {
      SkipKeeps(cfg, g.d, s, job, todo, best);
    } else {
      ScanLooks(cfg, g.d, todo, best);
    }
  }

  lemma LooksKeeps(cfg: Config, g: G, t: Tid, c: Choice, job: Job, todo: seq<Fid>, best: Option<Fid>, g': G)
    requires GInv(cfg, g) && Th(g.threads, t) == Thread(Scan(job, todo, best), None) && todo != []
    requires ScanStep(cfg, g, t, c, job, todo, best) == Some(g')
    ensures GInv(cfg, g')
  {
    AtThread(g, t);
    assert CtlData(cfg, g.d, Last(g.trace), Scan(job, todo, best));
    LooksStruct(cfg, g, t, c, job, todo, best, g');
    LooksData(cfg, g, t, c, Last(g.trace), job, todo, best, g');
    OwnerData(cfg, g, t, g');
  }

  lemma CompareStruct(cfg: Config, g: G, t: Tid, job: Job, todo: seq<Fid>, best: Option<Fid>, cur: Fid, g': G)
    requires Struct(g) && Th(g.threads, t) == Thread(Compare(job, todo, best, cur), None)
    requires cur !in {job.own} + Elems(job.gone) && best != Some(cur)
    requires best.Some? ==> best.value !in {job.own} + Elems(job.gone)
    requires CompareStep(cfg, g, t, job, todo, best, cur) == Some(g')
    ensures Struct(g')
  {
    AtThread(g, t);
    if best.None? {
      GoKeepsStruct(g, t, Scan(job, todo, Some(cur)));
    } else if Older(cfg.policy, g.d.files[cur], g.d.files[best.value]) {
      LetsOneGo(g, t, job, todo, best, cur, best.value, cur);
    } else {
      LetsOneGo(g, t, job, todo, best, cur, cur, best.value);
    }
  }

  /** Of the two files it holds the scan unlocks one and keeps the other. */
  lemma LetsOneGo(g: G, t: Tid, job: Job, todo: seq<Fid>, best: Option<Fid>, cur: Fid, drop: Fid, keep: Fid)
    requires Struct(g) && Th(g.threads, t) == Thread(Compare(job, todo, best, cur), None)
    requires best.Some? && best.value != cur && {drop, keep} == {cur, best.value}
    requires drop !in {job.own} + Elems(job.gone)
    requires CanBegin(g, t, drop, R.Release)
    ensures Struct(Begin(g, t, drop, R.Release, Scan(job, todo, Some(keep))))
  {
    AtThread(g, t);
    assert drop != keep && drop in {cur, best.value} && keep in {cur, best.value};
    BeginKeepsStruct(g, t, drop, R.Release, Scan(job, todo, Some(keep)));
  }

  lemma CompareData(cfg: Config, g: G, t: Tid, s: State, job: Job, todo: seq<Fid>, best: Option<Fid>, cur: Fid, g': G)
    requires CtlData(cfg, g.d, s, Compare(job, todo, best, cur))
    requires CompareStep(cfg, g, t, job, todo, best, cur) == Some(g')
    ensures CtlData(cfg, g'.d, s, Th(g'.threads, t).ctl)
    ensures g'.owner == g.owner && g'.trace == g.trace
  {
    ScanCompares(cfg, g.d, todo, best, cur);
  }

  lemma ComparesOthers(cfg: Config, d: Data, s: State, job: Job, todo: seq<Fid>, best: Option<Fid>, cur: Fid)
    requires CtlData(cfg, d, s, Compare(job, todo, best, cur))
    ensures cur !in {job.own} + Elems(job.gone) && best != Some(cur)
    ensures best.Some? ==> best.value !in {job.own} + Elems(job.gone)
  {
    CandidateIsOther(cfg, d, s, job, cur);
    if best.Some? {
      CandidateIsOther(cfg, d, s, job, best.value);
    }
  }

  lemma CompareKeeps(cfg: Config, g: G, t: Tid, job: Job, todo: seq<Fid>, best: Option<Fid>, cur: Fid, g': G)
    requires GInv(cfg, g) && Th(g.threads, t) == Thread(Compare(job, todo, best, cur), None)
    requires CompareStep(cfg, g, t, job, todo, best, cur) == Some(g')
    ensures GInv(cfg, g')
  {
    AtThread(g, t);
    assert CtlData(cfg, g.d, Last(g.trace), Compare(job, todo, best, cur));
    ComparesOthers(cfg, g.d, Last(g.trace), job, todo, best, cur);
    CompareStruct(cfg, g, t, job, todo, best, cur, g');
    CompareData(cfg, g, t, Last(g.trace), job, todo, best, cur, g');
    OwnerData(cfg, g, t, g');
  }

  // -------------------------------------------------------------- expelling a file

  /** A finished scan has found the rightful victim. */
  lemma BestIsVictim(cfg: Config, d: Data, alive: set<Fid>, b: Fid)
    requires TableOk(d, alive) && ScanData(cfg, d, [], Some(b), None)
    ensures b in d.files && d.files[b].path in d.table && d.table[d.files[b].path] == b
    ensures Victim(cfg.policy, Abs(d).files, d.files[b])
  {
    CollectFound(d, alive, b);
  }

  function WithGone(job: Job, b: Fid, v: File): Job {
    job.(gone := job.gone + [b], out := job.out + [v], freed := job.freed + v.size)
  }

  function AfterUnlink(d: Data, v: File): Data {
    d.(table := d.table - {v.path}, counters := OneExpelled(d.counters, v))
  }

  lemma ExpelGone(d: Data, alive: set<Fid>, job: Job, b: Fid)
    requires TableOk(d, alive) && GoneData(d, job) && b != job.own
    requires b in d.files && d.files[b].path in d.table && d.table[d.files[b].path] == b
    ensures GoneData(AfterUnlink(d, d.files[b]), WithGone(job, b, d.files[b]))
  {
    assert b in d.table.Values;
    UnlinkLeavesNoWay(d, alive, d.files[b].path);
    assert (d.table - {d.files[b].path}).Values <= d.table.Values;
  }

  lemma ExpelCreate(cfg: Config, d: Data, alive: set<Fid>, s: State, job: Job, b: Fid)
    requires TableOk(d, alive) && CreateData(cfg, d, s, job)
    requires b in d.files && Victim(cfg.policy, Abs(d).files, d.files[b])
    ensures CreateData(cfg, AfterUnlink(d, d.files[b]), s, WithGone(job, b, d.files[b]))
  {
    var v := d.files[b];
    EvictOneMore(cfg.policy, s.files, job.out, v);
    WithoutOneMore(s.files, job.out, v);
    ExpelledOneMore(s.counters, job.out, v);
    AbsUnlink(d, alive, v.path, OneExpelled(d.counters, v));
    assert (d.table - {v.path}).Values <= d.table.Values;
  }

  lemma ExpelGrow(cfg: Config, d: Data, alive: set<Fid>, s: State, job: Job, b: Fid)
    requires TableOk(d, alive) && GrowData(cfg, d, s, job) && job.freed < job.need && b != job.own
    requires b in d.files && d.files[b].path in d.table && d.table[d.files[b].path] == b
    requires Victim(cfg.policy, Abs(d).files, d.files[b])
    ensures GrowData(cfg, AfterUnlink(d, d.files[b]), s, WithGone(job, b, d.files[b]))
  {
    var v := d.files[b];
    var grown := GrownBy(s, job.req, job.used);
    ExpelRound(cfg.policy, Shielded(s, grown), job.need, job.out, Abs(d).files, v);
    ExpelledOneMore(Grown(s, grown, |DataOf(job.req)|).counters, job.out, v);
    AbsUnlink(d, alive, v.path, OneExpelled(d.counters, v));
  }

  lemma ExpelJob(cfg: Config, d: Data, alive: set<Fid>, s: State, job: Job, b: Fid)
    requires TableOk(d, alive) && JobData(cfg, d, s, job) && NeedsMore(cfg, s, job)
    requires ScanData(cfg, d, [], Some(b), None)
    ensures b in d.files && JobData(cfg, AfterUnlink(d, d.files[b]), s, WithGone(job, b, d.files[b]))
  {
    BestIsVictim(cfg, d, alive, b);
    CandidateIsOther(cfg, d, s, job, b);
    ExpelGone(d, alive, job, b);
    if job.req.Open? {
      ExpelCreate(cfg, d, alive, s, job, b);
    } else {
      ExpelGrow(cfg, d, alive, s, job, b);
    }
  }

  // ------------------------------------------------------- the growth is settled

  /** Enough is freed: the store is as the sequential handler leaves it. */
  lemma SettleData(cfg: Config, d: Data, alive: set<Fid>, s: State, job: Job)
    requires TableOk(d, alive) && GrowData(cfg, d, s, job) && StoreSpec.Inv(cfg, s)
    requires job.freed >= job.need
    ensures var d' := d.(files := d.files[job.own := d.files[job.own].(canBeExpelled := true)],
                         counters := NoteSpace(d.counters));
            Next(cfg, s, Event(job.req, job.created, job.used, Reply(SA_SUCCESS, [], job.out)), Abs(d'))
  {
    var p := job.req.path;
    var grown := GrownBy(s, job.req, job.used);
    assert FileOk(p, s.files[p]);
    assert grown.(canBeExpelled := false).(canBeExpelled := true) == grown;
    AbsSet(d, alive, p, grown, NoteSpace(d.counters));
    SettledFiles(cfg.policy, s, grown, job.out);
    SettledNext(cfg, s, job, grown);
  }

  lemma SettledFiles(policy: Policy, s: State, grown: File, out: seq<File>)
    requires Evictions(policy, Shielded(s, grown), out)
    ensures Without(Shielded(s, grown), out)[grown.path := grown] == Without(s.files[grown.path := grown], out)
  {
    ShieldedStays(policy, s, grown, out);
  }

  lemma SettledNext(cfg: Config, s: State, job: Job, grown: File)
    requires GrowthAccepted(cfg, s, job.req) && grown == GrownBy(s, job.req, job.used)
    requires var need := s.counters.space + |DataOf(job.req)| - cfg.maxSpace;
             need > 0 && ExpelsUntil(cfg.policy, Shielded(s, grown), need, job.out)
    ensures var big := Grown(s, grown, |DataOf(job.req)|);
            Next(cfg, s, Event(job.req, job.created, job.used, Reply(SA_SUCCESS, [], job.out)),
                 State(Without(big.files, job.out), NoteSpace(AfterExpelling(big.counters, job.out))))
  {
  }
}
