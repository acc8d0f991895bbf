/** The steps that end an eviction: unlinking the victim, settling a growth, entering a new file. */
module ProtocolSettle {
  import opened Basics
  import opened StoreSpec
  import opened StoreRuns
  import opened Protocol
  import opened ProtocolInv
  import opened ProtocolLocks
  import opened ProtocolFiles
  import opened ProtocolLoops
  import opened ProtocolEvict
  import R = RwLock

  // --------------------------------------------------------- unlinking the victim

  /** What a finished creation or growth reports. */
  function Entered(job: Job): Event {
    Event(job.req, job.created, job.used, Reply(SA_SUCCESS, [], job.out))
  }

  /** Where the owner stands after a finished scan: `b` is a stored file, none of its own. */
  ghost predicate AtVictim(g: G, t: Tid, job: Job, b: Fid) {
    && Th(g.threads, t) == Thread(Scan(job, [], Some(b)), None)
    && b in g.d.files && b != job.own && b !in job.gone
    && g.d.files[b].path in g.d.table && g.d.table[g.d.files[b].path] == b
  }

  lemma VictimUnlinks(g: G, t: Tid, job: Job, b: Fid)
    requires Struct(g) && AtVictim(g, t, job, b)
    ensures var g1 := Unlink(g, g.d.files[b].path, OneExpelled(g.d.counters, g.d.files[b]));
            Struct(g1) && Loose(Scan(WithGone(job, b, g.d.files[b]), [], None)) !! g1.d.table.Values
  {
    var v := g.d.files[b];
    AtThread(g, t);
    UnlinkKeepsStruct(g, v.path, OneExpelled(g.d.counters, v));
    UnlinkLeavesNoWay(g.d, g.locks.Keys, v.path);
    assert (g.d.table - {v.path}).Values <= g.d.table.Values;
    OneMoreElem(job.gone, b);
  }

  /** After the unlinking the victim is on the list of files to free. */
  lemma GoesOnStruct(g1: G, t: Tid, job: Job, b: Fid, v: File, ctl: Control)
    requires Struct(g1) && Th(g1.threads, t) == Thread(Scan(job, [], Some(b)), None)
    requires Loose(Scan(WithGone(job, b, v), [], None)) !! g1.d.table.Values
    requires (exists order :: ctl == Scan(WithGone(job, b, v), order, None))
             || (ctl == Insert(WithGone(job, b, v)) && job.req.Open?)
    ensures Struct(Go(g1, t, ctl))
  {
    OneMoreElem(job.gone, b);
    GoKeepsStruct(g1, t, ctl);
  }

  lemma OwnMayWrite(g1: G, t: Tid, job: Job, b: Fid, file: File)
    requires Struct(g1) && Th(g1.threads, t) == Thread(Scan(job, [], Some(b)), None)
    requires job.own in g1.d.files && file.path == g1.d.files[job.own].path
    ensures MayWrite(g1, t, job.own, file)
  {
    AtThread(g1, t);
    HeldAs(g1.threads, g1.locks, t, job.own);
  }

  lemma OwnSetStruct(g: G, t: Tid, job: Job, b: Fid, file: File, counters: Counters)
    requires Struct(g) && Th(g.threads, t) == Thread(Scan(job, [], Some(b)), None) && b != job.own
    requires job.own in g.d.files && file.path == g.d.files[job.own].path
    ensures Struct(SetCounters(SetFile(g, job.own, file), counters))
  {
    OwnMayWrite(g, t, job, b, file);
    SetFileKeepsStruct(g, t, job.own, file);
    CountersKeepStruct(SetFile(g, job.own, file), counters);
  }

  lemma SettleStruct(g1: G, t: Tid, job: Job, b: Fid, v: File, g': G)
    requires Struct(g1) && Th(g1.threads, t) == Thread(Scan(job, [], Some(b)), None) && b != job.own
    requires GoneData(g1.d, WithGone(job, b, v)) && !job.req.Read?
    requires Loose(Scan(WithGone(job, b, v), [], None)) !! g1.d.table.Values
    requires Settle(g1, t, WithGone(job, b, v)) == Some(g')
    ensures Struct(g')
  {
    var job1 := WithGone(job, b, v);
    var file := g1.d.files[job.own].(canBeExpelled := true);
    var g2 := SetCounters(SetFile(g1, job.own, file), NoteSpace(g1.d.counters));
    OwnSetStruct(g1, t, job, b, file, NoteSpace(g1.d.counters));
    ReportsGone(g2.d, job1, Entered(job1), g1.d);
    OwnUnlocks(g2, t, job, b, v);
  }

  /** Unlock the file that has grown, with the expelled files left to free. */
  lemma OwnUnlocks(g: G, t: Tid, job: Job, b: Fid, v: File)
    requires Struct(g) && Th(g.threads, t) == Thread(Scan(job, [], Some(b)), None) && b != job.own
    requires job.own !in WithGone(job, b, v).gone
    requires Loose(Scan(WithGone(job, b, v), [], None)) !! g.d.table.Values
    requires Shows(g.d.files, Entered(WithGone(job, b, v)), [], WithGone(job, b, v).gone)
    requires CanBegin(g, t, job.own, R.Release)
    ensures var job1 := WithGone(job, b, v);
            Struct(Begin(g, t, job.own, R.Release, Leave(Entered(job1), [], job1.gone)))
  {
    var job1 := WithGone(job, b, v);
    OneMoreElem(job.gone, b);
    BeginKeepsStruct(g, t, job.own, R.Release, Leave(Entered(job1), [], job1.gone));
  }

  /** The reply lists the expelled files as they are. */
  lemma ReportsGone(d': Data, job: Job, e: Event, d: Data)
    requires GoneData(d, job) && e.reply == Reply(SA_SUCCESS, [], job.out) && !e.req.Read?
    requires forall f | f in d.files && f != job.own :: f in d'.files && d'.files[f] == d.files[f]
    ensures Shows(d'.files, e, [], job.gone)
  {
    forall i | 0 <= i < |job.gone| ensures job.gone[i] in d'.files && d'.files[job.gone[i]] == e.reply.expelled[i] {
      assert job.gone[i] in job.gone;
    }
  }

  /** The three ways on after an expulsion. */
  lemma ExpelIs(cfg: Config, g: G, t: Tid, c: Choice, job: Job, b: Fid, g': G)
    requires b in g.d.files && Expel(cfg, g, t, c, job, b) == Some(g')
    ensures var v := g.d.files[b];
            var g1 := Unlink(g, v.path, OneExpelled(g.d.counters, v));
            if job.req.Open? then g' == Go(g1, t, Insert(WithGone(job, b, v)))
            else if job.freed + v.size < job.need then g' == Go(g1, t, Scan(WithGone(job, b, v), c.order, None))
            else Settle(g1, t, WithGone(job, b, v)) == Some(g')
  {
  }

  lemma ExpelStruct(cfg: Config, g: G, t: Tid, c: Choice, job: Job, b: Fid, g': G)
    requires Struct(g) && AtVictim(g, t, job, b) && (job.req.Open? || job.req.Write? || job.req.Append?)
    requires GoneData(AfterUnlink(g.d, g.d.files[b]), WithGone(job, b, g.d.files[b]))
    requires Expel(cfg, g, t, c, job, b) == Some(g')
    ensures Struct(g')
  {
    var v := g.d.files[b];
    var g1 := Unlink(g, v.path, OneExpelled(g.d.counters, v));
    VictimUnlinks(g, t, job, b);
    ExpelIs(cfg, g, t, c, job, b, g');
    ExpelledStruct(g1, t, c.order, job, b, v, g');
  }

  lemma ExpelledStruct(g1: G, t: Tid, order: seq<Fid>, job: Job, b: Fid, v: File, g': G)
    requires Struct(g1) && Th(g1.threads, t) == Thread(Scan(job, [], Some(b)), None) && b != job.own
    requires GoneData(g1.d, WithGone(job, b, v)) && (job.req.Open? || job.req.Write? || job.req.Append?)
    requires Loose(Scan(WithGone(job, b, v), [], None)) !! g1.d.table.Values
    requires if job.req.Open? then g' == Go(g1, t, Insert(WithGone(job, b, v)))
             else if job.freed + v.size < job.need then g' == Go(g1, t, Scan(WithGone(job, b, v), order, None))
             else Settle(g1, t, WithGone(job, b, v)) == Some(g')
    ensures Struct(g')
  {
    if job.req.Open? {
      GoesOnStruct(g1, t, job, b, v, Insert(WithGone(job, b, v)));
    } else if job.freed + v.size < job.need {
      GoesOnStruct(g1, t, job, b, v, Scan(WithGone(job, b, v), order, None));
    } else {
      SettleStruct(g1, t, job, b, v, g');
    }
  }

  /** Where the step that expels `v` leads, spelled out. */
  ghost predicate ExpelsTo(d1: Data, c: Choice, job1: Job, d': Data, ctl': Control) {
    if job1.req.Open? then d' == d1 && ctl' == Insert(job1)
    else if job1.freed < job1.need then d' == d1 && ctl' == Scan(job1, c.order, None) && IsOrder(d1, c.order)
    else
      && job1.own in d1.files
      && d' == d1.(files := d1.files[job1.own := d1.files[job1.own].(canBeExpelled := true)],
                   counters := NoteSpace(d1.counters))
      && ctl' == Leave(Entered(job1), [], job1.gone)
  }

  lemma ExpelGoes(cfg: Config, g: G, t: Tid, c: Choice, job: Job, b: Fid, g': G)
    requires b in g.d.files && Expel(cfg, g, t, c, job, b) == Some(g')
    ensures ExpelsTo(AfterUnlink(g.d, g.d.files[b]), c, WithGone(job, b, g.d.files[b]), g'.d, Th(g'.threads, t).ctl)
    ensures g'.owner == g.owner && g'.trace == g.trace
  {
  }

  lemma ExpelData(cfg: Config, d1: Data, alive: set<Fid>, c: Choice, s: State, job1: Job, d': Data, ctl': Control)
    requires TableOk(d1, alive) && StoreSpec.Inv(cfg, s) && JobData(cfg, d1, s, job1)
    requires job1.req.Open? ==> |job1.out| == 1 && MustMakeRoom(cfg, s)
    requires ExpelsTo(d1, c, job1, d', ctl')
    ensures CtlData(cfg, d', s, ctl')
  {
    if !job1.req.Open? && job1.freed < job1.need {
      ScanBegins(cfg, d1, c.order);
    } else if !job1.req.Open? {
      SettleData(cfg, d1, alive, s, job1);
    }
  }

  lemma ExpelKeeps(cfg: Config, g: G, t: Tid, c: Choice, job: Job, b: Fid, g': G)
    requires GInv(cfg, g) && Th(g.threads, t) == Thread(Scan(job, [], Some(b)), None)
    requires b in g.d.files && Expel(cfg, g, t, c, job, b) == Some(g')
    ensures GInv(cfg, g')
  {
    AtThread(g, t);
    assert CtlData(cfg, g.d, Last(g.trace), Scan(job, [], Some(b)));
    ExpelJob(cfg, g.d, g.locks.Keys, Last(g.trace), job, b);
    BestIsVictim(cfg, g.d, g.locks.Keys, b);
    CandidateIsOther(cfg, g.d, Last(g.trace), job, b);
    ExpelStruct(cfg, g, t, c, job, b, g');
    RunKeepsInv(cfg, g.trace);
    ExpelGoes(cfg, g, t, c, job, b, g');
    ExpelData(cfg, AfterUnlink(g.d, g.d.files[b]), g.locks.Keys, c, Last(g.trace), WithGone(job, b, g.d.files[b]),
              g'.d, Th(g'.threads, t).ctl);
    OwnerData(cfg, g, t, g');
  }

  // ------------------------------------------------------------ entering a new file

  lemma LooseIsWritten(ctl: Control)
    ensures Loose(ctl) <= Wr(ctl)
  {
  }

  /** Linking an object that nobody counts as loose. */
  lemma LinkKeepsStruct(g: G, p: Path, f: Fid, c: Counters)
    requires Struct(g) && f in g.locks && f in g.d.files && g.d.files[f].path == p
    requires forall u: Tid :: f !in Loose(Th(g.threads, u).ctl)
    ensures Struct(g.(d := Data(g.d.table[p := f], g.d.files, c)))
  {
    var table := g.d.table[p := f];
    assert table.Values <= g.d.table.Values + {f};
    forall u: Tid ensures ThreadOk(Th(g.threads, u), u, g.locks.Keys, g.owner, table.Values, g.d.files) {
      AtThread(g, u);
    }
  }

  /** While the owner of `files_mtx` holds `f` as a writer, no other thread counts it as loose. */
  lemma HeldIsNotLoose(g: G, t: Tid, f: Fid, u: Tid)
    requires Struct(g) && g.owner == Some(t) && u != t && f in g.locks && R.At(g.locks[f], t) == R.Holds(true)
    ensures f !in Loose(Th(g.threads, u).ctl)
  {
    WriterExcludes(g, t, f, u);
    OutIsUnreferenced(g, u, f);
    LooseIsWritten(Th(g.threads, u).ctl);
  }

  /** The insertion, unlocking first and linking last. */
  lemma InsertUnlocks(g: G, t: Tid, job: Job, file: File)
    requires Struct(g) && Th(g.threads, t) == Thread(Insert(job), None)
    requires GoneData(g.d, job) && job.req.Open? && CanBegin(g, t, job.own, R.Release)
    requires file.path == g.d.files[job.own].path
    ensures Struct(Begin(SetFile(g, job.own, file), t, job.own, R.Release, Leave(Entered(job), [], job.gone)))
  {
    AtThread(g, t);
    HeldAs(g.threads, g.locks, t, job.own);
    SetFileKeepsStruct(g, t, job.own, file);
    var g1 := SetFile(g, job.own, file);
    ReportsGone(g1.d, job, Entered(job), g.d);
    BeginKeepsStruct(g1, t, job.own, R.Release, Leave(Entered(job), [], job.gone));
  }

  /** Nobody counts the new file as loose any more once its maker leaves. */
  lemma InsertedIsNotLoose(g: G, t: Tid, job: Job, threads': map<Tid, Thread>, u: Tid)
    requires Struct(g) && Th(g.threads, t) == Thread(Insert(job), None) && job.own !in job.gone
    requires threads' == g.threads[t := Thread(Leave(Entered(job), [], job.gone), Some(job.own))]
    ensures job.own !in Loose(Th(threads', u).ctl)
  {
    AtThread(g, t);
    HeldAs(g.threads, g.locks, t, job.own);
    if u != t {
      HeldIsNotLoose(g, t, job.own, u);
    }
  }

  lemma InsertStruct(g: G, t: Tid, job: Job, g': G)
    requires Struct(g) && Th(g.threads, t) == Thread(Insert(job), None) && job.req.Open?
    requires GoneData(g.d, job) && g.d.files[job.own].path == job.req.path
    requires InsertStep(g, t, job) == Some(g')
    ensures Struct(g')
  {
    var file := g.d.files[job.own].(canBeExpelled := true);
    InsertUnlocks(g, t, job, file);
    var g1 := Begin(SetFile(g, job.own, file), t, job.own, R.Release, Leave(Entered(job), [], job.gone));
    forall u: Tid ensures job.own !in Loose(Th(g1.threads, u).ctl) {
      InsertedIsNotLoose(g, t, job, g1.threads, u);
    }
    LinkKeepsStruct(g1, job.req.path, job.own, Counted(g.d.counters));
  }

  lemma InsertData(cfg: Config, d: Data, alive: set<Fid>, s: State, job: Job)
    requires TableOk(d, alive) && CtlData(cfg, d, s, Insert(job))
    ensures var d' := Data(d.table[job.req.path := job.own],
                           d.files[job.own := d.files[job.own].(canBeExpelled := true)], Counted(d.counters));
            CtlData(cfg, d', s, Leave(Entered(job), [], job.gone))
  {
    AbsAt(d, alive, job.req.path);
    AbsLink(d, alive, job.req.path, job.own, d.files[job.own].(canBeExpelled := true), Counted(d.counters));
  }

  lemma InsertKeeps(cfg: Config, g: G, t: Tid, job: Job, g': G)
    requires GInv(cfg, g) && Th(g.threads, t) == Thread(Insert(job), None)
    requires InsertStep(g, t, job) == Some(g')
    ensures GInv(cfg, g')
  {
    AtThread(g, t);
    assert CtlData(cfg, g.d, Last(g.trace), Insert(job));
    InsertStruct(g, t, job, g');
    InsertData(cfg, g.d, g.locks.Keys, Last(g.trace), job);
    OwnerData(cfg, g, t, g');
  }
}
