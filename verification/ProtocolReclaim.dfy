/** Complete reclamation: every live file object is stored, or some thread is about to store or free it. */
module ProtocolReclaim {
  import opened Basics
  import opened StoreSpec
  import opened StoreRuns
  import opened Protocol
  import opened ProtocolInv
  import opened ProtocolLocks
  import opened ProtocolFrame
  import opened ProtocolFiles
  import opened ProtocolLoops
  import opened ProtocolEvict
  import opened ProtocolSettle
  import opened ProtocolRuns
  import opened ProtocolSafety

  ghost predicate Accounted(g: G) {
    forall f | f in g.locks :: f in g.d.table.Values || exists u: Tid :: f in Loose(Th(g.threads, u).ctl)
  }

  /** The step leaves no object that was stored, or in `t`'s hands, out of account. */
  ghost predicate Hands(g: G, t: Tid, g': G) {
    forall f | f in g'.locks && (f !in g.locks || f in g.d.table.Values || f in Loose(Th(g.threads, t).ctl)) ::
      f in g'.d.table.Values || f in Loose(Th(g'.threads, t).ctl)
  }

  lemma LockedHands(cfg: Config, g: G, t: Tid, c: Choice, req: Request, f: Fid, g': G)
    requires Th(g.threads, t) == Thread(Locked(req, f), None) && LockedStep(cfg, g, t, c, req, f) == Some(g')
    requires !req.ReadN? && !req.Disconnect? && req.path in g.d.table && g.d.table[req.path] == f
    ensures Hands(g, t, g')
  {
    if req.Write? || req.Append? {
      GrowthHands(cfg, g, t, c, req, f, g');
    } else if req.Remove? {
      UnlinkLosesOne(g.d, req.path);
    }
  }

  /** A write or append leaves the table and the objects alone. */
  lemma GrowthHands(cfg: Config, g: G, t: Tid, c: Choice, req: Request, f: Fid, g': G)
    requires Th(g.threads, t) == Thread(Locked(req, f), None) && LockedStep(cfg, g, t, c, req, f) == Some(g')
    requires req.Write? || req.Append?
    ensures Hands(g, t, g')
  {
    assert g'.d.table == g.d.table && g'.locks.Keys == g.locks.Keys;
  }

  lemma UnlinkLosesOne(d: Data, p: Path)
    requires p in d.table
    ensures forall f | f in d.table.Values && f != d.table[p] :: f in (d.table - {p}).Values
  {
    forall f | f in d.table.Values && f != d.table[p] ensures f in (d.table - {p}).Values {
      var q :| q in d.table && d.table[q] == f;
      assert q in d.table - {p};
    }
  }

  lemma LooksHands(cfg: Config, g: G, t: Tid, c: Choice, job: Job, todo: seq<Fid>, best: Option<Fid>, g': G)
    requires Th(g.threads, t) == Thread(Scan(job, todo, best), None) && todo != []
    requires ScanStep(cfg, g, t, c, job, todo, best) == Some(g')
    ensures Hands(g, t, g')
  {
  }

  /** The victim goes from the table to the list of files to free. */
  lemma ExpelHands(cfg: Config, g: G, t: Tid, c: Choice, job: Job, b: Fid, g': G)
    requires Th(g.threads, t) == Thread(Scan(job, [], Some(b)), None)
    requires b in g.d.files && Expel(cfg, g, t, c, job, b) == Some(g')
    requires var p := g.d.files[b].path; p in g.d.table && g.d.table[p] == b
    ensures Hands(g, t, g')
  {
    var v := g.d.files[b];
    UnlinkLosesOne(g.d, v.path);
    OneMoreElem(job.gone, b);
    ExpelGoes(cfg, g, t, c, job, b, g');
  }

  lemma InsertHands(g: G, t: Tid, job: Job, g': G)
    requires Th(g.threads, t) == Thread(Insert(job), None) && InsertStep(g, t, job) == Some(g')
    requires job.req.Open? && job.req.path !in g.d.table
    ensures Hands(g, t, g')
  {
    forall f | f in g.d.table.Values ensures f in g'.d.table.Values {
      var q :| q in g.d.table && g.d.table[q] == f;
      assert g'.d.table[q] == f;
    }
    assert g'.d.table[job.req.path] == job.own;
  }

  /** Steps that change neither the table nor what the thread has in hand, or free what they let go of. */
  lemma OtherHands(cfg: Config, g: G, t: Tid, c: Choice, g': G)
    requires Th(g.threads, t).call == None && Step(cfg, g, t, c) == Some(g')
    requires var ctl := Th(g.threads, t).ctl; !ctl.Locked? && !ctl.Scan? && !ctl.Insert? && !ctl.Lookup?
    requires Th(g.threads, t).ctl.Send? && Th(g.threads, t).ctl.e.req.Read? ==> Th(g.threads, t).ctl.doomed == []
    requires Th(g.threads, t).ctl.Finish? ==> NoDup(Th(g.threads, t).ctl.doomed)
    requires Th(g.threads, t).ctl.Created? ==> Th(g.threads, t).ctl.req.Open?
    ensures Hands(g, t, g')
  {
    var ctl := Th(g.threads, t).ctl;
    if ctl.Finish? {
      FinishHands(g, t, ctl.e, ctl.send, ctl.doomed, g');
    } else if ctl.Compare? || ctl.Collect? || ctl.Sweep? || ctl.SweepOne? {
      VisitHands(cfg, g, t, c, g');
    }
  }

  lemma FinishHands(g: G, t: Tid, e: Event, send: seq<Fid>, doomed: seq<Fid>, g': G)
    requires Th(g.threads, t) == Thread(Finish(e, send, doomed), None) && NoDup(doomed)
    requires FinishStep(g, t, e, send, doomed) == Some(g')
    ensures Hands(g, t, g')
  {
    if doomed != [] {
      TailElems(doomed);
    }
  }

  lemma VisitHands(cfg: Config, g: G, t: Tid, c: Choice, g': G)
    requires Th(g.threads, t).call == None && Step(cfg, g, t, c) == Some(g')
    requires var ctl := Th(g.threads, t).ctl; ctl.Compare? || ctl.Collect? || ctl.Sweep? || ctl.SweepOne?
    ensures Hands(g, t, g')
  {
  }

  lemma LookupHands(cfg: Config, g: G, t: Tid, c: Choice, req: Request, g': G)
    requires Th(g.threads, t) == Thread(Lookup(req), None) && LookupStep(cfg, g, t, c, req) == Some(g')
    ensures Hands(g, t, g')
  {
  }

  lemma InnerHands(g: G, t: Tid, c: Choice, g': G)
    requires Th(g.threads, t).call.Some?
    requires InnerStep(g, t, c, Th(g.threads, t).ctl, Th(g.threads, t).call.value) == Some(g')
    ensures Hands(g, t, g')
  {
  }

  lemma StepHands(cfg: Config, g: G, t: Tid, c: Choice, g': G)
    requires GInv(cfg, g) && Step(cfg, g, t, c) == Some(g')
    ensures Hands(g, t, g')
  {
    var th := Th(g.threads, t);
    AtThread(g, t);
    if th.call.Some? {
      InnerHands(g, t, c, g');
    } else if th.ctl.Lookup? {
      LookupHands(cfg, g, t, c, th.ctl.req, g');
    } else if th.ctl.Locked? {
      assert CtlData(cfg, g.d, Last(g.trace), th.ctl);
      LockedHands(cfg, g, t, c, th.ctl.req, th.ctl.f, g');
    } else if th.ctl.Scan? {
      ScanFinds(cfg, g, t, th.ctl);
      if th.ctl.todo == [] {
        ExpelHands(cfg, g, t, c, th.ctl.job, th.ctl.best.value, g');
      } else {
        LooksHands(cfg, g, t, c, th.ctl.job, th.ctl.todo, th.ctl.best, g');
      }
    } else if th.ctl.Insert? {
      InsertsNew(cfg, g, t, th.ctl.job);
      InsertHands(g, t, th.ctl.job, g');
    } else {
      if th.ctl.Created? {
        assert CtlData(cfg, g.d, Last(g.trace), th.ctl);
      }
      OtherHands(cfg, g, t, c, g');
    }
  }

  lemma ScanFinds(cfg: Config, g: G, t: Tid, ctl: Control)
    requires GInv(cfg, g) && g.owner == Some(t) && Th(g.threads, t).ctl == ctl && ctl.Scan?
    ensures ctl.todo == [] && ctl.best.Some? ==> ctl.best.value in g.d.files
    ensures ctl.todo == [] && ctl.best.Some? ==>
              var p := g.d.files[ctl.best.value].path; p in g.d.table && g.d.table[p] == ctl.best.value
  {
    assert CtlData(cfg, g.d, Last(g.trace), ctl);
    if ctl.todo == [] && ctl.best.Some? {
      BestIsVictim(cfg, g.d, g.locks.Keys, ctl.best.value);
    }
  }

  lemma InsertsNew(cfg: Config, g: G, t: Tid, job: Job)
    requires GInv(cfg, g) && g.owner == Some(t) && Th(g.threads, t).ctl == Insert(job)
    ensures job.req.Open? && job.req.path !in g.d.table
  {
    assert CtlData(cfg, g.d, Last(g.trace), Insert(job));
    AbsAt(g.d, g.locks.Keys, job.req.path);
  }

  lemma StepAccounts(cfg: Config, g: G, t: Tid, c: Choice, g': G)
    requires GInv(cfg, g) && Accounted(g) && Step(cfg, g, t, c) == Some(g')
    ensures Accounted(g')
  {
    StepHands(cfg, g, t, c, g');
    StepShape(cfg, g, t, c, g');
    forall f | f in g'.locks
      ensures f in g'.d.table.Values || exists u: Tid :: f in Loose(Th(g'.threads, u).ctl)
    {
      if f in g.locks && f !in g.d.table.Values {
        var u: Tid :| f in Loose(Th(g.threads, u).ctl);
        assert u != t ==> f in Loose(Th(g'.threads, u).ctl);
      }
    }
  }

  /** No file object leaks. */
  lemma {:induction false} NothingLeaks(cfg: Config, r: Run)
    requires Happens(cfg, r)
    ensures Accounted(End(r))
  {
    if r.Moved? {
      NothingLeaks(cfg, r.before);
      RunKeepsGInv(cfg, r.before);
      StepAccounts(cfg, End(r.before), r.who, r.choice, r.g);
    }
  }

  /** Once every thread rests, the objects in memory are exactly the stored files. */
  lemma AtRestOnlyStored(cfg: Config, r: Run)
    requires Happens(cfg, r) && forall u: Tid :: Idle(Th(End(r).threads, u))
    ensures End(r).locks.Keys == End(r).d.table.Values
    ensures Abs(End(r).d) == Last(End(r).trace)
  {
    NothingLeaks(cfg, r);
    RunKeepsGInv(cfg, r);
    var g := End(r);
    if g.owner.Some? {
      AtThread(g, g.owner.value);
    }
    forall f | f in g.d.table.Values ensures f in g.locks {
      CollectAlive(g.d, g.locks.Keys, f);
    }
  }

  lemma CollectAlive(d: Data, alive: set<Fid>, f: Fid)
    requires TableOk(d, alive) && f in d.table.Values
    ensures f in alive
  {
    var p :| p in d.table && d.table[p] == f;
  }
}
