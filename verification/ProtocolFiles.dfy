/** The critical sections that evict nothing: looking up, acting on one file, reading many, sweeping all. */
module ProtocolFiles {
  import opened Basics
  import opened Clock
  import opened StoreSpec
  import opened Eviction
  import opened StoreRuns
  import opened Protocol
  import opened ProtocolInv
  import opened ProtocolLocks
  import opened ProtocolFrame
  import R = RwLock

  // ------------------------------------------------------------ the store as a value

  lemma AbsAt(d: Data, alive: set<Fid>, p: Path)
    requires TableOk(d, alive)
    ensures p in Abs(d).files <==> p in d.table
    ensures p in d.table ==> Abs(d).files[p] == d.files[d.table[p]] && d.files[d.table[p]].path == p
  {
  }

  /** The table leads to each object under one path only. */
  lemma TableInjective(d: Data, alive: set<Fid>, p: Path, q: Path)
    requires TableOk(d, alive) && p in d.table && q in d.table && d.table[p] == d.table[q]
    ensures p == q
  {
    assert d.files[d.table[p]].path == p && d.files[d.table[q]].path == q;
  }

  lemma AbsSet(d: Data, alive: set<Fid>, p: Path, file: File, c: Counters)
    requires TableOk(d, alive) && p in d.table
    ensures Abs(d.(files := d.files[d.table[p] := file], counters := c)) == State(Abs(d).files[p := file], c)
  {
    var d' := d.(files := d.files[d.table[p] := file], counters := c);
    forall q | q in d.table ensures Abs(d').files[q] == Abs(d).files[p := file][q] {
      if d.table[q] == d.table[p] {
        TableInjective(d, alive, p, q);
      }
    }
    assert Abs(d').files == Abs(d).files[p := file];
  }

  lemma AbsUnlink(d: Data, alive: set<Fid>, p: Path, c: Counters)
    requires TableOk(d, alive)
    ensures Abs(d.(table := d.table - {p}, counters := c)) == State(Abs(d).files - {p}, c)
  {
    assert Abs(d.(table := d.table - {p}, counters := c)).files == Abs(d).files - {p};
  }

  /** Writing to an object the table does not lead to shows nowhere. */
  lemma AbsElsewhere(d: Data, f: Fid, file: File)
    requires f !in d.table.Values
    ensures Abs(d.(files := d.files[f := file])) == Abs(d)
  {
    assert Abs(d.(files := d.files[f := file])).files == Abs(d).files;
  }

  lemma AbsLink(d: Data, alive: set<Fid>, p: Path, f: Fid, file: File, c: Counters)
    requires TableOk(d, alive) && p !in d.table && f !in d.table.Values
    ensures Abs(Data(d.table[p := f], d.files[f := file], c)) == State(Abs(d).files[p := file], c)
  {
    assert Abs(Data(d.table[p := f], d.files[f := file], c)).files == Abs(d).files[p := file];
  }

  /** An iteration has as many entries as the table. */
  lemma {:induction false} OrderLength(table: map<Path, Fid>, order: seq<Fid>)
    requires NoDup(order) && forall f :: f in order <==> f in table.Values
    requires forall p, q | p in table && q in table && table[p] == table[q] :: p == q
    ensures |order| == |table|
    decreases |order|
  {
    if order == [] {
      assert forall p | p in table :: table[p] in table.Values;
    } else {
      var f := order[0];
      assert f in order;
      var p :| p in table && table[p] == f;
      TailElems(order);
      var rest := table - {p};
      forall h ensures h in order[1..] <==> h in rest.Values {
        assert h in order[1..] <==> h in Elems(order[1..]);
        if h in table.Values && h != f {
          var q :| q in table && table[q] == h;
          assert q in rest;
        }
      }
      OrderLength(rest, order[1..]);
      assert rest.Keys == table.Keys - {p};
    }
  }

  lemma OrderCounts(d: Data, alive: set<Fid>, order: seq<Fid>)
    requires TableOk(d, alive) && IsOrder(d, order)
    ensures |order| == |d.table| == |Abs(d).files|
  {
    forall p, q | p in d.table && q in d.table && d.table[p] == d.table[q] ensures p == q {
      TableInjective(d, alive, p, q);
    }
    OrderLength(d.table, order);
    assert Abs(d).files.Keys == d.table.Keys;
  }

  // -------------------------------------------------------------------- lookup

  lemma LeavePlain(g: G, t: Tid, e: Event)
    requires Struct(g) && Th(g.threads, t).call == None && Critical(Th(g.threads, t).ctl)
    requires Wr(Th(g.threads, t).ctl) == {} && Rd(Th(g.threads, t).ctl) == {}
    requires e.reply.sent == [] && e.reply.expelled == []
    ensures Struct(Go(g, t, Leave(e, [], [])))
  {
    GoKeepsStruct(g, t, Leave(e, [], []));
  }

  lemma AllocateStruct(g: G, t: Tid, c: Choice, req: Request)
    requires Struct(g) && Th(g.threads, t) == Thread(Lookup(req), None) && req.Open?
    ensures Struct(Allocate(g, t, c, req))
    ensures g.next !in g.d.table.Values
  {
    var g' := Allocate(g, t, c, req);
    var ctl := Created(req, g.next, c.t0, c.t1);
    AtThread(g, t);
    forall u: Tid ensures g.next !in Refs(Th(g.threads, u)) {
      AtThread(g, u);
    }
    AllocateKeepsFit(g.threads, g.locks, t, g.next, ctl);
    R.TakenByReachable(t);
    assert g'.locks.Keys == g.locks.Keys + {g.next};
    AllocateThreads(g, t, c, req);
  }

  lemma AllocateThreads(g: G, t: Tid, c: Choice, req: Request)
    requires Struct(g) && Th(g.threads, t) == Thread(Lookup(req), None) && req.Open?
    ensures var g' := Allocate(g, t, c, req);
            ThreadsOk(g'.threads, g.locks.Keys + {g.next}, g'.owner, g'.d.table.Values, g'.d.files)
  {
    var g' := Allocate(g, t, c, req);
    forall u: Tid
      ensures ThreadOk(Th(g'.threads, u), u, g.locks.Keys + {g.next}, g'.owner, g'.d.table.Values, g'.d.files)
    {
      AtThread(g, u);
      if u != t {
        NewFileSnap(g, g.next, g'.d.files[g.next], Th(g.threads, u).ctl);
      }
    }
  }

  /** An object nobody knew of is in nobody's report. */
  lemma NewFileSnap(g: G, f: Fid, file: File, ctl: Control)
    requires SnapOk(g.d.files, ctl) && f !in g.d.files
    ensures SnapOk(g.d.files[f := file], ctl)
  {
  }

  lemma LookupStruct(cfg: Config, g: G, t: Tid, c: Choice, req: Request, g': G)
    requires Struct(g) && Th(g.threads, t) == Thread(Lookup(req), None)
    requires LookupStep(cfg, g, t, c, req) == Some(g')
    ensures Struct(g')
  {
    AtThread(g, t);
    if req.ReadN? {
      GoKeepsStruct(g, t, Th(g'.threads, t).ctl);
    } else if req.Disconnect? {
      GoKeepsStruct(g, t, Sweep(req, c.order));
    } else if req.Open? && req.create {
      if req.path in g.d.table {
        LeavePlain(g, t, Plain(req, c, SA_EXISTS));
      } else {
        AllocateStruct(g, t, c, req);
      }
    } else if req.path !in g.d.table {
      LeavePlain(g, t, Plain(req, c, if req.Remove? then SA_SUCCESS else SA_NO_FILE));
    } else {
      var f := g.d.table[req.path];
      BeginKeepsStruct(g, t, f, Ask(!req.Read?), Locked(req, f));
    }
  }

  /** Not found, or found and not wanted: the reply of the sequential handler. */
  lemma LookupReplies(cfg: Config, s: State, c: Choice, req: Request)
    requires NeedsFiles(req) && !req.ReadN? && !req.Disconnect?
    requires (req.path in s.files) == (req.Open? && req.create)
    ensures Next(cfg, s, Plain(req, c, if req.path in s.files then SA_EXISTS
                                       else if req.Remove? then SA_SUCCESS else SA_NO_FILE), s)
  {
  }

  lemma LookupKeeps(cfg: Config, g: G, t: Tid, c: Choice, req: Request, g': G)
    requires GInv(cfg, g) && Th(g.threads, t) == Thread(Lookup(req), None)
    requires LookupStep(cfg, g, t, c, req) == Some(g')
    ensures GInv(cfg, g')
  {
    LookupStruct(cfg, g, t, c, req, g');
    AtThread(g, t);
    assert CtlData(cfg, g.d, Last(g.trace), Lookup(req));
    LookupData(cfg, g, t, c, req, g');
  }

  /** The owner moves on and its new place is accounted for. */
  lemma OwnerData(cfg: Config, g: G, t: Tid, g': G)
    requires DataOk(cfg, g) && g.owner == Some(t) && g'.owner == g.owner && g'.trace == g.trace
    requires CtlData(cfg, g'.d, Last(g.trace), Th(g'.threads, t).ctl)
    ensures DataOk(cfg, g')
  {
  }

  lemma LookupData(cfg: Config, g: G, t: Tid, c: Choice, req: Request, g': G)
    requires DataOk(cfg, g) && g.owner == Some(t)
    requires CtlData(cfg, g.d, Last(g.trace), Lookup(req))
    requires TableOk(g.d, g.locks.Keys) && g.next !in g.d.table.Values
    requires LookupStep(cfg, g, t, c, req) == Some(g')
    ensures DataOk(cfg, g')
  {
    RunKeepsInv(cfg, g.trace);
    if req.ReadN? || req.Disconnect? {
      StartLoop(cfg, g.d, Last(g.trace), g.locks.Keys, c.order, req);
    } else {
      LookupPath(cfg, g, t, c, req, g');
    }
    OwnerData(cfg, g, t, g');
  }

  lemma LookupPath(cfg: Config, g: G, t: Tid, c: Choice, req: Request, g': G)
    requires CtlData(cfg, g.d, Last(g.trace), Lookup(req)) && TableOk(g.d, g.locks.Keys)
    requires g.next !in g.d.table.Values && !req.ReadN? && !req.Disconnect?
    requires LookupStep(cfg, g, t, c, req) == Some(g')
    ensures CtlData(cfg, g'.d, Last(g.trace), Th(g'.threads, t).ctl)
  {
    var s := Last(g.trace);
    AbsAt(g.d, g.locks.Keys, req.path);
    if req.Open? && req.create && req.path !in g.d.table {
      AllocateData(cfg, g.d, s, g.next, c, req);
    } else if req.path !in g.d.table || (req.Open? && req.create) {
      LookupReplies(cfg, s, c, req);
    }
  }

  lemma StartLoop(cfg: Config, d: Data, s: State, alive: set<Fid>, order: seq<Fid>, req: Request)
    requires TableOk(d, alive) && Abs(d) == s && StoreSpec.Inv(cfg, s) && IsOrder(d, order)
    ensures req.ReadN? ==> CollectData(d, req, if req.n <= 0 then d.counters.files else req.n, order, [])
    ensures req.Disconnect? ==> SweepData(d, s, req, order)
  {
    OrderCounts(d, alive, order);
    assert [] + order == order;
    forall p | p in s.files ensures d.table[p] in order && p in d.table {
      assert d.table[p] in d.table.Values;
    }
    assert d.table.Keys == s.files.Keys;
  }

  lemma AllocateData(cfg: Config, d: Data, s: State, f: Fid, c: Choice, req: Request)
    requires Abs(d) == s && f !in d.table.Values
    requires req.Open? && req.create && req.path !in s.files
    ensures var file := NewFile(req.path, req.fd, req.lock, c.t0, c.t1);
            CtlData(cfg, d.(files := d.files[f := file]), s, Created(req, f, c.t0, c.t1))
  {
    AbsElsewhere(d, f, NewFile(req.path, req.fd, req.lock, c.t0, c.t1));
    WithoutNone(s.files);
  }

  // ------------------------------------------------- acting on the requested file

  /** Holding the file of the request lets a handler change what its kind of lock allows. */
  lemma LockedMayWrite(g: G, t: Tid, req: Request, f: Fid, file: File)
    requires Struct(g) && Th(g.threads, t) == Thread(Locked(req, f), None)
    requires f in g.d.files && file.path == g.d.files[f].path
    requires req.Read? ==> f in g.d.table.Values && PayloadOf(file) == PayloadOf(g.d.files[f])
    ensures MayWrite(g, t, f, file)
  {
    AtThread(g, t);
    HeldAs(g.threads, g.locks, t, f);
  }

  lemma RefuseStruct(g: G, t: Tid, c: Choice, req: Request, f: Fid, code: int, g': G)
    requires Struct(g) && Th(g.threads, t) == Thread(Locked(req, f), None)
    requires Refuse(g, t, c, req, f, code) == Some(g')
    ensures Struct(g')
  {
    BeginKeepsStruct(g, t, f, R.Release, Leave(Plain(req, c, code), [], []));
  }

  /** Change the file, unlock it and leave. */
  lemma ChangeStruct(g: G, t: Tid, c: Choice, req: Request, f: Fid, file: File, code: int, g': G)
    requires Struct(g) && Th(g.threads, t) == Thread(Locked(req, f), None) && !req.Read?
    requires f in g.d.files && file.path == g.d.files[f].path
    requires Refuse(SetFile(g, f, file), t, c, req, f, code) == Some(g')
    ensures Struct(g')
  {
    LockedMayWrite(g, t, req, f, file);
    SetFileKeepsStruct(g, t, f, file);
    RefuseStruct(SetFile(g, f, file), t, c, req, f, code, g');
  }

  lemma ReadStruct(g: G, t: Tid, e: Event, f: Fid, used: Time)
    requires Struct(g) && Th(g.threads, t) == Thread(Locked(e.req, f), None) && e.req.Read?
    requires f in g.d.files && f in g.d.table.Values
    requires e.reply == Reply(SA_SUCCESS, [PayloadOf(g.d.files[f])], [])
    ensures Struct(Go(SetFile(g, f, g.d.files[f].(lastUse := used)), t, Leave(e, [f], [])))
  {
    var file := g.d.files[f].(lastUse := used);
    LockedMayWrite(g, t, e.req, f, file);
    SetFileKeepsStruct(g, t, f, file);
    GoKeepsStruct(SetFile(g, f, file), t, Leave(e, [f], []));
  }

  /** A file that the owner of `files_mtx` holds as a writer and has unlinked is its alone. */
  lemma UnlinkedIsMine(g: G, t: Tid, f: Fid)
    requires Struct(g) && g.owner == Some(t) && Th(g.threads, t).call == None
    requires f in g.locks && f in Wr(Th(g.threads, t).ctl) && f !in g.d.table.Values
    ensures Mine(g, t, f)
  {
    HeldAs(g.threads, g.locks, t, f);
    var stranger: Tid := t + 1;
    WriterExcludes(g, t, f, stranger);
    forall u: Tid | u != t ensures R.At(g.locks[f], u) == R.Out && f !in Refs(Th(g.threads, u)) {
      WriterExcludes(g, t, f, u);
      OutIsUnreferenced(g, u, f);
    }
  }

  lemma UnlinkLeavesNoWay(d: Data, alive: set<Fid>, p: Path)
    requires TableOk(d, alive) && p in d.table
    ensures d.table[p] !in (d.table - {p}).Values
  {
    forall q | q in d.table && q != p ensures d.table[q] != d.table[p] {
      if d.table[q] == d.table[p] {
        TableInjective(d, alive, p, q);
      }
    }
  }

  lemma RemoveStruct(g: G, t: Tid, c: Choice, req: Request, f: Fid, counters: Counters)
    requires Struct(g) && Th(g.threads, t) == Thread(Locked(req, f), None) && req.Remove?
    requires req.path in g.d.table && g.d.table[req.path] == f && f in g.locks
    ensures Struct(Go(Free(Unlink(g, req.path, counters), f), t, Leave(Plain(req, c, SA_SUCCESS), [], [])))
    ensures Mine(Unlink(g, req.path, counters), t, f)
  {
    var g1 := Unlink(g, req.path, counters);
    AtThread(g, t);
    UnlinkKeepsStruct(g, req.path, counters);
    UnlinkLeavesNoWay(g.d, g.locks.Keys, req.path);
    UnlinkedIsMine(g1, t, f);
    FreeKeepsStruct(g1, t, f, Leave(Plain(req, c, SA_SUCCESS), [], []));
  }

  /** Change the requested file and the counters; the handler goes on or leaves. */
  lemma ChangeBothStruct(g: G, t: Tid, req: Request, f: Fid, file: File, counters: Counters)
    requires Struct(g) && Th(g.threads, t) == Thread(Locked(req, f), None) && !req.Read?
    requires f in g.d.files && file.path == g.d.files[f].path
    ensures Struct(SetCounters(SetFile(g, f, file), counters))
  {
    LockedMayWrite(g, t, req, f, file);
    SetFileKeepsStruct(g, t, f, file);
    CountersKeepStruct(SetFile(g, f, file), counters);
  }

  /** The two ways on from an accepted growth. */
  ghost predicate Leads(cfg: Config, g: G, t: Tid, c: Choice, req: Request, f: Fid, grown: File, added: nat, g': G) {
    var counters := g.d.counters.(space := g.d.counters.space + added);
    var need := counters.space - cfg.maxSpace;
    if 0 < need <= counters.space then
      g' == Go(SetCounters(SetFile(g, f, grown.(canBeExpelled := false)), counters), t,
               Scan(Job(req, f, c.t0, c.t1, need, 0, [], []), c.order, None))
    else Refuse(SetCounters(SetFile(g, f, grown), NoteSpace(counters)), t, c, req, f, SA_SUCCESS) == Some(g')
  }

  lemma GrowLeads(cfg: Config, g: G, t: Tid, c: Choice, req: Request, f: Fid, grown: File, added: nat, g': G)
    requires GrowStep(cfg, g, t, c, req, f, grown, added) == Some(g')
    ensures Leads(cfg, g, t, c, req, f, grown, added, g')
  {
  }

  lemma GrowStruct(cfg: Config, g: G, t: Tid, c: Choice, req: Request, f: Fid, grown: File, added: nat, g': G)
    requires Struct(g) && Th(g.threads, t) == Thread(Locked(req, f), None) && (req.Write? || req.Append?)
    requires f in g.d.files && grown.path == g.d.files[f].path
    requires GrowStep(cfg, g, t, c, req, f, grown, added) == Some(g')
    ensures Struct(g')
  {
    GrowLeads(cfg, g, t, c, req, f, grown, added, g');
    LeadsStruct(cfg, g, t, c, req, f, grown, added, g');
  }

  lemma LeadsStruct(cfg: Config, g: G, t: Tid, c: Choice, req: Request, f: Fid, grown: File, added: nat, g': G)
    requires Struct(g) && Th(g.threads, t) == Thread(Locked(req, f), None) && (req.Write? || req.Append?)
    requires f in g.d.files && grown.path == g.d.files[f].path
    requires Leads(cfg, g, t, c, req, f, grown, added, g')
    ensures Struct(g')
  {
    var counters := g.d.counters.(space := g.d.counters.space + added);
    var need := counters.space - cfg.maxSpace;
    if 0 < need <= counters.space {
      ScansStruct(g, t, req, f, grown.(canBeExpelled := false), counters,
                  Scan(Job(req, f, c.t0, c.t1, need, 0, [], []), c.order, None));
    } else {
      GrownStruct(g, t, c, req, f, grown, NoteSpace(counters), g');
    }
  }

  /** Change the file and the counters and begin to make room. */
  lemma ScansStruct(g: G, t: Tid, req: Request, f: Fid, file: File, counters: Counters, ctl: Control)
    requires Struct(g) && Th(g.threads, t) == Thread(Locked(req, f), None) && !req.Read?
    requires f in g.d.files && file.path == g.d.files[f].path
    requires ctl.Scan? && ctl.job.own == f && ctl.job.gone == [] && ctl.best == None
    requires ctl.job.req == req && !req.Open?
    ensures Struct(Go(SetCounters(SetFile(g, f, file), counters), t, ctl))
  {
    AtThread(g, t);
    ChangeBothStruct(g, t, req, f, file, counters);
    GoKeepsStruct(SetCounters(SetFile(g, f, file), counters), t, ctl);
  }

  /** Change the file and the counters, unlock the file and leave. */
  lemma GrownStruct(g: G, t: Tid, c: Choice, req: Request, f: Fid, file: File, counters: Counters, g': G)
    requires Struct(g) && Th(g.threads, t) == Thread(Locked(req, f), None) && !req.Read?
    requires f in g.d.files && file.path == g.d.files[f].path
    requires Refuse(SetCounters(SetFile(g, f, file), counters), t, c, req, f, SA_SUCCESS) == Some(g')
    ensures Struct(g')
  {
    ChangeBothStruct(g, t, req, f, file, counters);
    RefuseStruct(SetCounters(SetFile(g, f, file), counters), t, c, req, f, SA_SUCCESS, g');
  }

  lemma LockedStruct(cfg: Config, g: G, t: Tid, c: Choice, req: Request, f: Fid, g': G)
    requires Struct(g) && Th(g.threads, t) == Thread(Locked(req, f), None)
    requires !req.ReadN? && !req.Disconnect? && req.path in g.d.table && g.d.table[req.path] == f
    requires LockedStep(cfg, g, t, c, req, f) == Some(g')
    ensures Struct(g')
  {
    var file := g.d.files[f];
    if req.Open? && !(req.lock && file.fdLock != NO_FD && file.fdLock != req.fd) {
      ChangeStruct(g, t, c, req, f, OpenedBy(file, req.fd, req.lock, c.t1), SA_SUCCESS, g');
    } else if req.Close? {
      ChangeStruct(g, t, c, req, f, ClosedBy(file, req.fd), SA_SUCCESS, g');
    } else if req.Open? {
      RefuseStruct(g, t, c, req, f, SA_ALREADY_LOCKED, g');
    } else {
      LockedOthersStruct(cfg, g, t, c, req, f, g');
    }
  }

  lemma LockedOthersStruct(cfg: Config, g: G, t: Tid, c: Choice, req: Request, f: Fid, g': G)
    requires Struct(g) && Th(g.threads, t) == Thread(Locked(req, f), None)
    requires !req.ReadN? && !req.Disconnect? && !req.Open? && !req.Close?
    requires req.path in g.d.table && g.d.table[req.path] == f
    requires LockedStep(cfg, g, t, c, req, f) == Some(g')
    ensures Struct(g')
  {
    var file := g.d.files[f];
    if req.fd !in file.fdOpen {
      RefuseStruct(g, t, c, req, f, SA_NO_OPEN, g');
    } else if req.Read? {
      ReadStruct(g, t, Event(req, c.t0, c.t1, Reply(SA_SUCCESS, [PayloadOf(file)], [])), f, c.t1);
    } else if req.Append? {
      if file.size + |req.data| > cfg.maxSpace {
        RefuseStruct(g, t, c, req, f, SA_TOO_BIG, g');
      } else {
        GrowStruct(cfg, g, t, c, req, f, Extended(file, req.data, c.t1), |req.data|, g');
      }
    } else if file.fdLock != req.fd {
      RefuseStruct(g, t, c, req, f, SA_NOT_LOCKED, g');
    } else if req.Remove? {
      RemoveStruct(g, t, c, req, f,
                   g.d.counters.(files := g.d.counters.files - 1, space := g.d.counters.space - file.size));
    } else if file.size != 0 {
      RefuseStruct(g, t, c, req, f, SA_NOT_EMPTY, g');
    } else if |req.data| > cfg.maxSpace {
      RefuseStruct(g, t, c, req, f, SA_TOO_BIG, g');
    } else {
      GrowStruct(cfg, g, t, c, req, f, Written(file, req.data, c.t1), |req.data|, g');
    }
  }

  // ------------------------------------------------------- the data behind the reply

  /** With the lock of a stored file held, the store is still the one found. */
  lemma LockedSees(cfg: Config, d: Data, alive: set<Fid>, s: State, req: Request, f: Fid)
    requires TableOk(d, alive) && CtlData(cfg, d, s, Locked(req, f))
    ensures req.path in s.files && f in d.files && s.files[req.path] == d.files[f] && d.files[f].path == req.path
  {
    AbsAt(d, alive, req.path);
  }

  lemma SetShows(d: Data, alive: set<Fid>, p: Path, file: File)
    requires TableOk(d, alive) && p in d.table
    ensures Abs(d.(files := d.files[d.table[p] := file])) == State(Abs(d).files[p := file], d.counters)
  {
    AbsSet(d, alive, p, file, d.counters);
    assert d.(files := d.files[d.table[p] := file], counters := d.counters) == d.(files := d.files[d.table[p] := file]);
  }

  lemma LockedData(cfg: Config, g: G, t: Tid, c: Choice, req: Request, f: Fid, s: State, g': G)
    requires CtlData(cfg, g.d, s, Locked(req, f)) && TableOk(g.d, g.locks.Keys) && StoreSpec.Inv(cfg, s)
    requires LockedStep(cfg, g, t, c, req, f) == Some(g')
    ensures CtlData(cfg, g'.d, s, Th(g'.threads, t).ctl)
  {
    LockedSees(cfg, g.d, g.locks.Keys, s, req, f);
    if req.Write? || req.Append? {
      LockedGrowData(cfg, g, t, c, req, f, s, g');
    } else if req.Remove? {
      LockedRemoveData(cfg, g, t, c, req, f, s, g');
    } else {
      LockedPlainData(cfg, g, t, c, req, f, s, g');
    }
  }

  /** Where a removal leads: refused, or the file is unlinked and counted out. */
  lemma RemoveGoes(cfg: Config, g: G, t: Tid, c: Choice, req: Request, f: Fid, g': G)
    requires req.Remove? && LockedStep(cfg, g, t, c, req, f) == Some(g') && f in g.d.files
    ensures var file := g.d.files[f];
            var code := if req.fd !in file.fdOpen then SA_NO_OPEN
                        else if file.fdLock != req.fd then SA_NOT_LOCKED else SA_SUCCESS;
            var counters := g.d.counters.(files := g.d.counters.files - 1, space := g.d.counters.space - file.size);
            && Th(g'.threads, t).ctl == Leave(Plain(req, c, code), [], [])
            && g'.d == if code == SA_SUCCESS then g.d.(table := g.d.table - {req.path}, counters := counters) else g.d
  {
  }

  lemma LockedRemoveData(cfg: Config, g: G, t: Tid, c: Choice, req: Request, f: Fid, s: State, g': G)
    requires CtlData(cfg, g.d, s, Locked(req, f)) && TableOk(g.d, g.locks.Keys) && req.Remove?
    requires LockedStep(cfg, g, t, c, req, f) == Some(g')
    ensures CtlData(cfg, g'.d, s, Th(g'.threads, t).ctl)
  {
    LockedSees(cfg, g.d, g.locks.Keys, s, req, f);
    RemoveGoes(cfg, g, t, c, req, f, g');
    AbsUnlink(g.d, g.locks.Keys, req.path, g'.d.counters);
  }

  lemma LockedPlainData(cfg: Config, g: G, t: Tid, c: Choice, req: Request, f: Fid, s: State, g': G)
    requires CtlData(cfg, g.d, s, Locked(req, f)) && TableOk(g.d, g.locks.Keys)
    requires req.Open? || req.Close? || req.Read?
    requires LockedStep(cfg, g, t, c, req, f) == Some(g')
    ensures CtlData(cfg, g'.d, s, Th(g'.threads, t).ctl)
  {
    var file := g.d.files[f];
    LockedSees(cfg, g.d, g.locks.Keys, s, req, f);
    match req {
      case Open(fd, _, _, lock) => SetShows(g.d, g.locks.Keys, req.path, OpenedBy(file, fd, lock, c.t1));
      case Close(fd, _) => SetShows(g.d, g.locks.Keys, req.path, ClosedBy(file, fd));
      case Read(fd, _) => SetShows(g.d, g.locks.Keys, req.path, file.(lastUse := c.t1));
    }
  }

  lemma LockedGrowData(cfg: Config, g: G, t: Tid, c: Choice, req: Request, f: Fid, s: State, g': G)
    requires CtlData(cfg, g.d, s, Locked(req, f)) && TableOk(g.d, g.locks.Keys) && StoreSpec.Inv(cfg, s)
    requires req.Write? || req.Append?
    requires LockedStep(cfg, g, t, c, req, f) == Some(g')
    ensures CtlData(cfg, g'.d, s, Th(g'.threads, t).ctl)
  {
    LockedSees(cfg, g.d, g.locks.Keys, s, req, f);
    if GrowthAccepted(cfg, s, req) {
      AcceptedGrows(cfg, g, t, c, req, f, s);
      GrowGoes(cfg, g, t, c, req, f, GrownBy(s, req, c.t1), |req.data|, g');
      GrowStart(cfg, g.d, g.locks.Keys, c, req, f, s, g'.d, Th(g'.threads, t).ctl);
    } else {
      RefusedData(cfg, g, t, c, req, f, s, g');
    }
  }

  /** The code with which the sequential handler answers a growth. */
  function GrowthCheck(cfg: Config, s: State, req: Request): int
    requires req.Write? || req.Append?
  {
    if req.Write? then WriteCheck(cfg, s, req.fd, req.path, req.data)
    else AppendCheck(cfg, s, req.fd, req.path, req.data)
  }

  /** The handler accepts exactly what the sequential checks accept, and refuses the rest with their code. */
  lemma AcceptedGrows(cfg: Config, g: G, t: Tid, c: Choice, req: Request, f: Fid, s: State)
    requires (req.Write? || req.Append?) && NeedsFiles(req)
    requires f in g.d.files && f in g.locks && req.path in s.files && s.files[req.path] == g.d.files[f]
    ensures GrowthAccepted(cfg, s, req) <==> GrowthCheck(cfg, s, req) == SA_SUCCESS
    ensures LockedStep(cfg, g, t, c, req, f) ==
            if GrowthAccepted(cfg, s, req) then GrowStep(cfg, g, t, c, req, f, GrownBy(s, req, c.t1), |req.data|)
            else Refuse(g, t, c, req, f, GrowthCheck(cfg, s, req))
  {
  }

  lemma RefusedData(cfg: Config, g: G, t: Tid, c: Choice, req: Request, f: Fid, s: State, g': G)
    requires req.Write? || req.Append?
    requires f in g.d.files && req.path in s.files && s.files[req.path] == g.d.files[f]
    requires NeedsFiles(req) && Abs(g.d) == s && !GrowthAccepted(cfg, s, req)
    requires LockedStep(cfg, g, t, c, req, f) == Some(g')
    ensures CtlData(cfg, g'.d, s, Th(g'.threads, t).ctl)
  {
  }

  /** Where an accepted growth leads: done at once, or eviction begins. */
  ghost predicate GrowsTo(cfg: Config, d: Data, c: Choice, req: Request, f: Fid, grown: File, added: nat, d': Data,
                          ctl': Control) {
    var counters := d.counters.(space := d.counters.space + added);
    var need := counters.space - cfg.maxSpace;
    if need > 0
    then && d' == d.(files := d.files[f := grown.(canBeExpelled := false)], counters := counters)
         && ctl' == Scan(Job(req, f, c.t0, c.t1, need, 0, [], []), c.order, None)
         && IsOrder(d, c.order)
    else && d' == d.(files := d.files[f := grown], counters := NoteSpace(counters))
         && ctl' == Leave(Plain(req, c, SA_SUCCESS), [], [])
  }

  lemma GrowGoes(cfg: Config, g: G, t: Tid, c: Choice, req: Request, f: Fid, grown: File, added: nat, g': G)
    requires GrowStep(cfg, g, t, c, req, f, grown, added) == Some(g')
    ensures GrowsTo(cfg, g.d, c, req, f, grown, added, g'.d, Th(g'.threads, t).ctl)
    ensures g'.owner == g.owner && g'.trace == g.trace
  {
  }

  lemma GrowStart(cfg: Config, d: Data, alive: set<Fid>, c: Choice, req: Request, f: Fid, s: State, d': Data,
                  ctl': Control)
    requires CtlData(cfg, d, s, Locked(req, f)) && TableOk(d, alive)
    requires GrowthAccepted(cfg, s, req) && GrownBy(s, req, c.t1).path == req.path
    requires GrowsTo(cfg, d, c, req, f, GrownBy(s, req, c.t1), |req.data|, d', ctl')
    ensures CtlData(cfg, d', s, ctl')
  {
    var need := s.counters.space + |req.data| - cfg.maxSpace;
    if need <= 0 {
      GrowEnds(cfg, d, alive, s, c, req, f);
    } else {
      GrowScans(cfg, d, alive, s, Job(req, f, c.t0, c.t1, need, 0, [], []), c.order);
    }
  }

  lemma GrowAtOnce(cfg: Config, s: State, req: Request, created: Time, used: Time)
    requires GrowthAccepted(cfg, s, req) && s.counters.space + |req.data| <= cfg.maxSpace
    requires s.files[req.path].path == req.path
    ensures var grown := GrownBy(s, req, used);
            Next(cfg, s, Event(req, created, used, Reply(SA_SUCCESS, [], [])),
                 State(s.files[req.path := grown], NoteSpace(Grown(s, grown, |req.data|).counters)))
  {
    WithoutNone(Grown(s, GrownBy(s, req, used), |req.data|).files);
  }

  lemma GrowEnds(cfg: Config, d: Data, alive: set<Fid>, s: State, c: Choice, req: Request, f: Fid)
    requires CtlData(cfg, d, s, Locked(req, f)) && TableOk(d, alive)
    requires GrowthAccepted(cfg, s, req) && s.counters.space + |req.data| <= cfg.maxSpace
    requires GrownBy(s, req, c.t1).path == req.path
    ensures var grown := GrownBy(s, req, c.t1);
            CtlData(cfg, d.(files := d.files[f := grown], counters := NoteSpace(Grown(s, grown, |req.data|).counters)),
                    s, Leave(Plain(req, c, SA_SUCCESS), [], []))
  {
    var grown := GrownBy(s, req, c.t1);
    AbsSet(d, alive, req.path, grown, NoteSpace(Grown(s, grown, |req.data|).counters));
    GrowAtOnce(cfg, s, req, c.t0, c.t1);
  }

  lemma GrowScans(cfg: Config, d: Data, alive: set<Fid>, s: State, job: Job, order: seq<Fid>)
    requires CtlData(cfg, d, s, Locked(job.req, job.own)) && TableOk(d, alive) && IsOrder(d, order)
    requires GrowthAccepted(cfg, s, job.req) && job.need == s.counters.space + |DataOf(job.req)| - cfg.maxSpace > 0
    requires job.freed == 0 && job.gone == [] && job.out == [] && GrownBy(s, job.req, job.used).path == job.req.path
    ensures var grown := GrownBy(s, job.req, job.used);
            CtlData(cfg, d.(files := d.files[job.own := grown.(canBeExpelled := false)],
                            counters := Grown(s, grown, |DataOf(job.req)|).counters), s, Scan(job, order, None))
  {
    var grown := GrownBy(s, job.req, job.used);
    var d' := d.(files := d.files[job.own := grown.(canBeExpelled := false)],
                 counters := Grown(s, grown, |DataOf(job.req)|).counters);
    LockedSees(cfg, d, alive, s, job.req, job.own);
    AbsSet(d, alive, job.req.path, grown.(canBeExpelled := false), d'.counters);
    WithoutNone(Shielded(s, grown));
    assert GrowData(cfg, d', s, job);
    ScanBegins(cfg, d', order);
  }

  /** At the start of a scan every file is still to be visited. */
  lemma ScanBegins(cfg: Config, d: Data, order: seq<Fid>)
    requires IsOrder(d, order)
    ensures ScanData(cfg, d, order, None, None)
  {
    forall p | p in d.table ensures d.table[p] in order {
      assert d.table[p] in d.table.Values;
    }
  }

  lemma LockedSame(cfg: Config, g: G, t: Tid, c: Choice, req: Request, f: Fid, g': G)
    requires LockedStep(cfg, g, t, c, req, f) == Some(g')
    ensures g'.owner == g.owner && g'.trace == g.trace
  {
    if req.Write? || req.Append? {
      var file := g.d.files[f];
      var grown := if req.Write? then Written(file, req.data, c.t1) else Extended(file, req.data, c.t1);
      if GrowStep(cfg, g, t, c, req, f, grown, |req.data|) == Some(g') {
        GrowGoes(cfg, g, t, c, req, f, grown, |req.data|, g');
      }
    }
  }

  lemma LockedKeeps(cfg: Config, g: G, t: Tid, c: Choice, req: Request, f: Fid, g': G)
    requires GInv(cfg, g) && Th(g.threads, t) == Thread(Locked(req, f), None)
    requires LockedStep(cfg, g, t, c, req, f) == Some(g')
    ensures GInv(cfg, g')
  {
    AtThread(g, t);
    assert CtlData(cfg, g.d, Last(g.trace), Locked(req, f));
    LockedStruct(cfg, g, t, c, req, f, g');
    RunKeepsInv(cfg, g.trace);
    LockedData(cfg, g, t, c, req, f, Last(g.trace), g');
    LockedSame(cfg, g, t, c, req, f, g');
    OwnerData(cfg, g, t, g');
  }
}
