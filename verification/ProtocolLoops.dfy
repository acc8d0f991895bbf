/** The critical sections that visit many files: `read_n_files` and `close_client`. */
module ProtocolLoops {
  import opened Basics
  import opened StoreSpec
  import opened StoreRuns
  import opened Protocol
  import opened ProtocolInv
  import opened ProtocolLocks
  import opened ProtocolFrame
  import opened ProtocolFiles
  import R = RwLock

  // --------------------------------------------------------------- read_n_files

  lemma OneMoreElem(s: seq<Fid>, f: Fid)
    ensures Elems(s + [f]) == Elems(s) + {f}
  {
  }

  lemma CollectStruct(g: G, t: Tid, c: Choice, req: Request, left: int, todo: seq<Fid>, taken: seq<Fid>, g': G)
    requires Struct(g) && Th(g.threads, t) == Thread(Collect(req, left, todo, taken), None)
    requires NoDup(taken) && req.ReadN?
    requires CollectStep(g, t, c, req, left, todo, taken) == Some(g')
    ensures Struct(g')
  {
    if left > 0 && todo != [] {
      OneMoreElem(taken, todo[0]);
      BeginKeepsStruct(g, t, todo[0], Ask(false), Collect(req, left - 1, todo[1..], taken + [todo[0]]));
    } else {
      var e := Event(req, c.t0, c.t1, Reply(SA_SUCCESS, PayloadsOf(g.d.files, taken), []));
      GoKeepsStruct(g, t, Leave(e, taken, []));
    }
  }

  lemma CollectOneMore(cfg: Config, d: Data, s: State, req: Request, left: int, todo: seq<Fid>, taken: seq<Fid>)
    requires CtlData(cfg, d, s, Collect(req, left, todo, taken)) && left > 0 && todo != []
    ensures CtlData(cfg, d, s, Collect(req, left - 1, todo[1..], taken + [todo[0]]))
  {
    assert taken + [todo[0]] + todo[1..] == taken + todo;
  }

  lemma CollectFound(d: Data, alive: set<Fid>, f: Fid)
    requires TableOk(d, alive) && f in d.table.Values
    ensures f in d.files && d.files[f].path in d.table && d.table[d.files[f].path] == f
    ensures d.files[f].path in Abs(d).files && Abs(d).files[d.files[f].path] == d.files[f]
  {
    var p :| p in d.table && d.table[p] == f;
  }

  /** What was collected is a snapshot of distinct stored files. */
  lemma CollectedSnapshot(d: Data, alive: set<Fid>, taken: seq<Fid>)
    requires TableOk(d, alive) && NoDup(taken) && forall f | f in taken :: f in d.table.Values
    ensures (forall f | f in taken :: f in d.files) && DistinctSnapshot(Abs(d).files, PayloadsOf(d.files, taken))
    ensures var sent := PayloadsOf(d.files, taken);
            |sent| == |taken| && forall i | 0 <= i < |sent| ::
              && sent[i].path == d.files[taken[i]].path && sent[i].path in Abs(d).files
              && sent[i].contents == d.files[taken[i]].contents == Abs(d).files[sent[i].path].contents
              && sent[i].size == d.files[taken[i]].size
  {
    forall f | f in taken
      ensures f in d.files && d.files[f].path in Abs(d).files && Abs(d).files[d.files[f].path] == d.files[f]
      ensures d.files[f].path in d.table && d.table[d.files[f].path] == f
    {
      CollectFound(d, alive, f);
    }
    var sent := PayloadsOf(d.files, taken);
    forall i | 0 <= i < |sent|
      ensures sent[i].path in Abs(d).files && sent[i] == PayloadOf(Abs(d).files[sent[i].path])
      ensures sent[i].path == d.files[taken[i]].path && Abs(d).files[sent[i].path] == d.files[taken[i]]
    {
      assert taken[i] in taken;
    }
    forall i, j | 0 <= i < j < |sent| ensures sent[i].path != sent[j].path {
      assert taken[i] in taken && taken[j] in taken;
    }
  }

  lemma CollectEnds(cfg: Config, d: Data, alive: set<Fid>, s: State, c: Choice, req: Request, left: int,
                    todo: seq<Fid>, taken: seq<Fid>)
    requires TableOk(d, alive) && CtlData(cfg, d, s, Collect(req, left, todo, taken)) && (left == 0 || todo == [])
    ensures (forall f | f in taken :: f in d.files)
    ensures Next(cfg, s, Event(req, c.t0, c.t1, Reply(SA_SUCCESS, PayloadsOf(d.files, taken), [])), s)
  {
    forall f | f in taken ensures f in d.table.Values {
      assert f in taken + todo;
    }
    NoDupPrefix(taken, todo);
    CollectedSnapshot(d, alive, taken);
    assert Abs(d).files.Keys == d.table.Keys;
  }

  lemma NoDupPrefix(a: seq<Fid>, b: seq<Fid>)
    requires NoDup(a + b)
    ensures NoDup(a)
  {
    forall i, j | 0 <= i < j < |a| ensures a[i] != a[j] {
      assert (a + b)[i] == a[i] && (a + b)[j] == a[j];
    }
  }

  lemma CollectKeeps(cfg: Config, g: G, t: Tid, c: Choice, req: Request, left: int, todo: seq<Fid>, taken: seq<Fid>,
                     g': G)
    requires GInv(cfg, g) && Th(g.threads, t) == Thread(Collect(req, left, todo, taken), None)
    requires CollectStep(g, t, c, req, left, todo, taken) == Some(g')
    ensures GInv(cfg, g')
  {
    AtThread(g, t);
    assert CtlData(cfg, g.d, Last(g.trace), Collect(req, left, todo, taken));
    NoDupPrefix(taken, todo);
    CollectStruct(g, t, c, req, left, todo, taken, g');
    if left > 0 && todo != [] {
      CollectOneMore(cfg, g.d, Last(g.trace), req, left, todo, taken);
    } else {
      CollectEnds(cfg, g.d, g.locks.Keys, Last(g.trace), c, req, left, todo, taken);
    }
    OwnerData(cfg, g, t, g');
  }

  // --------------------------------------------------------------- close_client

  lemma SweepStruct(g: G, t: Tid, c: Choice, req: Request, todo: seq<Fid>, g': G)
    requires Struct(g) && Th(g.threads, t) == Thread(Sweep(req, todo), None)
    requires SweepStep(g, t, c, req, todo) == Some(g')
    ensures Struct(g') && g'.owner == g.owner && g'.trace == g.trace
  {
    AtThread(g, t);
    if todo != [] {
      BeginKeepsStruct(g, t, todo[0], Ask(true), SweepOne(req, todo[1..], todo[0]));
    } else {
      LeavePlain(g, t, Plain(req, c, SA_SUCCESS));
    }
  }

  lemma SweepGoesOn(cfg: Config, g: G, t: Tid, c: Choice, s: State, req: Request, todo: seq<Fid>, g': G)
    requires CtlData(cfg, g.d, s, Sweep(req, todo)) && SweepStep(g, t, c, req, todo) == Some(g')
    ensures CtlData(cfg, g'.d, s, Th(g'.threads, t).ctl)
  {
    if todo != [] {
      assert [todo[0]] + todo[1..] == todo;
    } else {
      SweepEnds(cfg, g.d, s, c, req);
    }
  }

  lemma SweepKeeps(cfg: Config, g: G, t: Tid, c: Choice, req: Request, todo: seq<Fid>, g': G)
    requires GInv(cfg, g) && Th(g.threads, t) == Thread(Sweep(req, todo), None)
    requires SweepStep(g, t, c, req, todo) == Some(g')
    ensures GInv(cfg, g')
  {
    AtThread(g, t);
    assert CtlData(cfg, g.d, Last(g.trace), Sweep(req, todo));
    SweepStruct(g, t, c, req, todo, g');
    SweepGoesOn(cfg, g, t, c, Last(g.trace), req, todo, g');
    OwnerData(cfg, g, t, g');
  }

  lemma SweepEnds(cfg: Config, d: Data, s: State, c: Choice, req: Request)
    requires SweepData(d, s, req, [])
    ensures Next(cfg, s, Plain(req, c, SA_SUCCESS), Abs(d))
  {
    assert Abs(d).files == AllClosedBy(s.files, req.fd);
  }

  lemma SweepOneStruct(g: G, t: Tid, req: Request, todo: seq<Fid>, cur: Fid, g': G)
    requires Struct(g) && Th(g.threads, t) == Thread(SweepOne(req, todo, cur), None)
    requires SweepOneStep(g, t, req, todo, cur) == Some(g')
    ensures Struct(g')
  {
    var file := ClosedBy(g.d.files[cur], req.fd);
    AtThread(g, t);
    HeldAs(g.threads, g.locks, t, cur);
    SetFileKeepsStruct(g, t, cur, file);
    BeginKeepsStruct(SetFile(g, cur, file), t, cur, R.Release, Sweep(req, todo));
  }

  /** The file just visited has forgotten the client. */
  lemma SweptOne(cfg: Config, d: Data, alive: set<Fid>, s: State, req: Request, todo: seq<Fid>, cur: Fid)
    requires TableOk(d, alive) && SweepData(d, s, req, [cur] + todo)
    ensures cur in d.files
    ensures SweepData(d.(files := d.files[cur := ClosedBy(d.files[cur], req.fd)]), s, req, todo)
  {
    var all := [cur] + todo;
    assert all[0] == cur && all[1..] == todo;
    TailElems(all);
    assert cur in all;
    CollectFound(d, alive, cur);
    var p := d.files[cur].path;
    var d' := d.(files := d.files[cur := ClosedBy(d.files[cur], req.fd)]);
    SetShows(d, alive, p, ClosedBy(d.files[cur], req.fd));
    forall q | q in s.files
      ensures Abs(d').files[q] == if d.table[q] in todo then s.files[q] else ClosedBy(s.files[q], req.fd)
    {
      SweptElsewhere(d, alive, p, q);
      assert d.table[q] in all <==> d.table[q] in Elems(all);
      assert d.table[q] in todo <==> d.table[q] in Elems(todo);
    }
    forall f | f in todo ensures f in d'.table.Values {
      assert f in all;
    }
  }

  lemma SweptElsewhere(d: Data, alive: set<Fid>, p: Path, q: Path)
    requires TableOk(d, alive) && p in d.table && q in d.table
    ensures d.table[p] == d.table[q] ==> p == q
  {
    if d.table[p] == d.table[q] {
      TableInjective(d, alive, p, q);
    }
  }

  lemma SweepOneKeeps(cfg: Config, g: G, t: Tid, req: Request, todo: seq<Fid>, cur: Fid, g': G)
    requires GInv(cfg, g) && Th(g.threads, t) == Thread(SweepOne(req, todo, cur), None)
    requires SweepOneStep(g, t, req, todo, cur) == Some(g')
    ensures GInv(cfg, g')
  {
    AtThread(g, t);
    assert CtlData(cfg, g.d, Last(g.trace), SweepOne(req, todo, cur));
    SweepOneStruct(g, t, req, todo, cur, g');
    SweptOne(cfg, g.d, g.locks.Keys, Last(g.trace), req, todo, cur);
    OwnerData(cfg, g, t, g');
  }
}
