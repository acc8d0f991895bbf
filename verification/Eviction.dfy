/** Accounting of stored bytes, and what the eviction relation of StoreSpec guarantees. */
module Eviction {
  import opened Clock
  import opened StoreSpec

  // -------------------------------------------------------------- byte totals

  lemma {:induction false} TotalSizeSplit(m: map<Path, File>, p: Path)
    requires p in m
    ensures TotalSize(m) == m[p].size + TotalSize(m - {p})
    decreases |m|
  {
    var q :| q in m && TotalSize(m) == m[q].size + TotalSize(m - {q});
    if q != p {
      TotalSizeSplit(m - {q}, p);
      TotalSizeSplit(m - {p}, q);
      assert m - {q} - {p} == m - {p} - {q};
    }
  }

  lemma TotalSizeSet(m: map<Path, File>, p: Path, f: File)
    ensures TotalSize(m[p := f]) == f.size + TotalSize(m - {p})
    ensures TotalSize(m[p := f]) == TotalSize(m) + f.size - (if p in m then m[p].size else 0)
  {
    TotalSizeSplit(m[p := f], p);
    assert m[p := f] - {p} == m - {p};
    if p in m {
      TotalSizeSplit(m, p);
    } else {
      assert m - {p} == m;
    }
  }

  lemma {:induction false} TotalSizeNonNegative(m: map<Path, File>)
    ensures TotalSize(m) >= 0
    decreases |m|
  {
    if m != map[] {
      var p :| p in m;
      TotalSizeSplit(m, p);
      TotalSizeNonNegative(m - {p});
    }
  }

  /** Totals depend on sizes only. */
  lemma {:induction false} TotalSizeSame(m: map<Path, File>, m': map<Path, File>)
    requires m.Keys == m'.Keys
    requires forall p | p in m :: m[p].size == m'[p].size
    ensures TotalSize(m) == TotalSize(m')
    decreases |m|
  {
    if m != map[] {
      var p :| p in m;
      TotalSizeSplit(m, p);
      TotalSizeSplit(m', p);
      TotalSizeSame(m - {p}, m' - {p});
    } else {
      assert m' == map[];
    }
  }

  // ------------------------------------------------------- growing a victim list

  lemma WithoutNone(m: map<Path, File>)
    ensures Without(m, []) == m
  {
  }

  lemma WithoutOneMore(m: map<Path, File>, vs: seq<File>, v: File)
    ensures PathsOf(vs + [v]) == PathsOf(vs) + {v.path}
    ensures Without(m, vs + [v]) == Without(m, vs) - {v.path}
    ensures Bytes(vs + [v]) == Bytes(vs) + v.size
  {
    assert (vs + [v])[..|vs|] == vs;
  }

  lemma ExpelledOneMore(c: Counters, vs: seq<File>, v: File)
    ensures AfterExpelling(c, vs + [v]) == OneExpelled(AfterExpelling(c, vs), v)
  {
    assert (vs + [v])[..|vs|] == vs;
  }

  lemma EvictOneMore(policy: Policy, m: map<Path, File>, vs: seq<File>, v: File)
    requires Evictions(policy, m, vs)
    requires Victim(policy, Without(m, vs), v)
    ensures Evictions(policy, m, vs + [v])
  {
    assert (vs + [v])[..|vs|] == vs;
  }

  lemma {:induction false} PathsOfMember(vs: seq<File>, p: Path)
    ensures p in PathsOf(vs) <==> exists i :: 0 <= i < |vs| && vs[i].path == p
    decreases |vs|
  {
    if vs != [] {
      var n := |vs| - 1;
      PathsOfMember(vs[..n], p);
      if p in PathsOf(vs[..n]) {
        var i :| 0 <= i < n && vs[..n][i].path == p;
        assert vs[i].path == p;
      }
      if i :| 0 <= i < |vs| && vs[i].path == p {
        assert i < n ==> vs[..n][i].path == p;
      }
    }
  }

  /** Every prefix of an eviction is an eviction, and its next victim was rightful. */
  lemma {:induction false} EvictionsPrefix(policy: Policy, m: map<Path, File>, vs: seq<File>, k: nat)
    requires Evictions(policy, m, vs)
    requires k <= |vs|
    ensures Evictions(policy, m, vs[..k])
    ensures k < |vs| ==> Victim(policy, Without(m, vs[..k]), vs[k])
    decreases |vs|
  {
    var n := |vs| - 1;
    if k == |vs| {
      assert vs[..k] == vs;
    } else if k < n {
      EvictionsPrefix(policy, m, vs[..n], k);
      assert vs[..n][..k] == vs[..k];
    }
  }

  /** Evictions take away exactly the victims' bytes and one entry per victim. */
  lemma {:induction false} EvictionsAccount(policy: Policy, m: map<Path, File>, vs: seq<File>)
    requires Evictions(policy, m, vs)
    ensures TotalSize(Without(m, vs)) == TotalSize(m) - Bytes(vs)
    ensures |Without(m, vs)| == |m| - |vs|
    decreases |vs|
  {
    if vs == [] {
      assert Without(m, vs) == m;
    } else {
      var n := |vs| - 1;
      EvictionsAccount(policy, m, vs[..n]);
      assert vs == vs[..n] + [vs[n]];
      WithoutOneMore(m, vs[..n], vs[n]);
      var before := Without(m, vs[..n]);
      TotalSizeSplit(before, vs[n].path);
      assert (before - {vs[n].path}).Keys == before.Keys - {vs[n].path};
    }
  }

  // --------------------------------------------------------------- exactness

  /** A victim was in the map and had not left before its turn. */
  lemma VictimFacts(policy: Policy, m: map<Path, File>, vs: seq<File>, k: nat)
    requires Evictions(policy, m, vs)
    requires k < |vs|
    ensures vs[k].path in m && m[vs[k].path] == vs[k] && vs[k].canBeExpelled
    ensures forall i | 0 <= i < k :: vs[i].path != vs[k].path
  {
    EvictionsPrefix(policy, m, vs, k);
    PathsOfMember(vs[..k], vs[k].path);
    forall i | 0 <= i < k ensures vs[i].path != vs[k].path {
      assert vs[..k][i] == vs[i];
    }
  }

  /**
    Eviction is exact: the victims leave in policy order, none twice, each was
    a stored expellable file, and none is newer than any expellable survivor.
   */
  lemma EvictionIsExact(policy: Policy, m: map<Path, File>, vs: seq<File>)
    requires Evictions(policy, m, vs)
    ensures forall k | 0 <= k < |vs| :: vs[k].path in m && m[vs[k].path] == vs[k] && vs[k].canBeExpelled
    ensures forall i, j | 0 <= i < j < |vs| :: vs[i].path != vs[j].path && !Older(policy, vs[j], vs[i])
    ensures forall k, p | 0 <= k < |vs| && p in Without(m, vs) && m[p].canBeExpelled ::
              !Older(policy, m[p], vs[k])
  {
    forall k | 0 <= k < |vs| ensures vs[k].path in m && m[vs[k].path] == vs[k] && vs[k].canBeExpelled {
      VictimFacts(policy, m, vs, k);
    }
    forall i, j | 0 <= i < j < |vs| ensures vs[i].path != vs[j].path && !Older(policy, vs[j], vs[i]) {
      VictimFacts(policy, m, vs, j);
      NotNewerThanLater(policy, m, vs, i, vs[j].path);
    }
    forall k, p | 0 <= k < |vs| && p in Without(m, vs) && m[p].canBeExpelled
      ensures !Older(policy, m[p], vs[k])
    {
      forall h | 0 <= h < |vs| ensures vs[h].path != p {
        PathsOfMember(vs, vs[h].path);
      }
      NotNewerThanLater(policy, m, vs, k, p);
    }
  }

  /** The instant at which the policy looks: of the last use, or of the creation. */
  predicate OlderInstant(policy: Policy, a: File, b: File) {
    if policy == LRU then Nanos(a.lastUse) < Nanos(b.lastUse) else Nanos(a.created) < Nanos(b.created)
  }

  predicate Among(vs: seq<File>, p: Path) {
    exists i :: 0 <= i < |vs| && vs[i].path == p
  }

  predicate ProperStamps(f: File) {
    Proper(f.created) && Proper(f.lastUse)
  }

  lemma OlderIsInstant(policy: Policy, a: File, b: File)
    requires ProperStamps(a) && ProperStamps(b)
    ensures Older(policy, a, b) <==> OlderInstant(policy, a, b)
  {
    ComparesInstants(a.lastUse, b.lastUse);
    ComparesInstants(a.created, b.created);
  }

  /**
    In nanoseconds: no expellable survivor was last used, or under FIFO created,
    before a victim, and the victims leave in that order.
   */
  lemma OldestGoFirst(policy: Policy, m: map<Path, File>, vs: seq<File>)
    requires Evictions(policy, m, vs) && forall p | p in m && m[p].canBeExpelled :: ProperStamps(m[p])
    ensures forall k, p | 0 <= k < |vs| && p in m && m[p].canBeExpelled && !Among(vs, p) ::
              !OlderInstant(policy, m[p], vs[k])
    ensures forall i, j | 0 <= i < j < |vs| :: !OlderInstant(policy, vs[j], vs[i])
  {
    EvictionIsExact(policy, m, vs);
    forall k, p | 0 <= k < |vs| && p in m && m[p].canBeExpelled && !Among(vs, p)
      ensures !OlderInstant(policy, m[p], vs[k])
    {
      PathsOfMember(vs, p);
      OlderIsInstant(policy, m[p], vs[k]);
    }
    forall i, j | 0 <= i < j < |vs| ensures !OlderInstant(policy, vs[j], vs[i]) {
      OlderIsInstant(policy, vs[j], vs[i]);
    }
  }

  lemma NotNewerThanLater(policy: Policy, m: map<Path, File>, vs: seq<File>, k: nat, p: Path)
    requires Evictions(policy, m, vs)
    requires k < |vs| && p in m && m[p].canBeExpelled
    requires forall h | 0 <= h < k :: vs[h].path != p
    ensures !Older(policy, m[p], vs[k])
  {
    EvictionsPrefix(policy, m, vs, k);
    PathsOfMember(vs[..k], p);
    assert p in Without(m, vs[..k]);
  }

  // --------------------------------------------------------- never running dry

  /** A request to grow `grown.path` that passed the size check. */
  ghost predicate MayGrow(cfg: Config, s: State, grown: File, added: nat) {
    && grown.path in s.files
    && grown.size == s.files[grown.path].size + added
    && grown.size <= cfg.maxSpace
    && FileOk(grown.path, grown)
  }

  lemma ShieldedTotal(cfg: Config, s: State, grown: File, added: nat)
    requires Inv(cfg, s) && MayGrow(cfg, s, grown, added)
    ensures TotalSize(Shielded(s, grown)) == s.counters.space + added
    ensures TotalSize(Grown(s, grown, added).files) == s.counters.space + added
    ensures |Shielded(s, grown)| == |s.files|
    ensures |Grown(s, grown, added).files| == |s.files|
  {
    TotalSizeSet(s.files, grown.path, grown);
    TotalSizeSet(s.files, grown.path, grown.(canBeExpelled := false));
    assert Shielded(s, grown).Keys == s.files.Keys;
    assert Grown(s, grown, added).files.Keys == s.files.Keys;
  }

  /** The growing file is shielded, so it is never among the victims. */
  lemma ShieldedStays(policy: Policy, s: State, grown: File, vs: seq<File>)
    requires Evictions(policy, Shielded(s, grown), vs)
    ensures grown.path !in PathsOf(vs)
  {
    forall k | 0 <= k < |vs| ensures vs[k].path != grown.path {
      VictimFacts(policy, Shielded(s, grown), vs, k);
    }
    PathsOfMember(vs, grown.path);
  }

  /**
    Eviction never runs dry: as long as too little is freed, an expellable file
    with bytes to give is still stored, and it is not the growing file.
   */
  lemma NeverRunsDry(cfg: Config, s: State, grown: File, added: nat, vs: seq<File>)
      returns (p: Path)
    requires Inv(cfg, s) && MayGrow(cfg, s, grown, added)
    requires Evictions(cfg.policy, Shielded(s, grown), vs)
    requires Bytes(vs) < s.counters.space + added - cfg.maxSpace
    ensures p != grown.path && p in s.files && p in Without(Shielded(s, grown), vs)
    ensures s.files[p].canBeExpelled && s.files[p].size > 0
  {
    ShieldedTotal(cfg, s, grown, added);
    p := ExpelCandidate(cfg.policy, Shielded(s, grown), s.counters.space + added - cfg.maxSpace, grown.path, vs);
  }

  lemma {:induction false} BiggerThanNothing(m: map<Path, File>) returns (p: Path)
    requires TotalSize(m) > 0
    ensures p in m && m[p].size > 0
    decreases |m|
  {
    p :| p in m;
    if m[p].size == 0 {
      TotalSizeSplit(m, p);
      p := BiggerThanNothing(m - {p});
    }
  }

  // ------------------------------------------------------------ the freeing loop

  /** The state of `expell_multiple_files` before a test of its loop. */
  ghost predicate ExpelSoFar(policy: Policy, m0: map<Path, File>, need: int, vs: seq<File>, m: map<Path, File>) {
    && Evictions(policy, m0, vs)
    && m == Without(m0, vs)
    && (vs != [] ==> Bytes(vs[..|vs|-1]) < need)
  }

  /** One more round of the loop. */
  lemma ExpelRound(policy: Policy, m0: map<Path, File>, need: int, vs: seq<File>, m: map<Path, File>, v: File)
    requires ExpelSoFar(policy, m0, need, vs, m)
    requires Bytes(vs) < need
    requires Victim(policy, m, v)
    ensures ExpelSoFar(policy, m0, need, vs + [v], m - {v.path})
    ensures Bytes(vs + [v]) == Bytes(vs) + v.size
  {
    EvictOneMore(policy, m0, vs, v);
    WithoutOneMore(m0, vs, v);
    assert (vs + [v])[..|vs|] == vs;
  }

  /** All files but `shield` may be expelled. */
  ghost predicate OnlyShielded(m: map<Path, File>, shield: Path) {
    && shield in m
    && (forall p | p in m :: m[p].path == p && (m[p].canBeExpelled <==> p != shield))
  }

  lemma ShieldLasts(policy: Policy, m0: map<Path, File>, shield: Path, vs: seq<File>)
    requires OnlyShielded(m0, shield) && Evictions(policy, m0, vs)
    ensures OnlyShielded(Without(m0, vs), shield)
    ensures Without(m0, vs)[shield] == m0[shield]
  {
    forall k | 0 <= k < |vs| ensures vs[k].path != shield {
      VictimFacts(policy, m0, vs, k);
    }
    PathsOfMember(vs, shield);
  }

  /** While too little is freed, somebody other than the shielded file can go. */
  lemma ExpelCandidate(policy: Policy, m0: map<Path, File>, need: int, shield: Path, vs: seq<File>) returns (p: Path)
    requires OnlyShielded(m0, shield) && Evictions(policy, m0, vs)
    requires m0[shield].size + need <= TotalSize(m0)
    requires Bytes(vs) < need
    ensures p in Without(m0, vs) && p != shield
    ensures Without(m0, vs)[p].canBeExpelled && Without(m0, vs)[p].size > 0
  {
    var m := Without(m0, vs);
    ShieldLasts(policy, m0, shield, vs);
    EvictionsAccount(policy, m0, vs);
    TotalSizeSplit(m, shield);
    p := BiggerThanNothing(m - {shield});
  }

  // ------------------------------------------------------------ each step keeps Inv

  /** Removing the same paths from two maps that agree on keys and sizes. */
  lemma WithoutSame(m: map<Path, File>, m': map<Path, File>, vs: seq<File>)
    requires m.Keys == m'.Keys
    requires forall p | p in m :: m[p].size == m'[p].size
    ensures Without(m, vs).Keys == Without(m', vs).Keys
    ensures |Without(m, vs)| == |Without(m', vs)|
    ensures TotalSize(Without(m, vs)) == TotalSize(Without(m', vs))
  {
    var gone := PathsOf(vs);
    assert (m - gone).Keys == m.Keys - gone && (m' - gone).Keys == m'.Keys - gone;
    TotalSizeSame(m - gone, m' - gone);
  }

  lemma WithoutOk(m: map<Path, File>, vs: seq<File>)
    requires AllOk(m)
    ensures AllOk(Without(m, vs))
  {
  }

  /** Evicting from the shielded files or from the real ones costs the same. */
  lemma GrowAccount(cfg: Config, s: State, grown: File, added: nat, vs: seq<File>)
    requires Inv(cfg, s) && MayGrow(cfg, s, grown, added)
    requires Evictions(cfg.policy, Shielded(s, grown), vs)
    ensures |Without(Grown(s, grown, added).files, vs)| == |s.files| - |vs|
    ensures TotalSize(Without(Grown(s, grown, added).files, vs)) == s.counters.space + added - Bytes(vs)
    ensures grown.path in Without(Grown(s, grown, added).files, vs)
  {
    ShieldedTotal(cfg, s, grown, added);
    ShieldedStays(cfg.policy, s, grown, vs);
    EvictionsAccount(cfg.policy, Shielded(s, grown), vs);
    WithoutSame(Shielded(s, grown), Grown(s, grown, added).files, vs);
  }

  lemma GrowKeepsInv(cfg: Config, s: State, e: Event, grown: File, added: nat, s': State)
    requires Inv(cfg, s) && MayGrow(cfg, s, grown, added)
    requires GrowNext(cfg, s, e, grown, added, s')
    ensures Inv(cfg, s')
    ensures grown.path in s'.files && s'.files[grown.path] == grown
  {
    GrowAccount(cfg, s, grown, added, e.reply.expelled);
    WithoutOk(Grown(s, grown, added).files, e.reply.expelled);
  }

  lemma CreateKeepsInv(cfg: Config, s: State, e: Event, s': State)
    requires Inv(cfg, s)
    requires e.req.Open? && CreateNext(cfg, s, e, s')
    ensures Inv(cfg, s')
  {
    if e.req.path !in s.files {
      var vs := e.reply.expelled;
      var left := Without(s.files, vs);
      EvictionsAccount(cfg.policy, s.files, vs);
      WithoutOk(s.files, vs);
      assert e.req.path !in left;
      BytesNonNegative(vs);
      AddKeeps(left, e.req.path, s'.files[e.req.path]);
    }
  }

  lemma AddKeeps(m: map<Path, File>, p: Path, f: File)
    requires p !in m && FileOk(p, f)
    requires AllOk(m)
    ensures AllOk(m[p := f])
    ensures TotalSize(m[p := f]) == TotalSize(m) + f.size
    ensures |m[p := f]| == |m| + 1
  {
    AddKeepsTotals(m, p, f);
  }

  lemma AddKeepsTotals(m: map<Path, File>, p: Path, f: File)
    requires p !in m
    ensures TotalSize(m[p := f]) == TotalSize(m) + f.size
    ensures |m[p := f]| == |m| + 1
  {
    TotalSizeSet(m, p, f);
    assert m[p := f].Keys == m.Keys + {p};
  }

  lemma {:induction false} BytesNonNegative(vs: seq<File>)
    ensures Bytes(vs) >= 0
  {
    if vs != [] {
      BytesNonNegative(vs[..|vs|-1]);
    }
  }

  lemma UpdateKeepsInv(cfg: Config, s: State, path: Path, f: File, s': State)
    requires Inv(cfg, s)
    requires path in s.files && FileOk(path, f) && f.size == s.files[path].size
    requires s' == s.(files := s.files[path := f])
    ensures Inv(cfg, s')
  {
    TotalSizeSet(s.files, path, f);
    assert s'.files.Keys == s.files.Keys;
  }

  lemma DropKeepsInv(cfg: Config, s: State, path: Path)
    requires Inv(cfg, s) && path in s.files
    ensures Inv(cfg, Dropped(s, path))
  {
    TotalSizeSplit(s.files, path);
    assert (s.files - {path}).Keys == s.files.Keys - {path};
  }

  lemma DisconnectKeepsInv(cfg: Config, s: State, fd: Fd)
    requires Inv(cfg, s)
    ensures Inv(cfg, s.(files := AllClosedBy(s.files, fd)))
  {
    TotalSizeSame(s.files, AllClosedBy(s.files, fd));
    assert AllClosedBy(s.files, fd).Keys == s.files.Keys;
  }

  lemma WriteKeepsInv(cfg: Config, s: State, e: Event, s': State)
    requires Inv(cfg, s) && e.req.Write? && WriteNext(cfg, s, e, s')
    ensures Inv(cfg, s')
  {
    var Write(fd, path, data) := e.req;
    if WriteCheck(cfg, s, fd, path, data) == SA_SUCCESS {
      assert FileOk(path, s.files[path]);
      GrowKeepsInv(cfg, s, e, Written(s.files[path], data, e.used), |data|, s');
    }
  }

  lemma AppendKeepsInv(cfg: Config, s: State, e: Event, s': State)
    requires Inv(cfg, s) && e.req.Append? && AppendNext(cfg, s, e, s')
    ensures Inv(cfg, s')
  {
    var Append(fd, path, data) := e.req;
    if data != [] && AppendCheck(cfg, s, fd, path, data) == SA_SUCCESS {
      assert FileOk(path, s.files[path]);
      GrowKeepsInv(cfg, s, e, Extended(s.files[path], data, e.used), |data|, s');
    }
  }

  /** Requests that use one file without changing its size. */
  lemma UseKeepsInv(cfg: Config, s: State, e: Event, s': State)
    requires Inv(cfg, s) && Next(cfg, s, e, s')
    requires e.req.Close? || e.req.Read? || (e.req.Open? && !e.req.create)
    ensures Inv(cfg, s')
  {
    if e.req.path in s.files {
      var f := s.files[e.req.path];
      assert FileOk(e.req.path, f);
      if s' != s {
        UpdateKeepsInv(cfg, s, e.req.path, s'.files[e.req.path], s');
      }
    }
  }

  /** Every served request keeps the accounting and per-file invariant. */
  lemma NextKeepsInv(cfg: Config, s: State, e: Event, s': State)
    requires Inv(cfg, s) && Next(cfg, s, e, s')
    ensures Inv(cfg, s')
  {
    match e.req {
      case Write(_, _, _) => WriteKeepsInv(cfg, s, e, s');
      case Append(_, _, _) => AppendKeepsInv(cfg, s, e, s');
      case ReadN(_) =>
      case Remove(_, path) =>
        if s' != s {
          DropKeepsInv(cfg, s, path);
        }
      case Disconnect(fd) => DisconnectKeepsInv(cfg, s, fd);
      case Open(_, _, create, _) =>
        if create {
          CreateKeepsInv(cfg, s, e, s');
        } else {
          UseKeepsInv(cfg, s, e, s');
        }
      case _ => UseKeepsInv(cfg, s, e, s');
    }
  }
}
