/**
  Replacement by timestamps refines replacement by a queue: as long as clock
  readings strictly increase, LRU evicts from the old end of a move-to-back list
  and FIFO from the old end of a creation-order queue.
 */
module QueueCache {
  import opened Clock
  import opened StoreSpec
  import opened Eviction
  import opened StoreRuns

  // --------------------------------------------------------------- the queue

  function Minus(q: seq<Path>, gone: set<Path>): seq<Path> {
    if q == [] then []
    else if q[0] in gone then Minus(q[1..], gone)
    else [q[0]] + Minus(q[1..], gone)
  }

  /** Use of `p`: under LRU it moves to the young end, under FIFO nothing happens. */
  function Touched(policy: Policy, q: seq<Path>, p: Path): seq<Path> {
    if policy == LRU then Minus(q, {p}) + [p] else q
  }

  /** Bytes freed by the first `k` of `c`. */
  function Freed(m: map<Path, File>, c: seq<Path>, k: nat): int
    requires k <= |c| && forall p | p in c :: p in m
  {
    if k == 0 then 0 else Freed(m, c, k - 1) + m[c[k-1]].size
  }

  /** How many are popped from the old end of `c`, `k` being popped already. */
  function PopCount(m: map<Path, File>, c: seq<Path>, need: int, k: nat): nat
    requires k <= |c| && forall p | p in c :: p in m
    ensures k <= PopCount(m, c, need, k) <= |c|
    decreases |c| - k
  {
    if k == |c| || Freed(m, c, k) >= need then k else PopCount(m, c, need, k + 1)
  }

  /** A write or append of some bytes that was accepted. */
  predicate Grows(e: Event) {
    (e.req.Write? || e.req.Append?) && e.reply.code == SA_SUCCESS && DataOf(e.req) != []
  }

  /** The victims popped to make `path` grow by `added` bytes. */
  function GrowVictims(cfg: Config, s: State, q: seq<Path>, path: Path, added: nat): seq<Path>
    requires forall p | p in q :: p in s.files
  {
    MinusMembers(q, {path});
    var c := Minus(q, {path});
    c[..PopCount(s.files, c, s.counters.space + added - cfg.maxSpace, 0)]
  }

  /** The victims a queue would choose, oldest first, given its order `q`. */
  function QueueVictims(cfg: Config, s: State, q: seq<Path>, e: Event): seq<Path>
    requires forall p | p in q :: p in s.files
  {
    if e.req.Open? && e.req.create && e.reply.code == SA_SUCCESS && MustMakeRoom(cfg, s) && q != [] then
      [q[0]]
    else if Grows(e) then GrowVictims(cfg, s, q, e.req.path, |DataOf(e.req)|)
    else []
  }

  /** The queue after serving `e`. */
  function QueueAfter(cfg: Config, s: State, q: seq<Path>, e: Event): seq<Path>
    requires forall p | p in q :: p in s.files
  {
    var gone := set p | p in QueueVictims(cfg, s, q, e);
    if e.reply.code != SA_SUCCESS then q
    else
      match e.req
      case Open(_, path, create, _) => if create then Minus(q, gone) + [path] else Touched(cfg.policy, q, path)
      case Write(_, path, _) => Minus(Touched(cfg.policy, q, path), gone)
      case Append(_, path, data) => if data == [] then q else Minus(Touched(cfg.policy, q, path), gone)
      case Read(_, path) => Touched(cfg.policy, q, path)
      case Remove(_, path) => Minus(q, {path})
      case _ => q
  }

  // ------------------------------------------------------- order and timestamps

  ghost predicate Sorted(policy: Policy, m: map<Path, File>, q: seq<Path>)
    requires forall p | p in q :: p in m
  {
    forall i, j | 0 <= i < j < |q| :: Older(policy, m[q[i]], m[q[j]])
  }

  /** `q` lists exactly the stored files, oldest stamp first, no two stamps alike. */
  ghost predicate Orders(policy: Policy, m: map<Path, File>, q: seq<Path>) {
    && (forall p :: p in q <==> p in m)
    && Sorted(policy, m, q)
  }

  lemma {:induction false} MinusMembers(q: seq<Path>, gone: set<Path>)
    ensures forall p :: p in Minus(q, gone) <==> p in q && p !in gone
  {
    if q != [] {
      MinusMembers(q[1..], gone);
    }
  }

  lemma {:induction false} MinusSorted(policy: Policy, m: map<Path, File>, q: seq<Path>, gone: set<Path>)
    requires (forall p | p in q :: p in m) && Sorted(policy, m, q)
    ensures (forall p | p in Minus(q, gone) :: p in m) && Sorted(policy, m, Minus(q, gone))
  {
    MinusMembers(q, gone);
    if q != [] {
      MinusSorted(policy, m, q[1..], gone);
      var rest := Minus(q[1..], gone);
      MinusMembers(q[1..], gone);
      forall j | 0 <= j < |rest| ensures Older(policy, m[q[0]], m[rest[j]]) {
        assert rest[j] in q[1..];
        var i :| 0 <= i < |q| - 1 && q[1..][i] == rest[j];
        assert q[i+1] == rest[j];
      }
    }
  }

  lemma SameStampsSorted(policy: Policy, m: map<Path, File>, m': map<Path, File>, q: seq<Path>)
    requires (forall p | p in q :: p in m && p in m') && Sorted(policy, m, q)
    requires forall p | p in q :: Stamp(policy, m[p]) == Stamp(policy, m'[p])
    ensures Sorted(policy, m', q)
  {
  }

  lemma OrdersMinus(policy: Policy, m: map<Path, File>, q: seq<Path>, gone: set<Path>)
    requires Orders(policy, m, q)
    ensures Orders(policy, m - gone, Minus(q, gone))
  {
    MinusMembers(q, gone);
    MinusSorted(policy, m, q, gone);
    SameStampsSorted(policy, m, m - gone, Minus(q, gone));
  }

  /** A file with a new youngest stamp goes to the young end. */
  lemma OrdersAppend(policy: Policy, m: map<Path, File>, q: seq<Path>, f: File)
    requires Orders(policy, m, q) && f.path !in m
    requires forall p | p in m :: Older(policy, m[p], f)
    ensures Orders(policy, m[f.path := f], q + [f.path])
  {
  }

  /** Updating a file in place, with a younger stamp under LRU and the old one under FIFO. */
  lemma OrdersTouched(policy: Policy, m: map<Path, File>, q: seq<Path>, f: File)
    requires Orders(policy, m, q) && f.path in m
    requires policy == LRU ==> forall p | p in m :: Older(policy, m[p], f)
    requires policy == FIFO ==> f.created == m[f.path].created
    ensures Orders(policy, m[f.path := f], Touched(policy, q, f.path))
  {
    if policy == LRU {
      OrdersMinus(policy, m, q, {f.path});
      OrdersAppend(policy, m - {f.path}, Minus(q, {f.path}), f);
      assert (m - {f.path})[f.path := f] == m[f.path := f];
    } else {
      SameStampsSorted(policy, m, m[f.path := f], q);
    }
  }

  // ------------------------------------------------------------ victims pop off

  /** `c` lists the expellable files of `m`, oldest first. */
  ghost predicate Lists(policy: Policy, m: map<Path, File>, c: seq<Path>) {
    && (forall p :: p in c <==> p in m && m[p].canBeExpelled)
    && Sorted(policy, m, c)
  }

  function PathSeq(vs: seq<File>): seq<Path> {
    if vs == [] then [] else PathSeq(vs[..|vs|-1]) + [vs[|vs|-1].path]
  }

  lemma {:induction false} PathSeqSet(vs: seq<File>)
    ensures |PathSeq(vs)| == |vs|
    ensures forall p :: p in PathSeq(vs) <==> p in PathsOf(vs)
    decreases |vs|
  {
    if vs != [] {
      PathSeqSet(vs[..|vs|-1]);
    }
  }

  /** The next victim is the front of what is left of the queue. */
  lemma VictimIsFront(policy: Policy, m: map<Path, File>, c: seq<Path>, k: nat, gone: set<Path>, v: File)
    requires Lists(policy, m, c) && k <= |c|
    requires forall p :: p in c[..k] <==> p in gone
    requires Victim(policy, m - gone, v)
    ensures k < |c| && v.path == c[k]
  {
    assert v.path in c && v.path !in c[..k];
    var j :| 0 <= j < |c| && c[j] == v.path;
    assert j >= k;
    SortedDistinct(policy, m, c);
    SortedAt(policy, m, c, k, j);
    assert c[k] !in c[..k];
    assert c[k] in m - gone;
  }

  lemma SortedAt(policy: Policy, m: map<Path, File>, c: seq<Path>, i: nat, j: nat)
    requires (forall p | p in c :: p in m) && Sorted(policy, m, c)
    requires i <= j < |c|
    ensures i == j || Older(policy, m[c[i]], m[c[j]])
  {
  }

  lemma SortedDistinct(policy: Policy, m: map<Path, File>, c: seq<Path>)
    requires (forall p | p in c :: p in m) && Sorted(policy, m, c)
    ensures forall i, j | 0 <= i < j < |c| :: c[i] != c[j]
  {
    forall i, j | 0 <= i < j < |c| ensures c[i] != c[j] {
      assert Older(policy, m[c[i]], m[c[j]]);
    }
  }

  lemma NextPops(policy: Policy, m: map<Path, File>, c: seq<Path>, vs: seq<File>, v: File)
    requires Lists(policy, m, c) && |vs| <= |c| && PathSeq(vs) == c[..|vs|]
    requires Victim(policy, m - PathsOf(vs), v)
    ensures |vs| < |c| && v.path == c[|vs|] && v == m[c[|vs|]]
  {
    PathSeqSet(vs);
    VictimIsFront(policy, m, c, |vs|, PathsOf(vs), v);
  }

  /** Evictions pop the queue of expellable files from its old end. */
  lemma {:induction false} EvictionsPop(policy: Policy, m: map<Path, File>, c: seq<Path>, vs: seq<File>)
    requires Lists(policy, m, c) && Evictions(policy, m, vs)
    ensures |vs| <= |c| && PathSeq(vs) == c[..|vs|]
    ensures Bytes(vs) == Freed(m, c, |vs|)
    decreases |vs|
  {
    if vs != [] {
      var n := |vs| - 1;
      EvictionsPop(policy, m, c, vs[..n]);
      NextPops(policy, m, c, vs[..n], vs[n]);
      assert c[..n+1] == c[..n] + [c[n]];
    }
  }

  lemma {:induction false} FreedGrows(m: map<Path, File>, c: seq<Path>, i: nat, j: nat)
    requires i <= j <= |c| && forall p | p in c :: p in m
    ensures Freed(m, c, i) <= Freed(m, c, j)
    decreases j
  {
    if i < j {
      FreedGrows(m, c, i, j - 1);
    }
  }

  lemma {:induction false} PopCountIs(m: map<Path, File>, c: seq<Path>, need: int, k: nat, j: nat)
    requires j <= k <= |c| && forall p | p in c :: p in m
    requires Freed(m, c, k) >= need && (k > 0 ==> Freed(m, c, k - 1) < need)
    ensures PopCount(m, c, need, j) == k
    decreases k - j
  {
    if j < k {
      FreedGrows(m, c, j, k - 1);
      PopCountIs(m, c, need, k, j + 1);
    }
  }

  lemma {:induction false} FreedSame(m: map<Path, File>, m': map<Path, File>, c: seq<Path>, k: nat)
    requires k <= |c| && forall p | p in c :: p in m && p in m' && m[p].size == m'[p].size
    ensures Freed(m, c, k) == Freed(m', c, k)
  {
    if k > 0 {
      FreedSame(m, m', c, k - 1);
    }
  }

  /** What the queue holds besides the growing file, as the eviction scan sees it. */
  lemma ShieldedLists(cfg: Config, s: State, q: seq<Path>, grown: File)
    requires Inv(cfg, s) && Orders(cfg.policy, s.files, q) && grown.path in s.files
    ensures Lists(cfg.policy, Shielded(s, grown), Minus(q, {grown.path}))
  {
    MinusMembers(q, {grown.path});
    MinusSorted(cfg.policy, s.files, q, {grown.path});
    SameStampsSorted(cfg.policy, s.files, Shielded(s, grown), Minus(q, {grown.path}));
  }

  lemma UntilPops(policy: Policy, m: map<Path, File>, c: seq<Path>, need: int, vs: seq<File>)
    requires Lists(policy, m, c) && ExpelsUntil(policy, m, need, vs)
    ensures PathSeq(vs) == c[..PopCount(m, c, need, 0)]
  {
    EvictionsPop(policy, m, c, vs);
    if vs != [] {
      PrefixPops(policy, m, c, vs);
    }
    PopCountIs(m, c, need, |vs|, 0);
  }

  /** What an accepted growth expels. */
  lemma GrowExpels(cfg: Config, s: State, e: Event, grown: File, added: nat, s': State)
    requires GrowNext(cfg, s, e, grown, added, s')
    ensures ExpelsIfNeeded(cfg, s, grown, s.counters.space + added - cfg.maxSpace, e.reply.expelled)
  {
  }

  ghost predicate ExpelsIfNeeded(cfg: Config, s: State, grown: File, need: int, vs: seq<File>) {
    if need > 0 then ExpelsUntil(cfg.policy, Shielded(s, grown), need, vs) else vs == []
  }

  lemma VictimsAre(cfg: Config, s: State, q: seq<Path>, path: Path, added: nat)
    requires forall p | p in q :: p in s.files
    ensures forall p | p in Minus(q, {path}) :: p in s.files
    ensures GrowVictims(cfg, s, q, path, added) ==
            Minus(q, {path})[..PopCount(s.files, Minus(q, {path}), s.counters.space + added - cfg.maxSpace, 0)]
  {
    MinusMembers(q, {path});
  }

  /** The eviction loop stops exactly where popping the queue would stop. */
  lemma GrowPops(cfg: Config, s: State, q: seq<Path>, grown: File, added: nat, vs: seq<File>)
    requires Inv(cfg, s) && Orders(cfg.policy, s.files, q) && grown.path in s.files
    requires ExpelsIfNeeded(cfg, s, grown, s.counters.space + added - cfg.maxSpace, vs)
    ensures PathSeq(vs) == GrowVictims(cfg, s, q, grown.path, added)
  {
    VictimsAre(cfg, s, q, grown.path, added);
    NeedPops(cfg, s, q, grown, s.counters.space + added - cfg.maxSpace, vs);
  }

  lemma NeedPops(cfg: Config, s: State, q: seq<Path>, grown: File, need: int, vs: seq<File>)
    requires Inv(cfg, s) && Orders(cfg.policy, s.files, q) && grown.path in s.files
    requires forall p | p in Minus(q, {grown.path}) :: p in s.files
    requires ExpelsIfNeeded(cfg, s, grown, need, vs)
    ensures PathSeq(vs) == Minus(q, {grown.path})[..PopCount(s.files, Minus(q, {grown.path}), need, 0)]
  {
    if need > 0 {
      ShieldedPops(cfg, s, q, grown, need, vs);
    } else {
      PopCountIs(s.files, Minus(q, {grown.path}), need, 0, 0);
    }
  }

  lemma ShieldedPops(cfg: Config, s: State, q: seq<Path>, grown: File, need: int, vs: seq<File>)
    requires Inv(cfg, s) && Orders(cfg.policy, s.files, q) && grown.path in s.files
    requires (forall p | p in Minus(q, {grown.path}) :: p in s.files)
    requires ExpelsUntil(cfg.policy, Shielded(s, grown), need, vs)
    ensures PathSeq(vs) == Minus(q, {grown.path})[..PopCount(s.files, Minus(q, {grown.path}), need, 0)]
  {
    var c := Minus(q, {grown.path});
    ShieldedLists(cfg, s, q, grown);
    UntilPops(cfg.policy, Shielded(s, grown), c, need, vs);
    ShieldedCount(s, q, grown, need);
  }

  lemma ShieldedCount(s: State, q: seq<Path>, grown: File, need: int)
    requires grown.path in s.files && forall p | p in Minus(q, {grown.path}) :: p in s.files && p in Shielded(s, grown)
    ensures var c := Minus(q, {grown.path});
            PopCount(Shielded(s, grown), c, need, 0) == PopCount(s.files, c, need, 0)
  {
    MinusMembers(q, {grown.path});
    PopCountSame(Shielded(s, grown), s.files, Minus(q, {grown.path}), need, 0);
  }

  lemma PrefixPops(policy: Policy, m: map<Path, File>, c: seq<Path>, vs: seq<File>)
    requires Lists(policy, m, c) && Evictions(policy, m, vs) && vs != []
    ensures |vs| <= |c| && Bytes(vs[..|vs|-1]) == Freed(m, c, |vs| - 1)
  {
    EvictionsPop(policy, m, c, vs);
    EvictionsPop(policy, m, c, vs[..|vs|-1]);
  }

  lemma {:induction false} PopCountSame(m: map<Path, File>, m': map<Path, File>, c: seq<Path>, need: int, k: nat)
    requires k <= |c| && forall p | p in c :: p in m && p in m' && m[p].size == m'[p].size
    ensures PopCount(m, c, need, k) == PopCount(m', c, need, k)
    decreases |c| - k
  {
    FreedSame(m, m', c, k);
    if k < |c| && Freed(m, c, k) < need {
      PopCountSame(m, m', c, need, k + 1);
    }
  }

  // ------------------------------------------------------------- the simulation

  /** Each reading of the event compares as later than everything stamped so far. */
  ghost predicate AfterAll(s: State, e: Event) {
    forall p | p in s.files ::
      && Earlier(s.files[p].created, e.created) && Earlier(s.files[p].lastUse, e.created)
      && Earlier(s.files[p].created, e.used) && Earlier(s.files[p].lastUse, e.used)
  }

  /** The clock has moved on: each reading is of a later instant than everything stamped so far. */
  ghost predicate ClockAhead(s: State, e: Event) {
    && Proper(e.created) && Proper(e.used)
    && forall p | p in s.files :: Stamped(s.files[p], Nanos(e.created) - 1) && Stamped(s.files[p], Nanos(e.used) - 1)
  }

  /** Both stamps are readings of a clock, of instants up to `now`. */
  predicate Stamped(f: File, now: int) {
    Proper(f.created) && Proper(f.lastUse) && Nanos(f.created) <= now && Nanos(f.lastUse) <= now
  }

  lemma StampedIsEarlier(f: File, t: Time)
    requires Proper(t) && Stamped(f, Nanos(t) - 1)
    ensures Earlier(f.created, t) && Earlier(f.lastUse, t)
  {
    ComparesInstants(f.created, t);
    ComparesInstants(f.lastUse, t);
  }

  lemma AheadIsAfter(s: State, e: Event)
    requires ClockAhead(s, e)
    ensures AfterAll(s, e)
  {
    forall p | p in s.files
      ensures Earlier(s.files[p].created, e.created) && Earlier(s.files[p].lastUse, e.created)
      ensures Earlier(s.files[p].created, e.used) && Earlier(s.files[p].lastUse, e.used)
    {
      StampedIsEarlier(s.files[p], e.created);
      StampedIsEarlier(s.files[p], e.used);
    }
  }

  lemma GrowSimulates(cfg: Config, s: State, q: seq<Path>, e: Event, grown: File, added: nat, s': State)
    requires Inv(cfg, s) && Orders(cfg.policy, s.files, q)
    requires MayGrow(cfg, s, grown, added) && GrowNext(cfg, s, e, grown, added, s')
    requires cfg.policy == LRU ==> forall p | p in s.files :: Older(cfg.policy, s.files[p], grown)
    requires grown.created == s.files[grown.path].created
    ensures Orders(cfg.policy, s'.files, Minus(Touched(cfg.policy, q, grown.path), PathsOf(e.reply.expelled)))
  {
    OrdersTouched(cfg.policy, s.files, q, grown);
    OrdersMinus(cfg.policy, s.files[grown.path := grown], Touched(cfg.policy, q, grown.path),
      PathsOf(e.reply.expelled));
  }

  /** A creation evicts the front of the queue, if anything. */
  lemma CreatePops(cfg: Config, s: State, q: seq<Path>, e: Event, s': State)
    requires Inv(cfg, s) && Orders(cfg.policy, s.files, q)
    requires e.req.Open? && e.req.create && e.reply.code == SA_SUCCESS && CreateNext(cfg, s, e, s')
    ensures PathSeq(e.reply.expelled) == QueueVictims(cfg, s, q, e)
  {
    EvictionsPop(cfg.policy, s.files, q, e.reply.expelled);
    if q == [] {
      assert s.files == map[];
    }
  }

  lemma CreateEffect(cfg: Config, s: State, e: Event, s': State)
    requires AfterAll(s, e)
    requires e.req.Open? && e.req.create && e.reply.code == SA_SUCCESS && CreateNext(cfg, s, e, s')
    ensures e.req.path !in s.files && e.req.path in s'.files && s'.files[e.req.path].path == e.req.path
    ensures s'.files == Without(s.files, e.reply.expelled)[e.req.path := s'.files[e.req.path]]
    ensures forall p | p in s.files :: Older(cfg.policy, s.files[p], s'.files[e.req.path])
  {
  }

  lemma CreateSimulates(cfg: Config, s: State, q: seq<Path>, e: Event, s': State)
    requires Inv(cfg, s) && Orders(cfg.policy, s.files, q) && AfterAll(s, e)
    requires e.req.Open? && e.req.create && e.reply.code == SA_SUCCESS
    requires CreateNext(cfg, s, e, s')
    ensures PathSeq(e.reply.expelled) == QueueVictims(cfg, s, q, e)
    ensures Orders(cfg.policy, s'.files, Minus(q, PathsOf(e.reply.expelled)) + [e.req.path])
  {
    var vs := e.reply.expelled;
    CreatePops(cfg, s, q, e, s');
    CreateEffect(cfg, s, e, s');
    OrdersMinus(cfg.policy, s.files, q, PathsOf(vs));
    OrdersAppend(cfg.policy, Without(s.files, vs), Minus(q, PathsOf(vs)), s'.files[e.req.path]);
  }

  /** An accepted write grows its file, which becomes the most recently used. */
  lemma WriteGrows(cfg: Config, s: State, e: Event, s': State)
    requires Inv(cfg, s) && e.req.Write? && e.reply.code == SA_SUCCESS && WriteNext(cfg, s, e, s')
    ensures Grows(e) && GrowsFile(cfg, s, e, s')
  {
    AcceptedWrite(cfg, s, e, s');
    assert FileOk(e.req.path, s.files[e.req.path]);
  }

  lemma AcceptedWrite(cfg: Config, s: State, e: Event, s': State)
    requires e.req.Write? && e.reply.code == SA_SUCCESS && WriteNext(cfg, s, e, s')
    ensures WriteCheck(cfg, s, e.req.fd, e.req.path, e.req.data) == SA_SUCCESS && e.req.data != []
  {
    assert BodyCheck(0) == SA_CLOSE;
  }

  lemma AppendGrows(cfg: Config, s: State, e: Event, s': State)
    requires Inv(cfg, s)
    requires e.req.Append? && e.req.data != [] && e.reply.code == SA_SUCCESS && AppendNext(cfg, s, e, s')
    ensures Grows(e) && GrowsFile(cfg, s, e, s')
  {
    assert AppendCheck(cfg, s, e.req.fd, e.req.path, e.req.data) == SA_SUCCESS;
    assert FileOk(e.req.path, s.files[e.req.path]);
  }

  /** What a file is after growing. */
  function GrownFile(f: File, e: Event): File {
    if e.req.Write? then Written(f, e.req.data, e.used)
    else if e.req.Append? then Extended(f, e.req.data, e.used)
    else f
  }

  /** The file of the request is stored and grows by the data of the request. */
  ghost predicate GrowsFile(cfg: Config, s: State, e: Event, s': State)
    requires Grows(e)
  {
    && e.req.path in s.files
    && var grown := GrownFile(s.files[e.req.path], e);
       MayGrow(cfg, s, grown, |DataOf(e.req)|) && GrowNext(cfg, s, e, grown, |DataOf(e.req)|, s')
  }

  lemma GrownIsYoungest(cfg: Config, s: State, e: Event)
    requires AllOk(s.files) && AfterAll(s, e) && Grows(e) && e.req.path in s.files
    ensures var grown := GrownFile(s.files[e.req.path], e);
            && grown.path == e.req.path && grown.created == s.files[e.req.path].created
            && (cfg.policy == LRU ==> forall p | p in s.files :: Older(cfg.policy, s.files[p], grown))
  {
    assert FileOk(e.req.path, s.files[e.req.path]);
  }

  lemma GrowthSimulates(cfg: Config, s: State, q: seq<Path>, e: Event, s': State)
    requires Inv(cfg, s) && Orders(cfg.policy, s.files, q) && AfterAll(s, e)
    requires Grows(e) && GrowsFile(cfg, s, e, s')
    ensures PathSeq(e.reply.expelled) == QueueVictims(cfg, s, q, e)
    ensures Orders(cfg.policy, s'.files, QueueAfter(cfg, s, q, e))
  {
    var grown := GrownFile(s.files[e.req.path], e);
    GrownIsYoungest(cfg, s, e);
    GrowExpels(cfg, s, e, grown, |DataOf(e.req)|, s');
    GrowPops(cfg, s, q, grown, |DataOf(e.req)|, e.reply.expelled);
    GrowSimulates(cfg, s, q, e, grown, |DataOf(e.req)|, s');
    VictimSet(cfg, s, q, e);
  }

  lemma WriteSimulates(cfg: Config, s: State, q: seq<Path>, e: Event, s': State)
    requires Inv(cfg, s) && Orders(cfg.policy, s.files, q) && AfterAll(s, e)
    requires e.req.Write? && e.reply.code == SA_SUCCESS && WriteNext(cfg, s, e, s')
    ensures PathSeq(e.reply.expelled) == QueueVictims(cfg, s, q, e)
    ensures Orders(cfg.policy, s'.files, QueueAfter(cfg, s, q, e))
  {
    WriteGrows(cfg, s, e, s');
    GrowthSimulates(cfg, s, q, e, s');
  }

  lemma AppendSimulates(cfg: Config, s: State, q: seq<Path>, e: Event, s': State)
    requires Inv(cfg, s) && Orders(cfg.policy, s.files, q) && AfterAll(s, e)
    requires e.req.Append? && e.reply.code == SA_SUCCESS && AppendNext(cfg, s, e, s')
    ensures PathSeq(e.reply.expelled) == QueueVictims(cfg, s, q, e)
    ensures Orders(cfg.policy, s'.files, QueueAfter(cfg, s, q, e))
  {
    if e.req.data != [] {
      AppendGrows(cfg, s, e, s');
      GrowthSimulates(cfg, s, q, e, s');
    }
  }

  /** The requests that never evict. */
  lemma QuietSimulates(cfg: Config, s: State, q: seq<Path>, e: Event, s': State)
    requires Inv(cfg, s) && Orders(cfg.policy, s.files, q) && AfterAll(s, e)
    requires Next(cfg, s, e, s') && e.reply.code == SA_SUCCESS
    requires !e.req.Write? && !e.req.Append? && !(e.req.Open? && e.req.create)
    ensures e.reply.expelled == []
    ensures Orders(cfg.policy, s'.files, QueueAfter(cfg, s, q, e))
  {
    if e.req.Open? || e.req.Read? {
      OrdersTouched(cfg.policy, s.files, q, s'.files[e.req.path]);
    } else {
      UnusedSimulates(cfg, s, q, e, s');
    }
  }

  lemma RemoveEffect(cfg: Config, s: State, e: Event, s': State)
    requires Next(cfg, s, e, s') && e.reply.code == SA_SUCCESS && e.req.Remove?
    ensures e.reply.expelled == [] && s'.files == s.files - {e.req.path}
  {
    assert e.req.path !in s.files ==> s.files - {e.req.path} == s.files;
  }

  /** Requests that neither use a file nor take one away. */
  lemma RestEffect(cfg: Config, s: State, e: Event, s': State)
    requires Next(cfg, s, e, s') && (e.req.Close? || e.req.ReadN? || e.req.Disconnect?)
    ensures e.reply.expelled == [] && s'.files.Keys == s.files.Keys
    ensures forall policy, p | p in s.files :: Stamp(policy, s'.files[p]) == Stamp(policy, s.files[p])
  {
  }

  lemma UnusedSimulates(cfg: Config, s: State, q: seq<Path>, e: Event, s': State)
    requires Orders(cfg.policy, s.files, q)
    requires Next(cfg, s, e, s') && e.reply.code == SA_SUCCESS
    requires e.req.Close? || e.req.ReadN? || e.req.Remove? || e.req.Disconnect?
    ensures e.reply.expelled == []
    ensures Orders(cfg.policy, s'.files, QueueAfter(cfg, s, q, e))
  {
    if e.req.Remove? {
      RemoveEffect(cfg, s, e, s');
      OrdersMinus(cfg.policy, s.files, q, {e.req.path});
    } else {
      RestEffect(cfg, s, e, s');
      SameStampsSorted(cfg.policy, s.files, s'.files, q);
    }
  }

  /** One served request: same victims, and the queue follows the stamps. */
  lemma StepSimulates(cfg: Config, s: State, q: seq<Path>, e: Event, s': State)
    requires Inv(cfg, s) && Orders(cfg.policy, s.files, q) && ClockAhead(s, e)
    requires Next(cfg, s, e, s')
    ensures PathSeq(e.reply.expelled) == QueueVictims(cfg, s, q, e)
    ensures Orders(cfg.policy, s'.files, QueueAfter(cfg, s, q, e))
  {
    AheadIsAfter(s, e);
    if e.reply.code == SA_SUCCESS {
      if e.req.Open? && e.req.create {
        CreateSimulates(cfg, s, q, e, s');
        VictimSet(cfg, s, q, e);
      } else if e.req.Write? {
        WriteSimulates(cfg, s, q, e, s');
      } else if e.req.Append? {
        AppendSimulates(cfg, s, q, e, s');
      } else {
        QuietSimulates(cfg, s, q, e, s');
      }
    }
  }

  lemma VictimSet(cfg: Config, s: State, q: seq<Path>, e: Event)
    requires forall p | p in q :: p in s.files
    requires PathSeq(e.reply.expelled) == QueueVictims(cfg, s, q, e)
    ensures (set p | p in QueueVictims(cfg, s, q, e)) == PathsOf(e.reply.expelled)
  {
    PathSeqSet(e.reply.expelled);
  }

  // --------------------------------------------------------------- whole runs

  /** The latest instant at which the clock has been read so far. */
  function Now(tr: Trace): int {
    if tr.Start? then 0 else Max(Nanos(tr.event.created), Nanos(tr.event.used))
  }

  /** `CLOCK_MONOTONIC` strictly advances from one request to the next. */
  predicate Ticks(tr: Trace) {
    tr.Then? ==>
      && Ticks(tr.before)
      && Proper(tr.event.created) && Proper(tr.event.used)
      && (tr.before.Then? ==> Now(tr.before) < Nanos(tr.event.created) && Now(tr.before) < Nanos(tr.event.used))
  }

  /** No stored file carries a stamp from the future. */
  lemma {:induction false} StampsArePast(cfg: Config, tr: Trace, p: Path)
    requires Lawful(cfg, tr) && Ticks(tr) && p in Last(tr).files
    ensures tr.Then? && Stamped(Last(tr).files[p], Now(tr))
  {
    RunKeepsInv(cfg, tr.before);
    StampChanges(cfg, Last(tr.before), tr.event, tr.state, p);
    if p in Last(tr.before).files {
      StampsArePast(cfg, tr.before, p);
    }
  }

  lemma StampChanges(cfg: Config, s: State, e: Event, s': State, p: Path)
    requires Inv(cfg, s) && Next(cfg, s, e, s') && p in s'.files
    ensures if p in s.files
            then s'.files[p].created == s.files[p].created
                 && (s'.files[p].lastUse == s.files[p].lastUse || s'.files[p].lastUse == e.used)
            else s'.files[p].created == e.created && s'.files[p].lastUse == e.used
  {
  }

  /** The queue the timestamps stand for, kept without looking at any timestamp. */
  ghost function QueueOf(cfg: Config, tr: Trace): seq<Path>
    requires Lawful(cfg, tr) && Ticks(tr)
    ensures Orders(cfg.policy, Last(tr).files, QueueOf(cfg, tr))
  {
    if tr.Start? then []
    else
      TickIsAhead(cfg, tr);
      RunKeepsInv(cfg, tr.before);
      StepSimulates(cfg, Last(tr.before), QueueOf(cfg, tr.before), tr.event, tr.state);
      QueueAfter(cfg, Last(tr.before), QueueOf(cfg, tr.before), tr.event)
  }

  lemma TickIsAhead(cfg: Config, tr: Trace)
    requires Lawful(cfg, tr) && Ticks(tr) && tr.Then?
    ensures ClockAhead(Last(tr.before), tr.event)
  {
    var s, e := Last(tr.before), tr.event;
    forall p | p in s.files
      ensures Stamped(s.files[p], Nanos(e.created) - 1) && Stamped(s.files[p], Nanos(e.used) - 1)
    {
      StampsArePast(cfg, tr.before, p);
    }
  }

  /**
    Refinement over whole runs: at every request the files evicted by comparing
    timestamps are exactly, and in order, those the queue pops from its old end.
   */
  lemma TimestampsRefineQueue(cfg: Config, tr: Trace)
    requires Lawful(cfg, tr) && Ticks(tr) && tr.Then?
    ensures PathSeq(tr.event.reply.expelled) ==
            QueueVictims(cfg, Last(tr.before), QueueOf(cfg, tr.before), tr.event)
    ensures QueueOf(cfg, tr) == QueueAfter(cfg, Last(tr.before), QueueOf(cfg, tr.before), tr.event)
  {
    TickIsAhead(cfg, tr);
    RunKeepsInv(cfg, tr.before);
    StepSimulates(cfg, Last(tr.before), QueueOf(cfg, tr.before), tr.event, tr.state);
  }
}
