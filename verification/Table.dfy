/**
  What `hashmap_t` and `hashtbl_t` have in common: an array of chained buckets
  that doubles when it gets more than half full, over any hash function.
 */
module Table {
  import opened LinkedList
  import opened Chains
  import opened Buckets

  class Table<T(!new)> {
    const hash: (T, int) -> nat
    const nlist: nat
    const lists: array<List?<T>>
    var nelem: int
    ghost var chains: seq<seq<T>>
    ghost var repr: set<object>

    /** The bucket of an item. */
    function Home(x: T): nat {
      if nlist == 0 then 0 else hash(x, nlist) % nlist
    }

    function HomeOf(): T -> int {
      (x: T) => Home(x)
    }

    ghost predicate Valid()
      reads this, lists, repr
    {
      (nlist >= 1 && lists.Length == nlist && this !in repr
       && BucketsOk(lists, chains, repr)
       && AtHome(chains, HomeOf())
       && nelem == |Flat(chains)|) == true
    }

    /** The load that insertion keeps. */
    ghost predicate Loaded()
      reads this
    {
      nelem <= nlist / 2
    }

    /** `hashmap_init` and `hashtbl_init`. */
    constructor (hash: (T, int) -> nat, nlist: nat)
      requires nlist >= 1
      ensures Valid() && fresh(repr) && fresh(lists) && this.hash == hash && this.nlist == nlist
      ensures nelem == 0 && chains == Empty(nlist)
    {
      this.hash, this.nlist, nelem := hash, nlist, 0;
      ghost var r;
      var l: array<List?<T>>;
      l, r := NewBuckets(nlist);
      lists := l;
      chains, repr := Empty(nlist), r;
      new;
      EmptyFlat<T>(nlist);
    }

    /** `_hashmap_insert`, `_hashtbl_insert`: append to the chain of the item's bucket. */
    method Put(x: T)
      requires Valid()
      modifies this, repr
      ensures Valid() && fresh(repr - old(repr))
      ensures nelem == old(nelem) + 1 && chains == PutIn(old(chains), Home(x), x)
    {
      var h := Home(x);
      ghost var cs := chains;
      ghost var r := Append(lists, h, x, cs, repr);
      assert this !in r;
      nelem := nelem + 1;
      chains, repr := PutIn(cs, h, x), r;
      assert BucketsOk(lists, chains, repr);
      PutAtHome(cs, HomeOf(), x);
    }

    /** One more item on top of those already put. */
    method PutNext(x: T, ghost done: seq<T>)
      requires Valid() && chains == Spread(done, nlist, HomeOf())
      modifies this, repr
      ensures Valid() && fresh(repr - old(repr))
      ensures chains == Spread(done + [x], nlist, HomeOf())
    {
      SpreadOneMore(done, nlist, HomeOf(), x);
      Put(x);
    }

    /** The inner loop of the expansion: put every item of one chain of the old table. */
    method PutAll(l: List<T>, ghost es: seq<T>)
      requires Valid() && l.Linked() && l.foot !! repr && this !in l.foot && lists !in l.foot
      requires chains == Spread(es, nlist, HomeOf())
      modifies this, repr
      ensures Valid() && fresh(repr - old(repr))
      ensures chains == Spread(es + old(l.vals), nlist, HomeOf())
    {
      var curr := l.head;
      ghost var j, nodes, vals, done, home := 0, l.nodes, l.vals, es, HomeOf();
      while curr != null
        invariant Valid() && fresh(repr - old(repr)) && l.foot !! repr
        invariant l.Linked() && l.nodes == nodes && l.vals == vals
        invariant 0 <= j <= |vals| && curr == if j < |vals| then nodes[j] else null
        invariant Drawn(es, vals, j, done) && chains == Spread(done, nlist, home)
        decreases |vals| - j
      {
        PutNext(curr.val, done);
        DrawOneMore(es, vals, j, done);
        curr, done := curr.next, done + [curr.val];
        j := j + 1;
      }
      DrawnAll(es, vals, done);
    }

    /** The outer loop: put every chain of the old table. */
    method PutBuckets(from: array<List?<T>>, ghost cs: seq<seq<T>>, ghost r: set<object>)
      requires Valid() && chains == Empty(nlist)
      requires BucketsOk(from, cs, r) && r !! repr && this !in r && lists !in r && from !in repr
      modifies this, repr
      ensures Valid() && fresh(repr - old(repr))
      ensures chains == Spread(Flat(cs), nlist, HomeOf())
    {
      ghost var home := HomeOf();
      for i := 0 to from.Length
        invariant Valid() && fresh(repr - old(repr)) && BucketsOk(from, cs, r)
        invariant chains == Spread(Flat(cs[..i]), nlist, home)
      {
        PutAll(from[i], Flat(cs[..i]));
        FlatNext(cs, i);
      }
      assert cs[..from.Length] == cs;
    }

    /** `hashmap_expand`, `hashtbl_expand`: the same items over twice as many buckets. */
    method Expand() returns (m: Table<T>)
      requires Valid()
      ensures m.Valid() && fresh(m) && fresh(m.repr) && fresh(m.lists)
      ensures m.hash == hash && m.nlist == 2 * nlist && m.nelem == nelem
      ensures m.chains == Spread(Flat(chains), m.nlist, m.HomeOf())
    {
      m := new Table(hash, nlist * 2);
      m.PutBuckets(lists, chains, repr);
      SpreadSize(Flat(chains), m.nlist, m.HomeOf());
    }

    /** The test before an insertion: a table with room for one more item. */
    method WithRoom() returns (m: Table<T>)
      requires Valid()
      ensures m == this || (fresh(m) && fresh(m.lists) && fresh(m.repr))
      ensures m.Valid() && m.hash == hash && m.nelem == nelem
      ensures m == this || m.chains == Spread(Flat(chains), m.nlist, m.HomeOf())
      ensures m.nlist == if nelem + 1 > nlist / 2 then 2 * nlist else nlist
      ensures Loaded() ==> nelem + 1 <= m.nlist / 2
    {
      m := this;
      if nelem + 1 > nlist / 2 {
        m := Expand();
      }
    }

    /** `hashmap_insert`, `hashtbl_insert`: `m` is the table to go on with. */
    method Insert(x: T) returns (m: Table<T>, ghost room: seq<seq<T>>)
      requires Valid()
      modifies this, repr
      ensures if m == this then fresh(repr - old(repr)) && room == old(chains)
              else fresh(m) && fresh(m.lists) && fresh(m.repr) && room == Spread(Flat(old(chains)), m.nlist, m.HomeOf())
      ensures m.Valid() && m.hash == hash && m.nelem == old(nelem) + 1
      ensures m.nlist == if old(nelem) + 1 > nlist / 2 then 2 * nlist else nlist
      ensures |room| == m.nlist && m.chains == PutIn(room, m.Home(x), x)
      ensures old(Loaded()) ==> m.Loaded()
    {
      m := WithRoom();
      room := m.chains;
      m.Put(x);
    }

    /** The unlinking of `hashmap_remove` and `hashtbl_remove`. */
    method CutAt(h: nat, curr: Node<T>, ghost j: nat)
      requires Valid() && h < nlist && j < |lists[h].nodes| && curr == lists[h].nodes[j]
      modifies this, repr
      ensures Valid() && repr == old(repr) && nelem == old(nelem) - 1
      ensures j < |old(chains)[h]| && chains == old(chains)[h := Without(old(chains)[h], j)]
    {
      ghost var cs := chains;
      Cut(lists, h, curr, j, cs, repr);
      nelem := nelem - 1;
      chains := cs[h := Without(cs[h], j)];
      assert BucketsOk(lists, chains, repr);
      CutAtHome(cs, HomeOf(), h, j);
    }
  }
}
