/**
  The hash map of src/util/hash/hashmap.c. Nothing keeps a key from being
  inserted twice, so what the map stands for is a queue of bindings per key:
  insertion appends, lookup shows the first, removal takes the first away.
 */
module HashMap {
  import opened Basics
  import opened LinkedList
  import opened Chains
  import opened Table

  /** The bindings of `k` in chains `cs`: those in its own bucket. */
  function Shown<K(==), V>(cs: seq<seq<Entry<K, V>>>, hash: (K, int) -> nat, k: K): seq<V> {
    if cs == [] then [] else Bound(cs[hash(k, |cs|) % |cs|], k)
  }

  /** Appending an entry to its bucket appends to its key's bindings. */
  lemma PutShown<K(!new), V(!new)>(cs: seq<seq<Entry<K, V>>>, hash: (K, int) -> nat, e: Entry<K, V>, k: K)
    requires cs != []
    ensures Shown(PutIn(cs, hash(e.key, |cs|) % |cs|, e), hash, k) ==
            if k == e.key then Shown(cs, hash, k) + [e.data] else Shown(cs, hash, k)
  {
    PutBound(cs, hash(e.key, |cs|) % |cs|, e, k, hash(k, |cs|) % |cs|);
  }

  /** `table` is the pointer that an expansion replaces. */
  class HashMap<K(==,!new), V(!new)> {
    const hash: (K, int) -> nat
    var table: Table<Entry<K, V>>

    ghost function Repr(): set<object>
      reads this, table
    {
      {table, table.lists} + table.repr
    }

    ghost predicate Valid()
      reads this, table, table.lists, table.repr
    {
      && table.Valid() && this !in Repr()
      && forall e: Entry<K, V>, n :: table.hash(e, n) == hash(e.key, n)
    }

    /** The bindings of a key, first inserted first. */
    ghost function Of(k: K): seq<V>
      reads this, table
    {
      Shown(table.chains, hash, k)
    }

    constructor (hash: (K, int) -> nat, nlist: nat)
      requires nlist >= 1
      ensures Valid() && fresh(Repr()) && this.hash == hash
      ensures table.nelem == 0 && table.nlist == nlist && forall k :: Of(k) == []
    {
      this.hash := hash;
      table := new Table((e: Entry<K, V>, n: int) => hash(e.key, n), nlist);
    }

    function Home(k: K): nat
      reads this
    {
      if table.nlist == 0 then 0 else hash(k, table.nlist) % table.nlist
    }

    /** In visiting order a key's bindings come as its bucket has them. */
    lemma FlatShows(k: K)
      requires Valid()
      ensures Bound(Flat(table.chains), k) == Of(k)
    {
      BoundAtHome(table.chains, table.HomeOf(), k, Home(k));
    }

    /** No key is bound twice: the map is a plain one. */
    ghost predicate Plain()
      reads this, table
    {
      forall k :: |Of(k)| <= 1
    }

    /** The map binds exactly the keys of `m`, each once and as `m` does. */
    ghost predicate Is(m: map<K, V>)
      reads this, table
    {
      forall k :: Of(k) == if k in m then [m[k]] else []
    }

    /** An iteration over such a map is an iteration over `m`. */
    lemma FlatIs(m: map<K, V>)
      requires Valid() && Is(m)
      ensures Plain()
      ensures forall e | e in Flat(table.chains) :: e.key in m && m[e.key] == e.data
      ensures forall k | k in m :: Entry(k, m[k]) in Flat(table.chains)
    {
      var es := Flat(table.chains);
      forall e | e in es ensures e.key in m && m[e.key] == e.data {
        FlatShows(e.key);
        BoundHas(es, e.key, e.data);
        assert e == Entry(e.key, e.data);
      }
      forall k | k in m ensures Entry(k, m[k]) in es {
        FlatShows(k);
        BoundHas(es, k, m[k]);
      }
    }

    /** An iteration over a plain map meets each key at most once, and `nelem` entries in all. */
    lemma VisitedOnce(i: nat, j: nat)
      requires Valid() && Plain() && i < j < |Flat(table.chains)|
      ensures Flat(table.chains)[i].key != Flat(table.chains)[j].key
      ensures |Flat(table.chains)| == table.nelem
    {
      forall k ensures |Bound(Flat(table.chains), k)| <= 1 {
        FlatShows(k);
      }
      DistinctKeys(Flat(table.chains), i, j);
    }

    /** The same entries over other buckets show the same bindings. */
    lemma SpreadShows(es: seq<Entry<K, V>>, k: K)
      requires Valid()
      ensures Shown(Spread(es, table.nlist, table.HomeOf()), hash, k) == Bound(es, k)
    {
      SpreadBound(es, table.nlist, table.HomeOf(), k, Home(k));
    }

    /** `hashmap_insert`: one more binding for the key, whatever the hash function. */
    method Insert(key: K, data: V)
      requires Valid()
      modifies this`table, Repr()
      ensures Valid() && table.nelem == old(table.nelem) + 1
      ensures if table == old(table) then fresh(table.repr - old(table.repr))
              else fresh(table) && fresh(table.lists) && fresh(table.repr)
      ensures forall k :: Of(k) == if k == key then old(Of(k)) + [data] else old(Of(k))
      ensures var n := old(table.nlist); table.nlist == if old(table.nelem) + 1 > n / 2 then 2 * n else n
      ensures old(table.Loaded()) ==> table.Loaded()
    {
      ghost var was, h := table.chains, hash;
      forall k ensures Bound(Flat(was), k) == Shown(was, h, k) {
        FlatShows(k);
      }
      ghost var room;
      table, room := table.Insert(Entry(key, data));
      forall k ensures Of(k) == if k == key then Shown(was, h, k) + [data] else Shown(was, h, k) {
        SpreadShows(Flat(was), k);
        PutShown(room, h, Entry(key, data), k);
      }
    }

    /** The loop that `hashmap_get_by_key`, `hashmap_contains` and `hashmap_remove` share. */
    method Find(key: K) returns (curr: Node?<Entry<K, V>>, ghost j: nat)
      requires Valid()
      ensures Home(key) < |table.chains| == table.nlist
      ensures var c, l := table.chains[Home(key)], table.lists[Home(key)];
              && (forall i | 0 <= i < j && i < |c| :: c[i].key != key)
              && (if curr == null then j == |c|
                  else j < |c| == |l.nodes| && curr == l.nodes[j] && curr.val == c[j] && c[j].key == key)
    {
      ghost var l := table.lists[Home(key)];
      curr, j := table.lists[Home(key)].head, 0;
      while curr != null
        invariant 0 <= j <= |l.nodes| && curr == if j < |l.nodes| then l.nodes[j] else null
        invariant forall i | 0 <= i < j :: l.vals[i].key != key
        decreases |l.nodes| - j
      {
        if curr.val.key == key {
          return;
        }
        curr := curr.next;
        j := j + 1;
      }
    }

    /** `hashmap_get_by_key`: the first binding, or none (ENOENT). */
    method GetByKey(key: K) returns (data: Option<V>)
      requires Valid()
      ensures data == if Of(key) == [] then None else Some(Of(key)[0])
    {
      ghost var c := table.chains[Home(key)];
      var curr, j := Find(key);
      if curr != null {
        BoundFirst(c, j, key, key);
        return Some(curr.val.data);
      }
      BoundNone(c, key);
      data := None;
    }

    /** `hashmap_contains`. */
    method Contains(key: K) returns (found: bool)
      requires Valid()
      ensures found <==> Of(key) != []
    {
      ghost var c := table.chains[Home(key)];
      var curr, j := Find(key);
      if curr != null {
        BoundFirst(c, j, key, key);
        return true;
      }
      BoundNone(c, key);
      found := false;
    }

    lemma CutShows(cs: seq<seq<Entry<K, V>>>, key: K, j: nat, k: K)
      requires |cs| == table.nlist > 0 && j < |cs[Home(key)]|
      requires table.chains == cs[Home(key) := Without(cs[Home(key)], j)]
      requires cs[Home(key)][j].key == key && forall i | 0 <= i < j :: cs[Home(key)][i].key != key
      ensures Shown(cs, hash, key) == [cs[Home(key)][j].data] + Of(key)
      ensures k != key ==> Of(k) == Shown(cs, hash, k)
    {
      CutBound(cs, Home(key), j, key, key, Home(key));
      if k != key {
        CutBound(cs, Home(key), j, key, k, Home(k));
      }
    }

    /** `hashmap_remove`: 0 and the first binding taken away, or 1 and nothing changed. */
    method Remove(key: K) returns (code: int, data: Option<V>)
      requires Valid()
      modifies Repr()
      ensures Valid() && Repr() == old(Repr())
      ensures if old(Of(key)) == [] then code == 1 && data == None && table.nelem == old(table.nelem)
              else code == 0 && data == Some(old(Of(key))[0]) && table.nelem == old(table.nelem) - 1
      ensures forall k :: Of(k) == if k == key then Tail(old(Of(k))) else old(Of(k))
    {
      ghost var cs := table.chains;
      var curr, j := Find(key);
      if curr == null {
        BoundNone(cs[Home(key)], key);
        return 1, None;
      }
      table.CutAt(Home(key), curr, j);
      forall k ensures Shown(cs, hash, key) == [curr.val.data] + Of(key) && (k != key ==> Of(k) == Shown(cs, hash, k)) {
        CutShows(cs, key, j, k);
      }
      code, data := 0, Some(curr.val.data);
    }
  }
}
