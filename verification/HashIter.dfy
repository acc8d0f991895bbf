/**
  The iterator of src/util/hash.c, and the loops built on it. A fresh iterator
  visits every item of an unmodified table exactly once, bucket by bucket, and
  then reports the end, once.
 */
module HashIter {
  import opened Basics
  import opened LinkedList
  import opened Chains
  import opened Table

  /** With `at` items visited the iterator points at the last of them, the `j`-th of bucket `list`. */
  ghost predicate Place<T(!new)>(table: Table<T>, pos: Node?<T>, list: int, at: nat, j: nat)
    reads table, table.lists, table.repr
  {
    table.Valid()
    && (if pos == null then at == 0 && list == -1
        else
          && 0 <= list < table.nlist && j < |table.lists[list].nodes| && pos == table.lists[list].nodes[j]
          && at == |Flat(table.chains[..list])| + j + 1)
  }

  /** The loop of the two `get_next` functions: on to the next bucket that has a node. */
  method NextBucket<T(!new)>(table: Table<T>, from: int) returns (p: Node?<T>, l: int)
    requires table.Valid() && -1 <= from < table.nlist
    ensures from <= l < table.nlist
    ensures if p == null then |Flat(table.chains[..from+1])| == |Flat(table.chains)|
            else from < l && |Flat(table.chains[..from+1])| == |Flat(table.chains[..l])|
                 && |table.lists[l].nodes| == |table.chains[l]| > 0 && p == table.lists[l].nodes[0]
  {
    ghost var cs := table.chains;
    p, l := null, from;
    while l + 1 < table.nlist && p == null
      invariant from <= l < table.nlist
      invariant if p == null then |Flat(cs[..l+1])| == |Flat(cs[..from+1])|
                else from < l && |Flat(cs[..l])| == |Flat(cs[..from+1])|
                     && |table.lists[l].nodes| == |cs[l]| > 0 && p == table.lists[l].nodes[0]
      decreases table.nlist - l
    {
      l := l + 1;
      p := table.lists[l].head;
      FlatNext(cs, l);
    }
    if p == null {
      assert cs[..l+1] == cs;
    }
  }

  /** The node after one that has a successor in its own bucket. */
  lemma WithinBucket<T(!new)>(table: Table<T>, pos: Node<T>, list: int, at: nat, j: nat)
    requires Place(table, pos, list, at, j)
    ensures pos.next != null ==>
              && Place(table, pos.next, list, at + 1, j + 1)
              && at < |Flat(table.chains)| && pos.next.val == Flat(table.chains)[at]
    ensures pos.next == null ==> |Flat(table.chains[..list+1])| == at
  {
    FlatNext(table.chains, list);
    assert j + 1 < |table.lists[list].nodes| ==> pos.next == table.lists[list].nodes[j+1];
    if pos.next != null {
      FlatAt(table.chains, list, j + 1);
    }
  }

  lemma EntersBucket<T(!new)>(table: Table<T>, pos: Node<T>, list: int, at: nat)
    requires table.Valid() && 0 <= list < table.nlist && at == |Flat(table.chains[..list])|
    requires |table.lists[list].nodes| == |table.chains[list]| > 0 && pos == table.lists[list].nodes[0]
    ensures Place(table, pos, list, at + 1, 0) && at < |Flat(table.chains)| && pos.val == Flat(table.chains)[at]
  {
    FlatAt(table.chains, list, 0);
  }

  /** Where the two `get_next` functions go from a place. */
  method Successor<T(!new)>(table: Table<T>, pos: Node?<T>, list: int, ghost at: nat, ghost j: nat)
      returns (code: int, p: Node?<T>, l: int, ghost k: nat)
    requires Place(table, pos, list, at, j)
    ensures code == if at < |Flat(table.chains)| then 0 else 1
    ensures code == 0 ==> Place(table, p, l, at + 1, k) && p != null && p.val == Flat(table.chains)[at]
    ensures code == 1 ==> p == null && l == -2
  {
    if pos != null {
      WithinBucket(table, pos, list, at, j);
      if pos.next != null {
        return 0, pos.next, list, j + 1;
      }
    }
    p, l := NextBucket(table, list);
    if p != null {
      EntersBucket(table, p, l, at);
      return 0, p, l, 0;
    }
    return 1, null, -2, 0;
  }

  class Iter<T(!new)> {
    var pos: Node?<T>
    var list: int
    ghost var at: nat
    ghost var j: nat

    /** `hash_iter_init`. */
    constructor ()
      ensures pos == null && list == -1 && at == 0
    {
      pos, list, at, j := null, -1, 0, 0;
    }

    /** After reporting the end the iterator must not be advanced: it would look at bucket -1. */
    predicate Ended()
      reads this
    {
      pos == null && list == -2
    }

    ghost predicate On(table: Table<T>)
      reads this, table, table.lists, table.repr
    {
      (this !in table.repr && Place(table, pos, list, at, j)) == true
    }

    /** Point the iterator at a place. */
    method Move(table: Table<T>, p: Node?<T>, l: int, ghost a: nat, ghost k: nat)
      requires table.Valid() && this !in table.repr
      modifies this
      ensures pos == p && list == l && at == a && j == k && table.Valid()
      ensures old(Place(table, p, l, a, k)) ==> On(table)
    {
      pos, list, at, j := p, l, a, k;
    }

    /** `hashmap_iter_get_next`, `hashtbl_iter_get_next`: 0 and the next item, or 1 at the end. */
    method Next(table: Table<T>) returns (code: int)
      requires On(table)
      modifies this
      ensures table.Valid() && code == if old(at) < |Flat(table.chains)| then 0 else 1
      ensures code == 0 ==> On(table) && at == old(at) + 1 && pos != null && pos.val == Flat(table.chains)[old(at)]
      ensures code == 1 ==> Ended()
    {
      var p, l;
      ghost var k;
      code, p, l, k := Successor(table, pos, list, at, j);
      Move(table, p, l, if code == 0 then at + 1 else at, k);
    }
  }

  /** `met` are the first items of `all`. */
  predicate Prefix<T(==)>(met: seq<T>, all: seq<T>) {
    (|met| <= |all| && met == all[..|met|]) == true
  }

  lemma OneMoreMet<T>(met: seq<T>, all: seq<T>)
    requires Prefix(met, all) && |met| < |all|
    ensures Prefix(met + [all[|met|]], all)
  {
    assert all[..|met|+1] == all[..|met|] + [all[|met|]];
  }

  lemma AllMet<T>(met: seq<T>, all: seq<T>)
    requires Prefix(met, all)
    ensures |met| <= |all| && met == all[..|met|] && multiset(met) <= multiset(all)
    ensures |met| == |all| ==> met == all
  {
    assert all == all[..|met|] + all[|met|..];
  }

  /** The next item, if there is one, joins those met before. */
  method Draw<T(!new)>(iter: Iter<T>, table: Table<T>, met: seq<T>, ghost all: seq<T>)
      returns (code: int, out: seq<T>)
    requires iter.On(table) && iter.at == |met| && all == Flat(table.chains) && Prefix(met, all)
    modifies iter
    ensures table.Valid() && Prefix(out, all)
    ensures code == if |met| < |all| then 0 else 1
    ensures code == 0 ==> iter.On(table) && iter.at == |out| == |met| + 1
    ensures code == 1 ==> |out| == |met| == |all|
  {
    AllMet(met, all);
    out := met;
    code := iter.Next(table);
    if code == 0 {
      OneMoreMet(met, all);
      out := met + [iter.pos.val];
    }
  }

  /** The collecting loop of `read_n_files`: the first `n` items of the iteration, each once. */
  method Collect<T(!new)>(table: Table<T>, n: int) returns (out: seq<T>)
    requires table.Valid()
    ensures out == Flat(table.chains)[..HowMany(n, |Flat(table.chains)|)]
    ensures multiset(out) <= multiset(Flat(table.chains))
  {
    ghost var all := Flat(table.chains);
    var left := if n <= 0 then table.nelem else n;
    ghost var start := left;
    var iter := new Iter<T>();
    out := [];
    var code := 0;
    while left > 0 && code == 0
      invariant fresh(iter) && table.Valid() && Prefix(out, all)
      invariant 0 <= left && left + |out| == start
      invariant if code == 0 then iter.On(table) && iter.at == |out| else |out| == |all|
      decreases left, code == 0
    {
      code, out := Draw(iter, table, out, all);
      if code == 0 {
        left := left - 1;
      }
    }
    AllMet(out, all);
  }

  /** The full sweeps of `close_client` and `expell_single_file`: every item once. */
  method VisitAll<T(!new)>(table: Table<T>) returns (out: seq<T>)
    requires table.Valid()
    ensures out == Flat(table.chains)
  {
    ghost var all := Flat(table.chains);
    var iter := new Iter<T>();
    out := [];
    var code := 0;
    while code == 0
      invariant fresh(iter) && table.Valid() && Prefix(out, all)
      invariant if code == 0 then iter.On(table) && iter.at == |out| <= |all| else |out| == |all|
      decreases |all| - |out|, code == 0
    {
      code, out := Draw(iter, table, out, all);
    }
    AllMet(out, all);
  }
}
