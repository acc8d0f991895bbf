/** The contents of a chained hash container as a value: one sequence per bucket. */
module Chains {

  datatype Entry<K, V> = Entry(key: K, data: V)

  /** All chains one after the other: the order in which an iterator visits. */
  function Flat<T>(cs: seq<seq<T>>): seq<T> {
    if cs == [] then [] else Flat(cs[..|cs|-1]) + cs[|cs|-1]
  }

  /** `n` empty chains. */
  function Empty<T>(n: nat): seq<seq<T>> {
    seq(n, _ => [])
  }

  lemma {:induction false} EmptyFlat<T>(n: nat)
    ensures Flat(Empty<T>(n)) == []
  {
    if n > 0 {
      EmptyFlat<T>(n - 1);
      assert Empty<T>(n)[..n-1] == Empty<T>(n - 1);
    }
  }

  /** What is bound to `k`, first bound first. */
  function Bound<K(==), V>(es: seq<Entry<K, V>>, k: K): seq<V> {
    if es == [] then []
    else
      var e := es[|es|-1];
      Bound(es[..|es|-1], k) + (if e.key == k then [e.data] else [])
  }

  /** All bindings but the first, if there is one. */
  function Tail<V>(vs: seq<V>): seq<V> {
    if vs == [] then [] else vs[1..]
  }

  /** Everything is in the bucket that `home` says. */
  ghost predicate AtHome<T(!new)>(cs: seq<seq<T>>, home: T -> int) {
    forall i, x | 0 <= i < |cs| && x in cs[i] :: home(x) == i
  }

  lemma FlatNext<T>(cs: seq<seq<T>>, i: nat)
    requires i < |cs|
    ensures Flat(cs[..i+1]) == Flat(cs[..i]) + cs[i]
  {
    assert cs[..i+1][..i] == cs[..i];
  }

  /** Changing one chain changes the number of entries by as much as the chain. */
  lemma {:induction false} FlatSize<T>(cs: seq<seq<T>>, h: nat, c: seq<T>)
    requires h < |cs|
    ensures |Flat(cs[h := c])| == |Flat(cs)| - |cs[h]| + |c|
    decreases |cs|
  {
    var n := |cs| - 1;
    if h < n {
      FlatSize(cs[..n], h, c);
      assert cs[h := c][..n] == cs[..n][h := c];
    } else {
      assert cs[h := c][..n] == cs[..n];
    }
  }

  /** ... and the entries themselves by the chain's. */
  lemma {:induction false} FlatContents<T>(cs: seq<seq<T>>, h: nat, c: seq<T>, x: T)
    requires h < |cs|
    ensures multiset(Flat(cs[h := c]))[x] + multiset(cs[h])[x] == multiset(Flat(cs))[x] + multiset(c)[x]
    decreases |cs|
  {
    var n := |cs| - 1;
    if h < n {
      FlatContents(cs[..n], h, c, x);
      assert cs[h := c][..n] == cs[..n][h := c];
    } else {
      assert cs[h := c][..n] == cs[..n];
    }
  }

  lemma {:induction false} BoundAppend<K, V>(a: seq<Entry<K, V>>, b: seq<Entry<K, V>>, k: K)
    ensures Bound(a + b, k) == Bound(a, k) + Bound(b, k)
    decreases |b|
  {
    if b == [] {
      assert a + b == a;
    } else {
      var n := |b| - 1;
      BoundAppend(a, b[..n], k);
      assert (a + b)[..|a + b|-1] == a + b[..n];
    }
  }

  lemma {:induction false} BoundNone<K, V>(es: seq<Entry<K, V>>, k: K)
    requires forall e | e in es :: e.key != k
    ensures Bound(es, k) == []
  {
    if es != [] {
      BoundNone(es[..|es|-1], k);
    }
  }

  lemma BoundSingle<K, V>(e: Entry<K, V>, k: K)
    ensures Bound([e], k) == if e.key == k then [e.data] else []
  {
    assert [e][..0] == [];
  }

  lemma BoundThree<K, V>(a: seq<Entry<K, V>>, e: Entry<K, V>, b: seq<Entry<K, V>>, k: K)
    ensures Bound(a + [e] + b, k) == Bound(a, k) + (if e.key == k then [e.data] else []) + Bound(b, k)
  {
    BoundAppend(a + [e], b, k);
    BoundAppend(a, [e], k);
    BoundSingle(e, k);
  }

  lemma BoundWithout<K, V>(a: seq<Entry<K, V>>, e: Entry<K, V>, b: seq<Entry<K, V>>, k: K)
    requires forall x | x in a :: x.key != e.key
    ensures e.key == k ==> Bound(a + [e] + b, k) == [e.data] + Bound(a + b, k)
    ensures e.key != k ==> Bound(a + [e] + b, k) == Bound(a + b, k)
  {
    BoundThree(a, e, b, k);
    BoundAppend(a, b, k);
    if e.key == k {
      BoundNone(a, k);
      assert [] + Bound(b, k) == Bound(b, k);
    }
  }

  /** The first entry of a key carries its first binding; without it the rest remain. */
  lemma BoundFirst<K, V>(es: seq<Entry<K, V>>, j: nat, k: K, k': K)
    requires j < |es| && es[j].key == k && forall i | 0 <= i < j :: es[i].key != k
    ensures Bound(es, k) != [] && es[j].data == Bound(es, k)[0]
    ensures Bound(es[..j] + es[j+1..], k') == if k' == k then Bound(es, k)[1..] else Bound(es, k')
  {
    assert es == es[..j] + [es[j]] + es[j+1..];
    BoundWithout(es[..j], es[j], es[j+1..], k);
    BoundWithout(es[..j], es[j], es[j+1..], k');
  }

  /** A key is bound in its own bucket only. */
  lemma {:induction false} BoundAtHome<K(!new), V(!new)>(
    cs: seq<seq<Entry<K, V>>>, home: Entry<K, V> -> int, k: K, h: nat)
    requires AtHome(cs, home) && forall e: Entry<K, V> | e.key == k :: home(e) == h
    ensures Bound(Flat(cs), k) == if h < |cs| then Bound(cs[h], k) else []
    decreases |cs|
  {
    if cs != [] {
      var n := |cs| - 1;
      BoundAtHome(cs[..n], home, k, h);
      BoundAppend(Flat(cs[..n]), cs[n], k);
      if h != n {
        BoundNone(cs[n], k);
      }
    }
  }

  /** Where the `j`-th entry of the `i`-th chain comes in the visiting order. */
  lemma {:induction false} FlatAt<T>(cs: seq<seq<T>>, i: nat, j: nat)
    requires i < |cs| && j < |cs[i]|
    ensures |Flat(cs[..i])| + j < |Flat(cs)| && Flat(cs)[|Flat(cs[..i])| + j] == cs[i][j]
    decreases |cs|
  {
    var n := |cs| - 1;
    if i < n {
      FlatAt(cs[..n], i, j);
      assert cs[..n][..i] == cs[..i];
    }
  }

  /** Append `x` to chain `h`. */
  function PutIn<T>(cs: seq<seq<T>>, h: int, x: T): (cs': seq<seq<T>>)
    ensures |cs'| == |cs|
  {
    if 0 <= h < |cs| then cs[h := cs[h] + [x]] else cs
  }

  lemma PutAtHome<T(!new)>(cs: seq<seq<T>>, home: T -> int, x: T)
    requires AtHome(cs, home) && 0 <= home(x) < |cs|
    ensures AtHome(PutIn(cs, home(x), x), home)
    ensures |Flat(PutIn(cs, home(x), x))| == |Flat(cs)| + 1
  {
    FlatSize(cs, home(x), cs[home(x)] + [x]);
  }

  lemma PutBound<K(!new), V(!new)>(cs: seq<seq<Entry<K, V>>>, h: nat, e: Entry<K, V>, k: K, home: nat)
    requires h < |cs| && home < |cs| && (k == e.key ==> home == h)
    ensures Bound(PutIn(cs, h, e)[home], k) == if k == e.key then Bound(cs[home], k) + [e.data] else Bound(cs[home], k)
  {
    BoundAppend(cs[h], [e], k);
    BoundSingle(e, k);
  }

  /** The entries of `es` put one by one into `n` empty chains. */
  function Spread<T>(es: seq<T>, n: nat, home: T -> int): (cs: seq<seq<T>>)
    ensures |cs| == n
  {
    if es == [] then Empty(n)
    else PutIn(Spread(es[..|es|-1], n, home), home(es[|es|-1]), es[|es|-1])
  }

  lemma SpreadOneMore<T>(es: seq<T>, n: nat, home: T -> int, x: T)
    ensures Spread(es + [x], n, home) == PutIn(Spread(es, n, home), home(x), x)
  {
    assert (es + [x])[..|es|] == es;
  }

  /** `done` is `es` and the first `j` of `vals`. */
  predicate Drawn<T(==)>(es: seq<T>, vals: seq<T>, j: int, done: seq<T>) {
    0 <= j <= |vals| && done == es + vals[..j]
  }

  lemma DrawOneMore<T>(es: seq<T>, vals: seq<T>, j: nat, done: seq<T>)
    requires j < |vals| && Drawn(es, vals, j, done)
    ensures Drawn(es, vals, j + 1, done + [vals[j]])
  {
  }

  lemma DrawnAll<T>(es: seq<T>, vals: seq<T>, done: seq<T>)
    requires Drawn(es, vals, |vals|, done)
    ensures done == es + vals
  {
    assert vals[..|vals|] == vals;
  }

  lemma {:induction false} SpreadSize<T>(es: seq<T>, n: nat, home: T -> int)
    requires forall x | x in es :: 0 <= home(x) < n
    ensures |Flat(Spread(es, n, home))| == |es|
  {
    if es == [] {
      EmptyFlat<T>(n);
    } else {
      var m, cs := |es| - 1, Spread(es[..|es|-1], n, home);
      SpreadSize(es[..m], n, home);
      FlatSize(cs, home(es[m]), cs[home(es[m])] + [es[m]]);
    }
  }

  /** Spreading keeps every key's bindings in order. */
  lemma {:induction false} SpreadBound<K(!new), V(!new)>(
    es: seq<Entry<K, V>>, n: nat, home: Entry<K, V> -> int, k: K, h: nat)
    requires h < n && forall e: Entry<K, V> :: 0 <= home(e) < n && (e.key == k ==> home(e) == h)
    ensures Bound(Spread(es, n, home)[h], k) == Bound(es, k)
  {
    if es != [] {
      var m := |es| - 1;
      SpreadBound(es[..m], n, home, k, h);
      PutBound(Spread(es[..m], n, home), home(es[m]), es[m], k, h);
    }
  }

  function Without<T>(c: seq<T>, j: nat): seq<T>
    requires j < |c|
  {
    c[..j] + c[j+1..]
  }

  /** Taking an entry out of its bucket. */
  lemma CutAtHome<T(!new)>(cs: seq<seq<T>>, home: T -> int, h: nat, j: nat)
    requires AtHome(cs, home) && h < |cs| && j < |cs[h]|
    ensures AtHome(cs[h := Without(cs[h], j)], home)
    ensures |Flat(cs[h := Without(cs[h], j)])| == |Flat(cs)| - 1
  {
    FlatSize(cs, h, Without(cs[h], j));
  }

  lemma CutBound<K(!new), V(!new)>(cs: seq<seq<Entry<K, V>>>, h: nat, j: nat, k: K, k': K, home: nat)
    requires h < |cs| && home < |cs| && (k' == k ==> home == h)
    requires j < |cs[h]| && cs[h][j].key == k && forall i | 0 <= i < j :: cs[h][i].key != k
    ensures Bound(cs[h], k) != [] && cs[h][j].data == Bound(cs[h], k)[0]
    ensures Bound(cs[h := Without(cs[h], j)][home], k') ==
            if k' == k then Bound(cs[home], k)[1..] else Bound(cs[home], k')
  {
    BoundFirst(cs[h], j, k, k');
  }

  // ------------------------------------------------------------------ contents

  lemma {:induction false} InFlat<T>(cs: seq<seq<T>>, x: T)
    ensures x in Flat(cs) <==> exists i :: 0 <= i < |cs| && x in cs[i]
    decreases |cs|
  {
    if cs != [] {
      var n := |cs| - 1;
      InFlat(cs[..n], x);
      if x in Flat(cs[..n]) {
        var i :| 0 <= i < n && x in cs[..n][i];
        assert x in cs[i];
      }
      if i :| 0 <= i < |cs| && x in cs[i] {
        assert i < n ==> x in cs[..n][i];
      }
    }
  }

  /** An item is somewhere just when it is in its own bucket. */
  lemma FoundAtHome<T(!new)>(cs: seq<seq<T>>, home: T -> int, x: T)
    requires AtHome(cs, home) && 0 <= home(x) < |cs|
    ensures x in multiset(Flat(cs)) <==> x in cs[home(x)]
  {
    InFlat(cs, x);
  }

  lemma PutCount<T>(cs: seq<seq<T>>, h: nat, x: T, y: T)
    requires h < |cs|
    ensures multiset(Flat(PutIn(cs, h, x)))[y] == multiset(Flat(cs))[y] + (if y == x then 1 else 0)
  {
    FlatContents(cs, h, cs[h] + [x], y);
  }

  lemma OneMore<T(!new)>(a: multiset<T>, b: multiset<T>, x: T)
    requires forall y :: a[y] == b[y] + (if y == x then 1 else 0)
    ensures a == b + multiset{x}
  {
  }

  lemma PutContents<T(!new)>(cs: seq<seq<T>>, h: nat, x: T)
    requires h < |cs|
    ensures multiset(Flat(PutIn(cs, h, x))) == multiset(Flat(cs)) + multiset{x}
  {
    var a, b := multiset(Flat(PutIn(cs, h, x))), multiset(Flat(cs));
    forall y ensures a[y] == b[y] + (if y == x then 1 else 0) {
      PutCount(cs, h, x, y);
    }
    OneMore(a, b, x);
  }

  lemma WithoutCount<T>(c: seq<T>, j: nat, y: T)
    requires j < |c|
    ensures multiset(c)[y] == multiset(Without(c, j))[y] + (if y == c[j] then 1 else 0)
  {
    assert c == c[..j] + [c[j]] + c[j+1..];
  }

  lemma CutCount<T>(cs: seq<seq<T>>, h: nat, j: nat, y: T)
    requires h < |cs| && j < |cs[h]|
    ensures multiset(Flat(cs[h := Without(cs[h], j)]))[y] + (if y == cs[h][j] then 1 else 0) == multiset(Flat(cs))[y]
  {
    FlatContents(cs, h, Without(cs[h], j), y);
    WithoutCount(cs[h], j, y);
  }

  lemma CutContents<T(!new)>(cs: seq<seq<T>>, h: nat, j: nat)
    requires h < |cs| && j < |cs[h]|
    ensures multiset(Flat(cs)) == multiset(Flat(cs[h := Without(cs[h], j)])) + multiset{cs[h][j]}
  {
    var a, b := multiset(Flat(cs)), multiset(Flat(cs[h := Without(cs[h], j)]));
    forall y ensures a[y] == b[y] + (if y == cs[h][j] then 1 else 0) {
      CutCount(cs, h, j, y);
    }
    OneMore(a, b, cs[h][j]);
  }

  lemma {:induction false} SpreadContents<T(!new)>(es: seq<T>, n: nat, home: T -> int)
    requires forall x | x in es :: 0 <= home(x) < n
    ensures multiset(Flat(Spread(es, n, home))) == multiset(es)
  {
    if es == [] {
      EmptyFlat<T>(n);
    } else {
      var m := |es| - 1;
      SpreadContents(es[..m], n, home);
      PutContents(Spread(es[..m], n, home), home(es[m]), es[m]);
      assert es == es[..m] + [es[m]];
    }
  }

  /** When no key is bound twice, no key comes twice in the visiting order. */
  lemma DistinctKeys<K(!new), V(!new)>(es: seq<Entry<K, V>>, i: nat, j: nat)
    requires i < j < |es| && forall k :: |Bound(es, k)| <= 1
    ensures es[i].key != es[j].key
  {
    if es[i].key == es[j].key {
      var k := es[i].key;
      assert es == es[..i] + [es[i]] + es[i+1..];
      assert es[i+1..] == es[i+1..j] + [es[j]] + es[j+1..];
      BoundThree(es[..i], es[i], es[i+1..], k);
      BoundThree(es[i+1..j], es[j], es[j+1..], k);
    }
  }

  /** An entry's data is among the bindings of its key, and bindings come from entries. */
  lemma {:induction false} BoundHas<K(!new), V(!new)>(es: seq<Entry<K, V>>, k: K, v: V)
    ensures v in Bound(es, k) <==> Entry(k, v) in es
  {
    if es != [] {
      var n := |es| - 1;
      BoundHas(es[..n], k, v);
      assert es == es[..n] + [es[n]];
    }
  }
}
