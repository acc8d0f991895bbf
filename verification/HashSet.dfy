/**
  The hash set of file descriptors of src/util/hash/hashtable.c with its default
  hash. An item inserted twice is there twice, so the set stands for a multiset;
  every caller either looks before it inserts or inserts what cannot be there.
 */
module HashSet {
  import opened LinkedList
  import opened Chains
  import opened Table

  const TWO_63 := 0x8000_0000_0000_0000
  const TWO_64 := 0x1_0000_0000_0000_0000

  /** C's `a % b` on `long`: the remainder has the sign of `a`. */
  function Rem(a: int, b: int): int
    requires b > 0
  {
    if a >= 0 then a % b else -((-a) % b)
  }

  /** Conversions between `long` and `unsigned long`. */
  function Unsigned(x: int): int {
    if x < 0 then x + TWO_64 else x
  }

  function Signed(x: int): int {
    if x >= TWO_63 then x - TWO_64 else x
  }

  /** `default_hashtbl_hash`, whose result is an `unsigned long`. */
  function DefaultHash(val: int, nlist: int): (h: nat)
  {
    if 0 < nlist < TWO_63 then Unsigned(Rem(val, nlist)) else 0
  }

  /** The bucket that insertion and lookup use: the hash taken modulo once more. */
  function Home(val: int, nlist: int): int
    requires nlist > 0
  {
    DefaultHash(val, nlist) % nlist
  }

  /** The bucket that removal uses: the hash as it is. */
  function RemovalBucket(val: int, nlist: int): int {
    Signed(DefaultHash(val, nlist))
  }

  /**
    Removal looks inside the array exactly for items with a non-negative
    remainder, and then it looks where insertion put them.
   */
  lemma RemovalLooksHome(val: int, nlist: int)
    requires 0 < nlist < TWO_63
    ensures 0 <= RemovalBucket(val, nlist) < nlist <==> val >= 0 || Rem(val, nlist) == 0
    ensures 0 <= RemovalBucket(val, nlist) < nlist ==> RemovalBucket(val, nlist) == Home(val, nlist)
  {
    RemBounds(val, nlist);
    SignedAgain(Rem(val, nlist));
    if Rem(val, nlist) >= 0 {
      SmallRemainder(Rem(val, nlist), nlist);
    }
  }

  lemma RemBounds(val: int, nlist: int)
    requires nlist > 0
    ensures -nlist < Rem(val, nlist) < nlist && (val >= 0 ==> Rem(val, nlist) >= 0)
            && (val <= 0 ==> Rem(val, nlist) <= 0)
  {
  }

  lemma SignedAgain(x: int)
    requires -TWO_63 <= x < TWO_63
    ensures Signed(Unsigned(x)) == x
  {
  }

  lemma SmallRemainder(x: nat, n: nat)
    requires x < n
    ensures x % n == x
  {
  }

  class HashSet {
    var table: Table<int>

    ghost function Repr(): set<object>
      reads this, table
    {
      {table, table.lists} + table.repr
    }

    ghost predicate Valid()
      reads this, table, table.lists, table.repr
    {
      && table.Valid() && this !in Repr()
      && forall x, n :: table.hash(x, n) == DefaultHash(x, n)
    }

    /** What is in the set, and how often. */
    ghost function Items(): multiset<int>
      reads this, table
    {
      multiset(Flat(table.chains))
    }

    constructor (nlist: nat)
      requires nlist >= 1
      ensures Valid() && fresh(Repr()) && Items() == multiset{} && table.nlist == nlist
    {
      table := new Table(DefaultHash, nlist);
      new;
      EmptyFlat<int>(nlist);
    }

    lemma InsertedItems(was: seq<seq<int>>, room: seq<seq<int>>, item: int)
      requires table.Valid() && |room| == table.nlist
      requires room == was || room == Spread(Flat(was), table.nlist, table.HomeOf())
      requires table.chains == PutIn(room, table.Home(item), item)
      ensures Items() == multiset(Flat(was)) + multiset{item} && table.nelem == |Items()|
    {
      SpreadContents(Flat(was), table.nlist, table.HomeOf());
      PutContents(room, table.Home(item), item);
    }

    /** `hashtbl_insert`. */
    method Insert(item: int)
      requires Valid()
      modifies this, Repr()
      ensures Valid() && Items() == old(Items()) + multiset{item} && table.nelem == |Items()|
      ensures if table == old(table) then fresh(table.repr - old(table.repr))
              else fresh(table) && fresh(table.lists) && fresh(table.repr)
      ensures var n := old(table.nlist); table.nlist == if old(table.nelem) + 1 > n / 2 then 2 * n else n
      ensures old(table.Loaded()) ==> table.Loaded()
    {
      ghost var was, room := table.chains, [];
      table, room := table.Insert(item);
      InsertedItems(was, room, item);
      assert this !in table.repr;
    }

    /** The loop that `hashtbl_contains` and `hashtbl_remove` share. */
    method Find(item: int, h: nat) returns (curr: Node?<int>, ghost j: nat)
      requires Valid() && h < table.nlist
      ensures |table.chains| == table.nlist
      ensures var c, l := table.chains[h], table.lists[h];
              if curr == null then item !in c else j < |c| == |l.nodes| && curr == l.nodes[j] && c[j] == item
    {
      ghost var l := table.lists[h];
      curr, j := table.lists[h].head, 0;
      while curr != null
        invariant 0 <= j <= |l.nodes| && curr == if j < |l.nodes| then l.nodes[j] else null
        invariant forall i | 0 <= i < j :: l.vals[i] != item
        decreases |l.nodes| - j
      {
        if curr.val == item {
          return;
        }
        curr := curr.next;
        j := j + 1;
      }
    }

    /** `hashtbl_contains`. */
    method Contains(item: int) returns (found: bool)
      requires Valid()
      ensures found <==> item in Items()
    {
      var curr, j := Find(item, Home(item, table.nlist));
      found := curr != null;
      FoundAtHome(table.chains, table.HomeOf(), item);
    }

    /**
      `hashtbl_remove`: 0 and one occurrence less, or 1 and nothing changed. Its
      bucket must be one: for a negative item it need not be (see `RemovalLooksHome`).
     */
    method Remove(item: int) returns (code: int)
      requires Valid() && table.nlist < TWO_63
      requires item >= 0 || Rem(item, table.nlist) == 0
      modifies Repr()
      ensures Valid() && Repr() == old(Repr())
      ensures code == if item in old(Items()) then 0 else 1
      ensures Items() == old(Items()) - multiset{item}
      ensures table.nelem == |Items()|
    {
      RemovalLooksHome(item, table.nlist);
      ghost var cs := table.chains;
      FoundAtHome(cs, table.HomeOf(), item);
      var h := RemovalBucket(item, table.nlist);
      var curr, j := Find(item, h);
      if curr == null {
        return 1;
      }
      table.CutAt(h, curr, j);
      CutContents(cs, h, j);
      code := 0;
    }
  }
}
