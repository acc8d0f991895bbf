/** The bucket array that hash maps and hash sets share: one linked list per position. */
module Buckets {
  import opened LinkedList
  import opened Chains

  /** Every bucket is a well linked list with nodes of its own, holding the bucket's chain. */
  ghost predicate BucketsOk<T>(lists: array<List?<T>>, chains: seq<seq<T>>, repr: set<object>)
    reads lists, repr
  {
    && lists.Length == |chains|
    && (forall i | 0 <= i < lists.Length ::
          lists[i] != null && lists[i] in repr && lists[i].foot <= repr
          && lists[i].Linked() && lists[i].vals == chains[i])
    && (forall i, j | 0 <= i < j < lists.Length :: lists[i].foot !! lists[j].foot)
    && lists !in repr
  }

  /** The allocation loop of `hashmap_init` and `hashtbl_init`. */
  method NewBuckets<T>(n: nat) returns (lists: array<List?<T>>, ghost repr: set<object>)
    ensures fresh(lists) && fresh(repr) && BucketsOk(lists, Empty(n), repr)
  {
    lists := new List?<T>[n](_ => null);
    repr := {};
    for i := 0 to n
      invariant fresh(repr) && lists !in repr
      invariant forall k | 0 <= k < i ::
                  lists[k] != null && lists[k] in repr && lists[k].foot <= repr
                  && lists[k].Linked() && lists[k].vals == []
      invariant forall k, l | 0 <= k < l < i :: lists[k].foot !! lists[l].foot
    {
      var l := new List<T>();
      lists[i] := l;
      repr := repr + {l};
    }
  }

  /** `list_push_back` on bucket `h`. */
  method Append<T>(lists: array<List?<T>>, h: nat, val: T, ghost chains: seq<seq<T>>, ghost repr: set<object>)
      returns (ghost repr': set<object>)
    requires BucketsOk(lists, chains, repr) && h < lists.Length
    modifies lists[h].foot
    ensures BucketsOk(lists, PutIn(chains, h, val), repr')
    ensures repr' >= repr && fresh(repr' - repr) && lists[..] == old(lists[..])
  {
    lists[h].PushBack(val);
    repr' := repr + lists[h].foot;
  }

  /** Unlink node `k` of bucket `h`. */
  method Cut<T>(lists: array<List?<T>>, h: nat, curr: Node<T>, ghost k: nat, ghost chains: seq<seq<T>>,
                ghost repr: set<object>)
    requires BucketsOk(lists, chains, repr) && h < lists.Length
    requires k < |lists[h].nodes| && lists[h].nodes[k] == curr
    modifies lists[h].foot
    ensures BucketsOk(lists, chains[h := chains[h][..k] + chains[h][k+1..]], repr)
    ensures lists[..] == old(lists[..])
  {
    lists[h].Unlink(curr, k);
  }
}
