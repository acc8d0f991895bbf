/**
  The doubly linked list of src/util/list.c. Popping from the front leaves the
  new head's `prev` pointing at the node just freed, so two invariants are kept
  apart: `Chained`, which every operation keeps, and `Linked`, which holds in
  addition exactly as long as that pointer is null.
 */
module LinkedList {
  import opened Basics

  class Node<T> {
    var prev: Node?<T>
    var next: Node?<T>
    const val: T

    constructor (val: T)
      ensures this.val == val && prev == null && next == null
    {
      this.val := val;
      prev, next := null, null;
    }
  }

  class List<T> {
    var head: Node?<T>
    var tail: Node?<T>
    var nelem: nat
    ghost var nodes: seq<Node<T>>
    ghost var vals: seq<T>
    ghost var foot: set<object>

    /** Everything but the `prev` pointer of the head. */
    ghost predicate Chained()
      reads this, foot
    {
      && this in foot && |nodes| == |vals| == nelem
      && (forall i | 0 <= i < |nodes| :: nodes[i] in foot && nodes[i].val == vals[i])
      && (forall i, j | 0 <= i < j < |nodes| :: nodes[i] != nodes[j])
      && head == (if nodes == [] then null else nodes[0])
      && tail == (if nodes == [] then null else nodes[|nodes|-1])
      && (nodes != [] ==> nodes[|nodes|-1].next == null)
      && (forall i, j | 0 <= i && j == i + 1 < |nodes| :: nodes[i].next == nodes[j] && nodes[j].prev == nodes[i])
    }

    ghost predicate Linked()
      reads this, foot
    {
      Chained() && (nodes != [] ==> nodes[0].prev == null)
    }

    constructor ()
      ensures Linked() && vals == [] && foot == {this}
    {
      head, tail, nelem := null, null, 0;
      nodes, vals, foot := [], [], {this};
    }

    /** `list_push_front` mends a stale `prev`. */
    method PushFront(val: T)
      requires Chained()
      modifies foot
      ensures Linked() && vals == [val] + old(vals)
      ensures foot > old(foot) && fresh(foot - old(foot))
    {
      var node := new Node(val);
      if nelem == 0 {
        head, tail := node, node;
      } else {
        assert head == nodes[0];
        node.next := head;
        head.prev := node;
        head := node;
      }
      nelem := nelem + 1;
      nodes, vals, foot := [node] + nodes, [val] + vals, foot + {node};
    }

    method PushBack(val: T)
      requires Chained()
      modifies foot
      ensures Chained() && vals == old(vals) + [val]
      ensures old(Linked()) || old(nelem) == 0 ==> Linked()
      ensures foot > old(foot) && fresh(foot - old(foot))
    {
      var node := new Node(val);
      if nelem == 0 {
        head, tail := node, node;
      } else {
        assert tail == nodes[|nodes|-1];
        node.prev := tail;
        tail.next := node;
        tail := node;
      }
      nelem := nelem + 1;
      nodes, vals, foot := nodes + [node], vals + [val], foot + {node};
    }

    /**
      `list_pop_front`: -1 on an empty list. Otherwise the list is fully linked
      afterwards just when nothing is left in it.
     */
    method PopFront() returns (code: int, val: Option<T>)
      requires Chained()
      modifies this
      ensures Chained() && foot == old(foot)
      ensures if old(vals) == [] then code == -1 && val == None && vals == []
              else code == 0 && val.Some? && old(vals) == [val.value] + vals
      ensures old(vals) != [] ==> (Linked() <==> vals == [])
    {
      if nelem == 0 {
        return -1, None;
      }
      assert nelem > 1 ==> nodes[1].prev == nodes[0];
      nelem := nelem - 1;
      code, val := 0, Some(head.val);
      head := head.next;
      if nelem == 0 {
        tail := null;
      }
      nodes, vals := nodes[1..], vals[1..];
    }

    /** Unlink the `k`-th node from the middle of the chain, as the hash containers do. */
    method Unlink(curr: Node<T>, ghost k: nat)
      requires Linked() && k < |nodes| && nodes[k] == curr
      modifies foot
      ensures Linked() && vals == old(vals[..k] + vals[k+1..]) && foot == old(foot)
    {
      assert curr.prev == (if k > 0 then nodes[k-1] else null);
      assert curr.next == (if k + 1 < |nodes| then nodes[k+1] else null);
      if curr.prev != null {
        curr.prev.next := curr.next;
      } else {
        head := curr.next;
      }
      if curr.next != null {
        curr.next.prev := curr.prev;
      } else {
        tail := curr.prev;
      }
      nelem := nelem - 1;
      nodes, vals := nodes[..k] + nodes[k+1..], vals[..k] + vals[k+1..];
    }
  }
}
