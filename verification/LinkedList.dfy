/**
  The circular doubly linked list of src/linkedlist.c, a ring through a sentinel.
 */
module LinkedList {
  class Node<T> {
    var next: Node?<T>
    var prev: Node?<T>
    const item: T

    /** new_ll_Node */
    constructor (item: T)
      ensures this.item == item
    {
      this.item := item;
      next, prev := null, null;
    }
  }

  class Linlist<T> {
    const head: Node<T>
    var count: int
    ghost var nodes: seq<Node<T>>   // the ring without its sentinel, in order

    ghost predicate Distinct() reads this {
      && head !in nodes
      && forall i, j :: 0 <= i < j < |nodes| ==> nodes[i] != nodes[j]
    }

    /** What follows position i of a ring with these nodes, where -1 is the sentinel. */
    static ghost function After(head: Node<T>, ns: seq<Node<T>>, i: int): Node<T>
      requires -1 <= i < |ns|
    {
      if i + 1 < |ns| then ns[i + 1] else head
    }

    static ghost function Before(head: Node<T>, ns: seq<Node<T>>, i: int): Node<T>
      requires -1 <= i < |ns|
    {
      if i > 0 then ns[i - 1] else if i == 0 || ns == [] then head else ns[|ns| - 1]
    }

    ghost function Successor(i: int): Node<T>
      requires -1 <= i < |nodes|
      reads this
    {
      After(head, nodes, i)
    }

    ghost function Predecessor(i: int): Node<T>
      requires -1 <= i < |nodes|
      reads this
    {
      Before(head, nodes, i)
    }

    /** Only past the last node does the sentinel follow. */
    lemma AtEnd(k: nat)
      requires Valid() && k <= |nodes|
      ensures Successor(k - 1) == head <==> k == |nodes|
    {
    }

    /** next and prev are the two directions of one ring, and count its length. */
    ghost predicate Valid()
      reads this, head, nodes
    {
      && Distinct() && count == |nodes|
      && head.next == Successor(-1) && head.prev == Predecessor(-1)
      && (forall i {:trigger nodes[i].next} :: 0 <= i < |nodes| ==> nodes[i].next == Successor(i))
      && (forall i {:trigger nodes[i].prev} :: 0 <= i < |nodes| ==> nodes[i].prev == Predecessor(i))
    }

    ghost function Items(): (r: seq<T>)
      reads this
      ensures |r| == |nodes|
    {
      seq(|nodes|, i requires 0 <= i < |nodes| reads this => nodes[i].item)
    }

    /** init_linkedlist, for a sentinel of its own */
    constructor (sentinel: Node<T>)
      modifies sentinel
      ensures Valid() && nodes == [] && head == sentinel
    {
      head := sentinel;
      count := 0;
      nodes := [];
      new;
      head.next := head;
      head.prev := head;
    }

    /** Following next and then prev, or prev and then next, leads back. */
    lemma MutuallyInverse(i: nat)
      requires Valid() && i < |nodes|
      ensures nodes[i].next != null && nodes[i].prev != null
      ensures Successor(i).prev == nodes[i] && Predecessor(i).next == nodes[i]
    {
      if i + 1 < |nodes| {
        assert nodes[i + 1].prev == Predecessor(i + 1);
      }
      if i > 0 {
        assert nodes[i - 1].next == Successor(i - 1);
      }
    }

    /** ll_insert_last */
    method InsertLast(node: Node<T>)
      requires Valid() && node != head && node !in nodes
      modifies this, head, nodes, node
      ensures Valid() && nodes == old(nodes) + [node]
    {
      var last := head.prev;
      last.next := node;
      node.prev := last;
      node.next := head;
      head.prev := node;
      count := count + 1;
      nodes := nodes + [node];
    }

    /** Closing the gap left by node k: who follows and who precedes the node that is now at i. */
    static lemma NeighboursWithout(head: Node<T>, ns: seq<Node<T>>, k: nat, i: nat)
      requires k < |ns| && i < |ns| - 1 && head !in ns && forall a, b :: 0 <= a < b < |ns| ==> ns[a] != ns[b]
      ensures var rest, j := ns[..k] + ns[k + 1..], if i < k then i else i + 1;
              && rest[i] == ns[j] && ns[j] != ns[k] && ns[j] != head
              && After(head, rest, i) == (if i + 1 == k then After(head, ns, k) else After(head, ns, j))
              && Before(head, rest, i) == (if i == k then Before(head, ns, k) else Before(head, ns, j))
              && (ns[j] == Before(head, ns, k) <==> i + 1 == k) && (ns[j] == After(head, ns, k) <==> i == k)
    {
    }

    static lemma SentinelWithout(head: Node<T>, ns: seq<Node<T>>, k: nat)
      requires k < |ns| && head !in ns
      ensures var rest := ns[..k] + ns[k + 1..];
              && After(head, rest, -1) == (if k == 0 then After(head, ns, k) else After(head, ns, -1))
              && Before(head, rest, -1) == (if k == |ns| - 1 then Before(head, ns, k) else Before(head, ns, -1))
              && (Before(head, ns, k) == head <==> k == 0) && (After(head, ns, k) == head <==> k == |ns| - 1)
              && (Before(head, ns, k) == head || Before(head, ns, k) in ns)
              && (After(head, ns, k) == head || After(head, ns, k) in ns)
    {
    }

    /** ll_remove, of the node at position k */
    method Remove(node: Node<T>, ghost k: nat)
      requires Valid() && k < |nodes| && nodes[k] == node
      modifies this, head, nodes
      ensures Valid() && nodes == old(nodes)[..k] + old(nodes)[k + 1..]
    {
      hide Linlist.After, Linlist.Before;
      ghost var before := nodes;
      SentinelWithout(head, nodes, k);
      assert node.prev == Predecessor(k) && node.next == Successor(k);
      var prev, next := node.prev, node.next;
      next.prev := prev;
      prev.next := next;
      count := count - 1;
      nodes := nodes[..k] + nodes[k + 1..];
      forall i: nat | i < |nodes|
        ensures nodes[i].next == Successor(i) && nodes[i].prev == Predecessor(i)
      {
        ghost var j := if i < k then i else i + 1;
        NeighboursWithout(head, before, k, i);
        assert nodes[i] == before[j];
      }
    }

    /** ll_start */
    method Start() returns (node: Node<T>)
      requires Valid()
      ensures node == if nodes == [] then head else nodes[0]
    {
      node := head.next;
    }

    /** ll_next */
    method Next(node: Node<T>, ghost k: nat) returns (next: Node<T>)
      requires Valid() && k < |nodes| && nodes[k] == node
      ensures next == Successor(k)
    {
      next := node.next;
    }

    /** ll_delete_allnodes: the walk ends at the sentinel and meets every node once, in order. */
    method Walk() returns (freed: seq<Node<T>>)
      requires Valid()
      ensures freed == nodes
    {
      freed := [];
      var iter := Start();
      while iter != head
        invariant |freed| <= |nodes| && freed == nodes[..|freed|]
        invariant iter == Successor(|freed| - 1)
        decreases |nodes| - |freed|
      {
        var next := Next(iter, |freed|);
        freed := freed + [iter];
        iter := next;
      }
    }
  }
}
