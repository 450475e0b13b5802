/**
 * A slot's outbound FIFO as it is stored: a doubly linked list threaded through the items themselves, appended at the
 * tail and unlinked anywhere in constant time. `nodes` is the list it stands for.
 */
module OutboundList {
  import Core = OutboundCore

  class Node {
    var item: Core.Item
    var prev: Node?
    var next: Node?

    constructor (item: Core.Item)
      ensures this.item == item && prev == null && next == null
    {
      this.item, prev, next := item, null, null;
    }
  }

  class List {
    var head: Node?
    var tail: Node?
    ghost var nodes: seq<Node>

    /** The links of the node at index i. */
    ghost predicate Linked(i: nat)
      requires i < |nodes|
      reads this, nodes
    {
      && nodes[i].prev == (if i == 0 then null else nodes[i - 1])
      && nodes[i].next == (if i + 1 == |nodes| then null else nodes[i + 1])
    }

    ghost predicate Valid()
      reads this, nodes
    {
      && (forall i, j | 0 <= i < j < |nodes| :: nodes[i] != nodes[j])
      && (forall i | 0 <= i < |nodes| :: Linked(i))
      && head == (if nodes == [] then null else nodes[0])
      && tail == (if nodes == [] then null else nodes[|nodes| - 1])
    }

    ghost function Items(): seq<Core.Item>
      reads this, nodes
    {
      seq(|nodes|, i requires 0 <= i < |nodes| reads this, nodes => nodes[i].item)
    }

    /** A node outside the list keeps no links. */
    ghost predicate Loose(node: Node)
      reads this, node
    {
      node !in nodes && node.prev == null && node.next == null
    }

    constructor ()
      ensures Valid() && nodes == []
    {
      head, tail, nodes := null, null, [];
    }

    /** appendOutboundLocked. */
    method Append(node: Node)
      requires Valid() && Loose(node)
      modifies this, node, tail
      ensures Valid() && nodes == old(nodes) + [node]
      ensures Items() == old(Items()) + [old(node.item)]
    {
      node.prev := tail;
      if tail == null {
        head := node;
      } else {
        tail.next := node;
      }
      tail := node;
      nodes := nodes + [node];
      forall i | 0 <= i < |nodes| ensures Linked(i) {
        assert i + 1 < |nodes| ==> old(Linked(i));
      }
    }

    /** removeOutboundLocked: a node that is not in the list any more is left alone. */
    method Remove(node: Node)
      requires Valid() && (node in nodes || Loose(node))
      modifies this, node, nodes
      ensures Valid() && Loose(node) && node.item == old(node.item)
      ensures node !in old(nodes) ==> nodes == old(nodes) && Items() == old(Items())
      ensures node in old(nodes) ==>
                var i := Position(old(nodes), node);
                && nodes == old(nodes)[..i] + old(nodes)[i + 1..]
                && Items() == old(Items())[..i] + old(Items())[i + 1..]
    {
      ghost var before := nodes;
      ghost var at := if node in nodes then Position(nodes, node) else |nodes|;
      assert forall i | 0 <= i < |nodes| :: Linked(i);
      assert node in nodes ==> Linked(at);
      if node.prev == null {
        if head != node {
          return;
        }
        head := node.next;
      } else {
        node.prev.next := node.next;
      }
      if node.next == null {
        if tail == node {
          tail := node.prev;
        }
      } else {
        node.next.prev := node.prev;
      }
      node.prev := null;
      node.next := null;
      nodes := before[..at] + before[at + 1..];
      forall i | 0 <= i < |nodes| ensures Linked(i) {
        assert nodes[i] == before[if i < at then i else i + 1];
        assert old(Linked(if i < at then i else i + 1));
      }
    }
  }

  ghost function Position(nodes: seq<Node>, node: Node): (i: nat)
    requires node in nodes
    ensures i < |nodes| && nodes[i] == node
  {
    var i :| 0 <= i < |nodes| && nodes[i] == node;
    i
  }
}
