/** The doubly linked list of chunk nodes. */
module ChunkLists {
  import opened Chunks

  class Chunk {
    var start: nat
    var size: nat
    var free: bool
    var prev: Chunk?
    var next: Chunk?

    constructor (start: nat, size: nat)
      ensures this.start == start && this.size == size && free
      ensures prev == null && next == null
    {
      this.start, this.size, free, prev, next := start, size, true, null, null;
    }

    function ToBlock(): Block
      reads this
    {
      Block(start, size, free)
    }
  }

  class ChunkList {
    var first: Chunk?
    var last: Chunk?
    ghost var nodes: seq<Chunk>  // the nodes of the list, in order
    ghost var view: seq<Block>   // what they say
    ghost var repr: set<Chunk>   // all nodes that ever were in the list

    ghost predicate Linked()
      reads this, nodes
    {
      && (forall i, j :: 0 <= i < j < |nodes| ==> nodes[i] != nodes[j])
      && first == (if nodes == [] then null else nodes[0])
      && last == (if nodes == [] then null else nodes[|nodes| - 1])
      && (forall i {:trigger nodes[i].prev} :: 0 <= i < |nodes| ==>
            nodes[i].prev == if i == 0 then null else nodes[i - 1])
      && (forall i {:trigger nodes[i].next} :: 0 <= i < |nodes| ==>
            nodes[i].next == if i == |nodes| - 1 then null else nodes[i + 1])
    }

    ghost predicate Shown()
      reads this, nodes
    {
      && |view| == |nodes|
      && (forall i :: 0 <= i < |nodes| ==> nodes[i] in repr)
      && (forall i :: 0 <= i < |nodes| ==> nodes[i].ToBlock() == view[i])
    }

    ghost predicate Valid()
      reads this, nodes
    {
      Linked() && Shown()
    }

    constructor ()
      ensures Valid() && nodes == [] && view == [] && repr == {}
    {
      first, last, nodes, view, repr := null, null, [], [], {};
    }

    /** Links newNode in behind node; what the nodes say stays. */
    method LinkAfter(node: Chunk, newNode: Chunk, ghost i: nat)
      requires Linked() && i < |nodes| && nodes[i] == node && newNode !in nodes
      modifies this`last, this`nodes, newNode, node, if node.next == null then {} else {node.next}
      ensures Linked() && nodes == Inserted(old(nodes), i + 1, newNode)
      ensures node.ToBlock() == old(node.ToBlock())
      ensures forall c: Chunk :: c in nodes ==> c.ToBlock() == old(c.ToBlock())
    {
      newNode.prev := node;
      newNode.next := node.next;
      if node.next == null {
        last := newNode;
      } else {
        node.next.prev := newNode;
      }
      node.next := newNode;
      ghost var was := nodes;
      nodes := Inserted(nodes, i + 1, newNode);
      forall k | 0 <= k < |nodes|
        ensures nodes[k].prev == (if k == 0 then null else nodes[k - 1])
        ensures nodes[k].next == (if k == |nodes| - 1 then null else nodes[k + 1])
      {
        InsertedAt(was, i + 1, newNode, k);
        if k > 0 { InsertedAt(was, i + 1, newNode, k - 1); }
        if k < |nodes| - 1 { InsertedAt(was, i + 1, newNode, k + 1); }
      }
    }

    method InsertAfter(node: Chunk, newNode: Chunk, ghost i: nat)
      requires Valid() && i < |nodes| && nodes[i] == node && newNode !in nodes
      modifies this, newNode, node, if node.next == null then {} else {node.next}
      ensures Valid() && nodes == Inserted(old(nodes), i + 1, newNode)
      ensures view == Inserted(old(view), i + 1, old(newNode.ToBlock()))
      ensures node.ToBlock() == old(node.ToBlock()) && repr == old(repr) + {newNode}
    {
      ghost var was, block := nodes, newNode.ToBlock();
      LinkAfter(node, newNode, i);
      view, repr := Inserted(view, i + 1, block), repr + {newNode};
      forall k | 0 <= k < |nodes| ensures nodes[k].ToBlock() == view[k] && nodes[k] in repr {
        assert nodes[k] in nodes;
        InsertedAt(was, i + 1, newNode, k);
        InsertedAt(old(view), i + 1, block, k);
        assert k != i + 1 ==> nodes[k] in was;
      }
    }

    /** Links newNode in before node; what the nodes say stays. */
    method LinkBefore(node: Chunk, newNode: Chunk, ghost i: nat)
      requires Linked() && i < |nodes| && nodes[i] == node && newNode !in nodes
      modifies this`first, this`nodes, newNode, node, if node.prev == null then {} else {node.prev}
      ensures Linked() && nodes == Inserted(old(nodes), i, newNode)
      ensures forall c: Chunk :: c in nodes ==> c.ToBlock() == old(c.ToBlock())
    {
      newNode.prev := node.prev;
      newNode.next := node;
      if node.prev == null {
        first := newNode;
      } else {
        node.prev.next := newNode;
      }
      node.prev := newNode;
      ghost var was := nodes;
      nodes := Inserted(nodes, i, newNode);
      forall k | 0 <= k < |nodes|
        ensures nodes[k].prev == (if k == 0 then null else nodes[k - 1])
        ensures nodes[k].next == (if k == |nodes| - 1 then null else nodes[k + 1])
      {
        InsertedAt(was, i, newNode, k);
        if k > 0 { InsertedAt(was, i, newNode, k - 1); }
        if k < |nodes| - 1 { InsertedAt(was, i, newNode, k + 1); }
      }
    }

    method InsertBefore(node: Chunk, newNode: Chunk, ghost i: nat)
      requires Valid() && i < |nodes| && nodes[i] == node && newNode !in nodes
      modifies this, newNode, node, if node.prev == null then {} else {node.prev}
      ensures Valid() && nodes == Inserted(old(nodes), i, newNode)
      ensures view == Inserted(old(view), i, old(newNode.ToBlock()))
      ensures repr == old(repr) + {newNode}
    {
      ghost var was, block := nodes, newNode.ToBlock();
      LinkBefore(node, newNode, i);
      view, repr := Inserted(view, i, block), repr + {newNode};
      forall k | 0 <= k < |nodes| ensures nodes[k].ToBlock() == view[k] && nodes[k] in repr {
        assert nodes[k] in nodes;
        InsertedAt(was, i, newNode, k);
        InsertedAt(old(view), i, block, k);
        assert k != i ==> nodes[k] in was;
      }
    }

    method InsertHead(newNode: Chunk)
      requires Valid() && newNode !in nodes
      modifies this, newNode, if first == null then {} else {first}
      ensures Valid() && nodes == [newNode] + old(nodes)
      ensures view == [old(newNode.ToBlock())] + old(view)
      ensures repr == old(repr) + {newNode}
    {
      if first == null {
        first, last := newNode, newNode;
        newNode.prev, newNode.next := null, null;
      } else {
        newNode.prev := null;
        newNode.next := first;
        first.prev := newNode;
        first := newNode;
      }
      nodes := [newNode] + nodes;
      view := [newNode.ToBlock()] + view;
      repr := repr + {newNode};
    }

    /** Links node out; what the nodes say stays. */
    method Unlink(node: Chunk, ghost i: nat)
      requires Linked() && i < |nodes| && nodes[i] == node
      modifies this`first, this`last, this`nodes
      modifies if node.prev == null then {} else {node.prev}, if node.next == null then {} else {node.next}
      ensures Linked() && nodes == Removed(old(nodes), i)
      ensures forall c: Chunk :: c in nodes ==> c.ToBlock() == old(c.ToBlock())
    {
      if node.prev == null {
        first := node.next;
      } else {
        node.prev.next := node.next;
      }
      if node.next == null {
        last := node.prev;
      } else {
        node.next.prev := node.prev;
      }
      nodes := Removed(nodes, i);
    }

    method Remove(node: Chunk, ghost i: nat)
      requires Valid() && i < |nodes| && nodes[i] == node
      modifies this, if node.prev == null then {} else {node.prev}, if node.next == null then {} else {node.next}
      ensures Valid() && nodes == Removed(old(nodes), i)
      ensures view == Removed(old(view), i)
      ensures repr == old(repr)
    {
      ghost var was := nodes;
      Unlink(node, i);
      view := Removed(view, i);
      forall k | 0 <= k < |nodes| ensures nodes[k].ToBlock() == view[k] && nodes[k] in repr {
        assert nodes[k] in nodes;
        RemovedAt(was, i, k);
        RemovedAt(old(view), i, k);
      }
    }
  }
}
