/** The singly linked ring with a tail pointer that event/priorityQueue.go,
    event/eventHandler.go and gopool/gopool.go each spell out for their own node type. */
module Ring {
  import opened Optional
  import opened Sequences

  class Node<T> {
    var next: Node?<T>
    var v: T

    constructor (v: T)
      ensures this.v == v && next == null
    {
      this.v := v;
      next := null;
    }
  }

  class Ring<T> {
    var tail: Node?<T>
    ghost var nodes: seq<Node<T>>  // oldest first
    ghost var contents: seq<T>
    ghost var Repr: set<object>

    ghost predicate Valid()
      reads this, Repr
    {
      && this in Repr
      && (forall i :: 0 <= i < |nodes| ==> nodes[i] in Repr)
      && (tail == null <==> nodes == [])
      && Distinct(nodes)
      && (nodes != [] ==> tail == nodes[|nodes| - 1] && tail.next == nodes[0])
      && (forall i :: 0 <= i < |nodes| - 1 ==> nodes[i].next == nodes[i + 1])
      && |contents| == |nodes|
      && (forall i :: 0 <= i < |nodes| ==> nodes[i].v == contents[i])
    }

    constructor ()
      ensures Valid() && fresh(Repr) && contents == []
    {
      Repr := {this};
      tail := null;
      nodes := [];
      contents := [];
    }

    method Push(v: T)
      requires Valid()
      modifies Repr
      ensures Valid() && fresh(Repr - old(Repr)) && old(Repr) <= Repr
      ensures contents == old(contents) + [v]
    {
      var item := new Node(v);
      var head: Node<T>;
      if tail == null {
        head := item;
      } else {
        head := tail.next;
        tail.next := item;
      }
      item.next := head;
      tail := item;
      nodes := nodes + [item];
      Repr := Repr + {item};
      contents := contents + [v];
    }

    /** Removes the oldest element; an empty ring is left alone. */
    method Pop() returns (r: Option<T>)
      requires Valid()
      modifies Repr
      ensures Valid() && Repr == old(Repr)
      ensures old(contents) == [] ==> r == None && contents == []
      ensures old(contents) != [] ==> r == Some(old(contents)[0]) && contents == old(contents)[1..]
    {
      if tail == null {
        return None;
      }
      var item := tail.next;
      if item == tail {
        tail := null;
      } else {
        tail.next := item.next;
      }
      item.next := null;
      r := Some(item.v);
      nodes := nodes[1..];
      contents := contents[1..];
    }

    method Empty() returns (b: bool)
      requires Valid()
      ensures b <==> contents == []
    {
      b := tail == null;
    }
  }
}
