/** The subscriber mailbox of server/queue/queue.go: a singly linked list that
    keeps only its first node, and a counter maintained beside it. */
module LinkedQueue {
  import opened Common

  class Node {
    var element: Value
    var next: Node?
    /** the one queue this node was made for */
    ghost const owner: Queue

    constructor (element: Value, ghost owner: Queue)
      ensures this.element == element && next == null && this.owner == owner
    {
      this.element := element;
      next := null;
      this.owner := owner;
    }
  }

  /** `spine` lists, in order, exactly the nodes reached from `root`: the last one points to null. */
  ghost predicate Chain(root: Node?, spine: seq<Node>)
    reads spine
  {
    if spine == [] then root == null
    else
      && root == spine[0]
      && (forall i :: 0 <= i < |spine| - 1 ==> spine[i].next == spine[i + 1])
      && spine[|spine| - 1].next == null
  }

  /** The heap determines the spine: a root has at most one null-terminated chain. */
  lemma {:induction false} ChainIsUnique(root: Node?, a: seq<Node>, b: seq<Node>)
    requires Chain(root, a) && Chain(root, b)
    ensures a == b
  {
    if a != [] && b != [] {
      assert Chain(a[0].next, a[1..]) by {
        if |a| > 1 { assert a[0].next == a[1]; }
      }
      assert Chain(b[0].next, b[1..]) by {
        if |b| > 1 { assert b[0].next == b[1]; }
      }
      ChainIsUnique(a[0].next, a[1..], b[1..]);
      assert a == [a[0]] + a[1..] && b == [b[0]] + b[1..];
    }
  }

  /** A null-terminated chain never visits a node twice. */
  lemma ChainIsAcyclic(root: Node?, spine: seq<Node>, i: nat, j: nat)
    requires Chain(root, spine)
    requires i < j < |spine|
    ensures spine[i] != spine[j]
  {
    if spine[i] == spine[j] {
      assert Chain(spine[i], spine[i..]);
      assert Chain(spine[j], spine[j..]);
      ChainIsUnique(spine[i], spine[i..], spine[j..]);
    }
  }

  class Queue {
    var root: Node?
    var counter: int
    ghost var spine: seq<Node>
    ghost var contents: seq<Value>

    ghost predicate Valid()
      reads this, spine
    {
      && Chain(root, spine)
      && counter == |spine| == |contents|
      && (forall i :: 0 <= i < |spine| ==> spine[i].owner == this && spine[i].element == contents[i])
    }

    constructor ()
      ensures Valid()
      ensures contents == [] && spine == []
    {
      root := null;
      counter := 0;
      spine, contents := [], [];
    }

    method Push(x: Value)
      requires Valid()
      modifies this, spine
      ensures Valid()
      ensures contents == old(contents) + [x]
      ensures |spine| == |old(spine)| + 1 && old(spine) < spine && fresh(Last(spine))
    {
      counter := counter + 1;
      var nd := new Node(x, this);
      if root == null {
        root := nd;
      } else {
        var start: Node := root;
        ghost var i := 0;
        while start.next != null
          invariant 0 <= i < |spine| && start == spine[i]
          invariant start.next == if i + 1 < |spine| then spine[i + 1] else null
          decreases |spine| - i
        {
          start := start.next;
          i := i + 1;
        }
        forall j | 0 <= j < i ensures spine[j] != start {
          ChainIsAcyclic(root, spine, j, i);
        }
        start.next := nd;
      }
      spine := spine + [nd];
      contents := contents + [x];
    }

    method Pop() returns (first: Value)
      requires Valid()
      requires contents != []
      modifies this
      ensures Valid()
      ensures first == old(contents)[0] && contents == old(contents)[1..]
      ensures spine == old(spine)[1..]
    {
      first := root.element;
      if |spine| > 1 { assert root.next == spine[1]; }
      root := root.next;
      counter := counter - 1;
      spine := spine[1..];
      contents := contents[1..];
    }

    method Count() returns (n: int)
      requires Valid()
      ensures n == |contents|
    {
      n := counter;
    }
  }
}
