/** The queue both parts of the server are built on: singly linked nodes behind a sentinel, with a
    tail pointer and a cached length. The connection queue pushes and pops; the file queue also
    removes from the middle. */
module LinkedQueue {
  import opened Files

  class Node<T> {
    var data: Option<T>
    var next: Node?<T>

    constructor (data: Option<T>)
      ensures this.data == data && next == null
    {
      this.data := data;
      next := null;
    }
  }

  /** Index of the first `x` in `s`, or `|s|`. */
  function IndexOf<T(==)>(s: seq<T>, x: T): (k: nat)
    ensures k <= |s|
    ensures k < |s| ==> s[k] == x
    ensures forall i :: 0 <= i < k ==> s[i] != x
  {
    IndexFrom(s, x, 0)
  }

  function IndexFrom<T(==)>(s: seq<T>, x: T, from: nat): (k: nat)
    requires from <= |s|
    ensures from <= k <= |s|
    ensures k < |s| ==> s[k] == x
    ensures forall i :: from <= i < k ==> s[i] != x
    decreases |s| - from
  {
    if from == |s| || s[from] == x then from else IndexFrom(s, x, from + 1)
  }

  /** `s` without the first `x` in it, if any. */
  function Dropped<T(==)>(s: seq<T>, x: T): seq<T> {
    var k := IndexOf(s, x);
    if k == |s| then s else s[..k] + s[k + 1..]
  }

  ghost predicate Differ<T>(s: seq<T>, i: nat, j: nat)
    requires i < |s| && j < |s|
  {
    s[i] != s[j]
  }

  ghost predicate AllDiffer<T>(s: seq<T>) {
    forall i, j :: 0 <= i < j < |s| ==> Differ(s, i, j)
  }

  lemma OtherPlaces<T>(s: seq<T>, k: nat)
    requires AllDiffer(s) && k < |s|
    ensures forall i :: 0 <= i < |s| && i != k ==> s[i] != s[k]
  {
    forall i | 0 <= i < |s| && i != k ensures s[i] != s[k] {
      assert if i < k then Differ(s, i, k) else Differ(s, k, i);
    }
  }

  lemma DifferWithout<T>(s: seq<T>, k: nat)
    requires AllDiffer(s) && k < |s|
    ensures AllDiffer(s[..k] + s[k + 1..])
  {
    var t := s[..k] + s[k + 1..];
    forall i, j | 0 <= i < j < |t| ensures Differ(t, i, j) {
      assert Differ(s, if i < k then i else i + 1, if j < k then j else j + 1);
    }
  }

  lemma DifferWith<T>(s: seq<T>, x: T)
    requires AllDiffer(s) && x !in s
    ensures AllDiffer(s + [x])
  {
    var t := s + [x];
    forall i, j | 0 <= i < j < |t| ensures Differ(t, i, j) {
      assert j < |s| ==> Differ(s, i, j);
      assert s[i] == t[i] && s[i] in s;
    }
  }

  /** A sentinel and one node for each element, each linked to the next and the last to none. */
  ghost predicate IsChain<T>(nodes: seq<Node<T>>, elems: seq<T>)
    reads nodes
  {
    && |nodes| == |elems| + 1
    && nodes[0].data == None
    && nodes[|elems|].next == null
    && (forall i :: 0 <= i < |elems| ==> nodes[i].next == nodes[i + 1])
    && (forall i :: 0 < i < |nodes| ==> nodes[i].data == Some(elems[i - 1]))
    && AllDiffer(nodes)
  }

  /** A chain whose node `i` has been linked past its successor is a chain without that successor. */
  lemma LinkedPast<T>(nodes: seq<Node<T>>, elems: seq<T>, i: nat)
    requires |nodes| == |elems| + 1 && i < |elems| && nodes[0].data == None
    requires nodes[i].next == if i + 1 < |elems| then nodes[i + 2] else null
    requires i + 1 < |elems| ==> nodes[|elems|].next == null
    requires forall j :: 0 <= j < |elems| && j != i ==> nodes[j].next == nodes[j + 1]
    requires forall j :: 0 < j < |nodes| ==> nodes[j].data == Some(elems[j - 1])
    requires AllDiffer(nodes)
    ensures IsChain(nodes[..i + 1] + nodes[i + 2..], elems[..i] + elems[i + 1..])
  {
    var n, e := nodes[..i + 1] + nodes[i + 2..], elems[..i] + elems[i + 1..];
    DifferWithout(nodes, i + 1);
    assert forall j :: 0 <= j < |n| ==> n[j] == nodes[if j <= i then j else j + 1];
    assert forall j :: 0 <= j < |e| ==> e[j] == elems[if j < i then j else j + 1];
  }

  class Queue<T(==)> {
    var head: Node<T>
    var tail: Node<T>
    var len: nat

    /** The chain from the sentinel on, and the elements its other nodes carry. */
    ghost var nodes: seq<Node<T>>
    ghost var elems: seq<T>

    /** The chain is acyclic and complete: it starts at the sentinel, runs through all elements in
        order, and ends at the tail, which has no successor and is the sentinel when the queue is
        empty; the cached length is the number of elements. */
    ghost predicate Valid()
      reads this, nodes
    {
      && IsChain(nodes, elems)
      && head == nodes[0]
      && tail == nodes[|elems|]
      && len == |elems|
    }

    constructor ()
      ensures Valid() && elems == [] && fresh(nodes)
    {
      var sentinel := new Node<T>(None);
      head := sentinel;
      tail := sentinel;
      len := 0;
      nodes := [sentinel];
      elems := [];
    }

    /** Appends, and answers the new length. */
    method Push(x: T) returns (n: nat)
      requires Valid()
      modifies this, tail
      ensures Valid() && fresh(nodes[|nodes| - 1]) && nodes == old(nodes) + [nodes[|nodes| - 1]]
      ensures elems == old(elems) + [x] && n == |elems|
    {
      var node := new Node<T>(Some(x));
      OtherPlaces(nodes, |elems|);
      DifferWith(nodes, node);
      tail.next := node;
      tail := node;
      len := len + 1;
      nodes := nodes + [node];
      elems := elems + [x];
      n := len;
    }

    /** Takes the front element; popping an empty queue is not possible. */
    method Pop() returns (x: T)
      requires Valid() && elems != []
      modifies this, head
      ensures Valid() && nodes == [old(nodes)[0]] + old(nodes)[2..]
      ensures x == old(elems)[0] && elems == old(elems)[1..]
    {
      var node := head.next;
      assert nodes[0].next == nodes[0 + 1] && nodes[0 + 1].data == Some(elems[0]);
      assert |elems| > 1 ==> nodes[1].next == nodes[1 + 1];
      x := node.data.value;
      OtherPlaces(nodes, 0);
      DifferWithout(nodes, 1);
      head.next := node.next;
      if head.next == null {
        tail := head;
      }
      len := len - 1;
      assert nodes[..1] + nodes[2..] == [nodes[0]] + nodes[2..];
      nodes := [nodes[0]] + nodes[2..];
      elems := elems[1..];
    }

    /** Relinks the chain around node `i + 1`, which follows `prec`. */
    method Unlink(prec: Node<T>, ghost i: nat)
      requires Valid() && i < |elems| && prec == nodes[i]
      modifies this, prec
      ensures Valid()
      ensures elems == old(elems)[..i] + old(elems)[i + 1..]
      ensures nodes == old(nodes)[..i + 1] + old(nodes)[i + 2..]
    {
      var node := prec.next;
      assert node == nodes[i + 1];
      assert i + 1 < |elems| ==> nodes[i + 1].next == nodes[i + 1 + 1];
      OtherPlaces(nodes, i);
      OtherPlaces(nodes, |elems|);
      if tail == node {
        tail := prec;
      }
      prec.next := node.next;
      len := len - 1;
      LinkedPast(nodes, elems, i);
      nodes := nodes[..i + 1] + nodes[i + 2..];
      elems := elems[..i] + elems[i + 1..];
    }

    /** Unlinks the first node that carries `x`, wherever it is, and nothing else. */
    method Remove(x: T) returns (status: int)
      requires Valid()
      modifies this, nodes
      ensures Valid() && (forall n :: n in nodes ==> n in old(nodes))
      ensures elems == Dropped(old(elems), x)
      ensures if x in old(elems) then status == OK else status == FAIL && nodes == old(nodes)
    {
      var prec := head;
      var node := head.next;
      ghost var i := 0;
      while node != null
        invariant 0 <= i <= |elems|
        invariant prec == nodes[i]
        invariant node == if i < |elems| then nodes[i + 1] else null
        invariant forall j :: 0 <= j < i ==> elems[j] != x
        decreases |elems| - i
      {
        assert nodes[i + 1].data == Some(elems[i]);
        if node.data == Some(x) {
          assert IndexOf(elems, x) == i;
          Unlink(prec, i);
          return OK;
        }
        assert i + 1 < |elems| ==> nodes[i + 1].next == nodes[i + 1 + 1];
        prec := node;
        node := node.next;
        i := i + 1;
      }
      return FAIL;
    }
  }
}
