/** Box2D's intrusive lists (bodies, fixtures, joints) are walked with a
    small forward iterator over `GetNext()` pointers: `b2Iterator`, with
    `begin`, `end` and `!=`, so that a range-for can run over a list head. */
module B2Iter {

  /** A list element as the iterator sees it: only its `GetNext()` link. */
  class Node {
    var next: Node?

    constructor (next: Node?)
      ensures this.next == next
    {
      this.next := next;
    }

    function GetNext(): Node?
      reads this
    {
      next
    }
  }

  /** `nodes` is the list starting at `first`: each node links to the one
      after it and the last one links to null. An empty list is a null
      head. */
  ghost predicate IsList(first: Node?, nodes: seq<Node>)
    reads set k | 0 <= k < |nodes| :: nodes[k]
  {
    (if |nodes| == 0 then first == null else first == nodes[0]) &&
    (forall k :: 0 <= k < |nodes| - 1 ==> nodes[k].next == nodes[k + 1]) &&
    (|nodes| > 0 ==> nodes[|nodes| - 1].next == null)
  }

  /** The element at position k of the walk: node k, or null past the end. */
  function At(nodes: seq<Node>, k: nat): (n: Node?)
    ensures k < |nodes| <==> n != null
    ensures k < |nodes| ==> n == nodes[k]
  {
    if k < |nodes| then nodes[k] else null
  }

  /** Two nodes that differ stay different when both step d places back:
      equal nodes have equal successors. */
  lemma {:induction false} DifferBack(first: Node?, nodes: seq<Node>, i: nat, j: nat, d: nat)
    requires IsList(first, nodes)
    requires i < j && j + d < |nodes| && nodes[i + d] != nodes[j + d]
    ensures nodes[i] != nodes[j]
  {
    if d > 0 {
      assert nodes[i + d - 1].next == nodes[i + d];
      assert nodes[j + d - 1].next == nodes[j + d];
      DifferBack(first, nodes, i, j, d - 1);
    }
  }

  /** A null-terminated list holds no node twice, so a walk along it meets
      each node once. */
  lemma ListDistinct(first: Node?, nodes: seq<Node>, i: nat, j: nat)
    requires IsList(first, nodes)
    requires i < j < |nodes|
    ensures nodes[i] != nodes[j]
  {
    var d := |nodes| - 1 - j;
    assert nodes[i + d].next == nodes[i + d + 1];
    DifferBack(first, nodes, i, j, d);
  }

  /** `b2Iterator<b2Object>`: a cursor on one element pointer. */
  class Iterator {
    var current: Node?

    /** `b2Iterator(first_list_item)`. */
    constructor (first: Node?)
      ensures current == first
    {
      current := first;
    }

    /** `operator++`: follow `GetNext()`, except that an iterator at null
        stays there. */
    method Increment()
      modifies this
      ensures old(current) != null ==> current == old(current.next)
      ensures old(current) == null ==> current == null
    {
      if current != null {
        current := current.GetNext();
      }
    }

    /** `operator*`, in both its const and non-const forms: the current
        element pointer. */
    function Deref(): Node?
      reads this
    {
      current
    }
  }

  /** `begin(obj)`: an iterator on `obj`. */
  method Begin(obj: Node?) returns (it: Iterator)
    ensures fresh(it) && it.Deref() == obj
  {
    it := new Iterator(obj);
  }

  /** `end(obj)`: the iterator on null, whatever `obj` is. */
  method End(obj: Node?) returns (it: Iterator)
    ensures fresh(it) && it.Deref() == null
  {
    it := new Iterator(null);
  }

  /** `operator!=`: two iterators differ iff their elements do. */
  function NotEqual(i1: Iterator, i2: Iterator): (r: bool)
    reads i1, i2
    ensures r <==> i1.Deref() != i2.Deref()
  {
    i1.Deref() != i2.Deref()
  }

  /** A range-for `for (b2Object* o : first)`: `begin`, then `*` and `++`
      while the iterator differs from `end`. Over a null-terminated list it
      stops, having visited exactly the list's nodes in `GetNext` order. */
  method RangeFor(first: Node?, ghost nodes: seq<Node>) returns (visited: seq<Node>)
    requires IsList(first, nodes)
    ensures visited == nodes
  {
    var it := Begin(first);
    var stop := End(first);
    visited := [];
    ghost var k := 0;
    while NotEqual(it, stop)
      invariant 0 <= k <= |nodes|
      invariant it.current == At(nodes, k) && stop.current == null
      invariant visited == nodes[..k]
      decreases |nodes| - k
    {
      assert nodes[..k + 1] == nodes[..k] + [nodes[k]];
      visited := visited + [it.Deref()];
      it.Increment();
      k := k + 1;
    }
    assert nodes[..k] == nodes;
  }
}
