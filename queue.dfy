/** The singly linked FIFO container `Queue<T>`: nodes allocated one by one,
    `front` and `back` pointers and an element count kept beside them.  The
    abstraction is the ghost sequence `Contents` (front first); the ghost
    sequence `nodes` names the node that holds each element. */
module LinkedQueue {

  /** The two exception classes `front()` and `back()` throw. */
  datatype QueueError = EmptyQueueError | FullQueueError

  datatype Result<T> = Success(value: T) | Failure(error: QueueError)

  /** A list cell: the element and the link to the next cell. */
  class Node<T> {
    var data: T
    var next: Node?<T>

    constructor (data: T, next: Node?<T>)
      ensures this.data == data && this.next == next
    {
      this.data := data;
      this.next := next;
    }
  }

  /** `ns` is a null-terminated chain of distinct nodes holding `xs` in order. */
  ghost predicate Chain<T>(ns: seq<Node<T>>, xs: seq<T>)
    reads set i | 0 <= i < |ns| :: ns[i]
  {
    && |ns| == |xs|
    && (ns != [] ==> ns[|ns| - 1].next == null)
    && (forall i :: 0 <= i < |ns| ==> ns[i].data == xs[i])
    && (forall i :: 0 <= i < |ns| - 1 ==> ns[i].next == ns[i + 1])
    && (forall i, j :: 0 <= i < j < |ns| ==> ns[i] != ns[j])
  }

  /** The objects of a chain. */
  function NodeSet<T>(ns: seq<Node<T>>): set<object>
  {
    set i | 0 <= i < |ns| :: ns[i] as object
  }

  lemma NodeSetAppend<T>(ns: seq<Node<T>>, n: Node<T>)
    ensures NodeSet(ns + [n]) == NodeSet(ns) + {n}
  {
    forall o | o in NodeSet(ns + [n]) ensures o in NodeSet(ns) + {n} {
      var i :| 0 <= i < |ns| + 1 && (ns + [n])[i] == o;
      if i < |ns| {
        assert ns[i] == o;
      }
    }
    forall o | o in NodeSet(ns) ensures o in NodeSet(ns + [n]) {
      var i :| 0 <= i < |ns| && ns[i] == o;
      assert (ns + [n])[i] == o;
    }
    assert (ns + [n])[|ns|] == n;
  }

  /** Unlinking the first node of a chain leaves a chain that no longer
      contains it. */
  lemma ChainTail<T>(ns: seq<Node<T>>, xs: seq<T>)
    requires Chain(ns, xs) && ns != []
    ensures Chain(ns[1..], xs[1..])
    ensures NodeSet(ns) == {ns[0] as object} + NodeSet(ns[1..])
    ensures ns[0] !in NodeSet(ns[1..])
  {
    forall o | o in NodeSet(ns) ensures o in {ns[0] as object} + NodeSet(ns[1..]) {
      var i :| 0 <= i < |ns| && ns[i] == o;
      if i > 0 {
        assert ns[1..][i - 1] == o;
      }
    }
    forall o | o in NodeSet(ns[1..]) ensures o in NodeSet(ns) && o != ns[0] {
      var i :| 0 <= i < |ns| - 1 && ns[1..][i] == o;
      assert ns[i + 1] == o;
    }
  }

  /** Links the node `n`, not yet part of the chain, behind the last node
      of `ns`. */
  method LinkBehind<T>(ghost ns: seq<Node<T>>, ghost xs: seq<T>, last: Node<T>, n: Node<T>)
    requires Chain(ns, xs) && ns != [] && last == ns[|ns| - 1] && n !in ns && n.next == null
    modifies last
    ensures Chain(ns + [n], xs + [n.data])
  {
    last.next := n;
  }

  /** The chain walk of `copyQueue()`: a fresh node per element of the chain
      starting at `first`, linked in the same order. */
  method CopyChain<T>(first: Node<T>, ghost src: seq<Node<T>>, ghost xs: seq<T>)
    returns (head: Node<T>, last: Node<T>, ghost ns: seq<Node<T>>)
    requires Chain(src, xs) && src != [] && src[0] == first
    ensures Chain(ns, xs) && ns != [] && head == ns[0] && last == ns[|ns| - 1]
    ensures forall i :: 0 <= i < |ns| ==> fresh(ns[i])
  {
    var otherCurrent := first;
    head := new Node(otherCurrent.data, null);
    otherCurrent := otherCurrent.next;
    last := head;
    ns := [head];
    while otherCurrent != null
      invariant 1 <= |ns| <= |src|
      invariant otherCurrent == if |ns| < |src| then src[|ns|] else null
      invariant Chain(ns, xs[..|ns|])
      invariant head == ns[0] && last == ns[|ns| - 1]
      invariant forall i :: 0 <= i < |ns| ==> fresh(ns[i])
      decreases |src| - |ns|
    {
      var n := new Node(otherCurrent.data, null);
      LinkBehind(ns, xs[..|ns|], last, n);
      assert xs[..|ns|] + [n.data] == xs[..|ns| + 1];
      last := n;
      otherCurrent := otherCurrent.next;
      ns := ns + [n];
    }
    assert xs[..|ns|] == xs;
  }

  class Queue<T> {
    var front: Node?<T>
    var back: Node?<T>
    var size: int

    ghost var nodes: seq<Node<T>>
    ghost var Contents: seq<T>
    ghost var Repr: set<object>

    /** The pointer structure: `front` is the first node, the nodes are
        linked in order, `back` is the last one and ends the chain, all nodes
        are distinct and hold `Contents`.  Nothing is said about `size`, which
        a moved-from queue leaves stale. */
    ghost predicate Linked()
      reads this, Repr
    {
      && Repr == {this} + NodeSet(nodes)
      && Chain(nodes, Contents)
      && (nodes == [] ==> front == null && back == null)
      && (nodes != [] ==> front == nodes[0] && back == nodes[|nodes| - 1])
    }

    /** A well-formed queue: linked, and the count is the number of elements. */
    ghost predicate Valid()
      reads this, Repr
    {
      Linked() && size == |Contents|
    }

    /** The default constructor: an empty queue. */
    constructor ()
      ensures Valid() && Contents == [] && size == 0
      ensures fresh(Repr)
    {
      front, back, size := null, null, 0;
      nodes, Contents := [], [];
      Repr := {this};
    }

    /** The copy constructor: a fresh queue with the same elements in the
        same order and the same count, sharing no node with `other`. */
    constructor Copy(other: Queue<T>)
      requires other.Linked()
      ensures Linked() && Contents == other.Contents && size == other.size
      ensures other.Valid() ==> Valid()
      ensures fresh(Repr)
    {
      front, back, size := null, null, 0;
      nodes, Contents := [], [];
      Repr := {this};
      new;
      CopyFrom(other);
    }

    /** The initializer-list constructor: the elements of `l` enqueued in order. */
    constructor FromList(l: seq<T>)
      ensures Valid() && Contents == l && size == |l|
      ensures fresh(Repr)
    {
      front, back, size := null, null, 0;
      nodes, Contents := [], [];
      Repr := {this};
      new;
      var i := 0;
      while i < |l|
        invariant 0 <= i <= |l|
        invariant Valid() && Contents == l[..i]
        invariant fresh(Repr)
      {
        Enqueue(l[i]);
        i := i + 1;
      }
      assert l[..|l|] == l;
    }

    /** The move constructor: the nodes of `other` pass to the new queue
        together with its count; `other` is left with no nodes but keeps its
        old, now stale, count. */
    constructor Move(other: Queue<T>)
      requires other.Linked()
      modifies other
      ensures Linked() && Contents == old(other.Contents) && size == old(other.size)
      ensures old(other.Valid()) ==> Valid()
      ensures other.Linked() && other.Contents == [] && other.size == old(other.size)
      ensures Repr !! other.Repr
    {
      front, back, size := other.front, other.back, other.size;
      nodes, Contents := other.nodes, other.Contents;
      Repr := other.Repr - {other};
      new;
      Repr := Repr + {this};
      other.front, other.back := null, null;
      other.nodes, other.Contents := [], [];
      other.Repr := {other};
    }

    /** `isEmpty()`: no front node, which is exactly no element. */
    method IsEmpty() returns (r: bool)
      requires Linked()
      ensures r <==> Contents == []
    {
      r := front == null;
    }

    /** `size()`: the count kept beside the nodes, which is the number of
        elements in a well-formed queue. */
    method Size() returns (n: int)
      requires Linked()
      ensures Valid() ==> n == |Contents|
      ensures n == size
    {
      n := size;
    }

    /** `front()`: the first element, or `EmptyQueueError` when there is none. */
    method Front() returns (r: Result<T>)
      requires Linked()
      ensures r.Failure? <==> Contents == []
      ensures r.Failure? ==> r.error == EmptyQueueError
      ensures r.Success? ==> r.value == Contents[0]
    {
      if front == null {
        return Failure(EmptyQueueError);
      }
      r := Success(front.data);
    }

    /** `back()`: the last element, or `FullQueueError` when there is none. */
    method Back() returns (r: Result<T>)
      requires Linked()
      ensures r.Failure? <==> Contents == []
      ensures r.Failure? ==> r.error == FullQueueError
      ensures r.Success? ==> r.value == Contents[|Contents| - 1]
    {
      if back == null {
        return Failure(FullQueueError);
      }
      r := Success(back.data);
    }

    /** `enqueue()`: a new node holding `x` goes behind the last one (or
        becomes both front and back of an empty queue), and the count grows
        by one. */
    method Enqueue(x: T)
      requires Linked()
      modifies Repr
      ensures Linked() && Contents == old(Contents) + [x] && size == old(size) + 1
      ensures old(Valid()) ==> Valid()
      ensures fresh(Repr - old(Repr))
    {
      var n := new Node(x, null);
      NodeSetAppend(nodes, n);
      if front == null {
        assert nodes + [n] == [n];
        Adopt(n, n, [n], [x]);
      } else {
        var f := front;
        LinkBehind(nodes, Contents, back, n);
        Adopt(f, n, nodes + [n], Contents + [x]);
      }
      size := size + 1;
    }

    /** `dequeue()`: the front node is unlinked and the count drops by one;
        on an empty queue nothing happens. */
    method Dequeue()
      requires Linked()
      modifies this
      ensures Linked()
      ensures old(Contents) == [] ==> Contents == [] && size == old(size)
      ensures old(Contents) != [] ==> Contents == old(Contents)[1..] && size == old(size) - 1
      ensures old(Valid()) ==> Valid()
      ensures Repr <= old(Repr)
    {
      if front != null {
        ChainTail(nodes, Contents);
        front := front.next;
        if front == null {
          back := null;
        }
        size := size - 1;
        nodes, Contents := nodes[1..], Contents[1..];
        Repr := {this} + NodeSet(nodes);
      }
    }

    /** `destroy()`: walks the chain from the front until it runs out, then
        clears `back` and the count. */
    method Destroy()
      requires Linked()
      modifies this
      ensures Valid() && Contents == [] && size == 0
      ensures Repr == {this}
    {
      ghost var k := 0;
      while front != null
        invariant 0 <= k <= |nodes|
        invariant nodes == old(nodes) && Contents == old(Contents) && Repr == old(Repr)
        invariant Chain(nodes, Contents)
        invariant front == if k < |nodes| then nodes[k] else null
        decreases |nodes| - k
      {
        front := front.next;
        k := k + 1;
      }
      back := null;
      size := 0;
      nodes, Contents := [], [];
      Repr := {this};
    }

    /** `copyQueue()`: any nodes of this queue are dropped, then the chain of
        `other` is walked and one fresh node per element is linked behind the
        last; the count is copied from `other`. */
    method CopyFrom(other: Queue<T>)
      requires Linked() && other.Linked() && this != other
      modifies this
      ensures Linked() && Contents == other.Contents && size == other.size
      ensures fresh(Repr - {this})
    {
      if front != null {
        Destroy();
      }
      if other.front != null {
        var head, last, ns := CopyChain(other.front, other.nodes, other.Contents);
        Adopt(head, last, ns, other.Contents);
      } else {
        Adopt(null, null, [], []);
      }
      size := other.size;
    }

    /** The copy assignment: self-assignment leaves the queue alone;
        otherwise the queue becomes a copy of `other`. */
    method CopyAssign(other: Queue<T>)
      requires Linked() && other.Linked()
      modifies this
      ensures this == other ==> Contents == old(Contents) && size == old(size) && Repr == old(Repr)
      ensures Linked() && Contents == old(other.Contents) && size == old(other.size)
      ensures this != other ==> fresh(Repr - {this})
    {
      if this != other {
        CopyFrom(other);
      }
    }

    /** Takes over the chain `ns` holding `xs`, from `f` to `b`, leaving
        the count alone. */
    method Adopt(f: Node?<T>, b: Node?<T>, ghost ns: seq<Node<T>>, ghost xs: seq<T>)
      requires Chain(ns, xs)
      requires ns == [] ==> f == null && b == null
      requires ns != [] ==> f == ns[0] && b == ns[|ns| - 1]
      modifies this
      ensures Linked() && nodes == ns && Contents == xs && size == old(size)
    {
      front, back := f, b;
      nodes, Contents := ns, xs;
      Repr := {this} + NodeSet(ns);
    }

    /** The move assignment: unless it is a self-assignment, the count of
        `other` is taken over and the two queues swap their chains, so
        `other` ends up with this queue's old elements but keeps its own
        count. */
    method MoveAssign(other: Queue<T>)
      requires Linked() && other.Linked()
      requires this == other || Repr !! other.Repr
      modifies this, other
      ensures this == other ==> Contents == old(Contents) && size == old(size)
      ensures this != other ==>
                && Contents == old(other.Contents) && size == old(other.size)
                && other.Contents == old(Contents) && other.size == old(other.size)
                && other.Linked() && Repr !! other.Repr
      ensures Linked()
    {
      if this != other {
        var f, b := front, back;
        ghost var ns, xs := nodes, Contents;
        size := other.size;
        Adopt(other.front, other.back, other.nodes, other.Contents);
        other.Adopt(f, b, ns, xs);
      }
    }
  }
}
