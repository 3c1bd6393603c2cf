/**
 * The FIFO queue of queue.c: a singly linked list of nodes with head and
 * tail pointers, the current length `size`, the number of removals ever made
 * `visitedCount` and a turn counter `currentTurn` that is bumped on every
 * removal and never read. The process-wide singleton becomes one instance
 * of the class; the mutex and condition variable are not modelled.
 */
module FifoQueue {
  import opened Wrappers

  /** One cell of the list: an opaque item and the link to the next cell. */
  class Node<T> {
    var data: T
    var next: Node?<T>

    constructor (item: T)
      ensures data == item && next == null
    {
      data := item;
      next := null;
    }
  }

  /** `s` is a list of distinct nodes, each linked to the next, carrying `c`. */
  ghost predicate Chain<T>(s: seq<Node<T>>, c: seq<T>)
    reads s
  {
    |s| == |c| &&
    (forall i :: 0 <= i < |s| ==> s[i].data == c[i]) &&
    (forall i :: 0 <= i < |s| - 1 ==> s[i].next == s[i + 1]) &&
    (forall i, j :: 0 <= i < j < |s| ==> s[i] != s[j])
  }

  /** Unlinking the first node of a chain leaves a chain of the rest. */
  lemma ChainRest<T>(s: seq<Node<T>>, c: seq<T>)
    requires Chain(s, c) && s != []
    ensures Chain(s[1..], c[1..])
    ensures s[0] !in s[1..]
    ensures |s| > 1 ==> s[0].next == s[1]
  {
    forall k | 0 <= k < |s| - 1
      ensures s[1..][k] == s[k + 1] && s[k + 1] != s[0]
    {
    }
  }

  /** Linking a fresh node after the last one extends the chain. */
  lemma ChainSnoc<T>(s: seq<Node<T>>, c: seq<T>, n: Node<T>, x: T)
    requires Chain(s, c) && n !in s && n.data == x
    requires s != [] ==> s[|s| - 1].next == n
    ensures Chain(s + [n], c + [x])
  {
  }

  /** The walk of destroyQueue: starting from `first`, follow `next` links
      until null, releasing each node after stepping past it. Over a
      null-terminated chain the nodes released are exactly the chain's, each
      once and in list order. */
  method FreeChain<T>(first: Node?<T>, ghost s: seq<Node<T>>, ghost c: seq<T>) returns (freed: seq<Node<T>>)
    requires Chain(s, c)
    requires first == if s == [] then null else s[0]
    requires s != [] ==> s[|s| - 1].next == null
    ensures freed == s
  {
    var current := first;
    ghost var i := 0;
    freed := [];
    while current != null
      invariant 0 <= i <= |s| && freed == s[..i]
      invariant current == if i < |s| then s[i] else null
      decreases |s| - i
    {
      var temp := current;
      current := current.next;
      // free(temp): the node leaves the list
      freed, i := freed + [temp], i + 1;
    }
    assert s[..i] == s;
  }

  class Queue<T> {
    // concrete state, as in the C struct
    var head: Node?<T>
    var tail: Node?<T>
    var visitedCount: nat
    var size: nat
    var currentTurn: nat

    // abstract view
    ghost var contents: seq<T>     // items from head to tail
    ghost var spine: seq<Node<T>>  // the nodes the queue owns, from head to tail
    ghost var enqueued: seq<T>     // every item ever enqueued, in order
    ghost var dequeued: seq<T>     // every item ever removed, in order

    /** The list structure: head and tail delimit a null-terminated chain of
        distinct nodes that carries exactly `contents`. */
    ghost predicate Linked()
      reads this, spine
    {
      Chain(spine, contents) &&
      (spine == [] ==> head == null && tail == null) &&
      (spine != [] ==> head == spine[0] && tail == spine[|spine| - 1] && tail.next == null)
    }

    /** The counters: `size` is the length of the chain, `visitedCount` and
        `currentTurn` the number of removals, and every item ever enqueued has
        either been removed (in order) or is still pending (in order). */
    ghost predicate Counted()
      reads this
    {
      size == |contents| &&
      visitedCount == |dequeued| &&
      currentTurn == visitedCount &&
      enqueued == dequeued + contents
    }

    ghost predicate Valid()
      reads this, spine
    {
      Linked() && Counted()
    }

    /** The structural invariant in queue.c's terms. */
    lemma Shape()
      requires Valid()
      ensures (head == null) == (tail == null) == (size == 0)
      ensures tail != null ==> tail.next == null
      ensures head != null ==> head.data == contents[0]
      ensures size + visitedCount == |enqueued|
    {
    }

    /** initQueue: an empty list with all counters at zero. */
    constructor ()
      ensures Valid()
      ensures head == null && tail == null
      ensures size == 0 && visitedCount == 0 && currentTurn == 0
      ensures contents == [] && spine == []
      ensures enqueued == [] && dequeued == []
    {
      head, tail := null, null;
      visitedCount, size, currentTurn := 0, 0, 0;
      contents, spine := [], [];
      enqueued, dequeued := [], [];
    }

    /** enqueue: a fresh node holding `item`, with no successor, is linked
        after the tail (or becomes the head of an empty list). */
    method Enqueue(item: T)
      requires Valid()
      modifies this, tail
      ensures Valid()
      ensures contents == old(contents) + [item]
      ensures size == old(size) + 1
      ensures visitedCount == old(visitedCount) && currentTurn == old(currentTurn)
      ensures tail != null && fresh(tail) && tail.data == item && tail.next == null
      ensures old(tail) != null ==> old(tail).next == tail
      ensures head == if old(head) == null then tail else old(head)
      ensures spine == old(spine) + [tail]
      ensures enqueued == old(enqueued) + [item] && dequeued == old(dequeued)
    {
      var node := new Node(item);
      if tail != null {
        tail.next := node;
      } else {
        head := node;
      }
      ChainSnoc(spine, contents, node, item);
      tail := node;
      size := size + 1;
      contents, spine := contents + [item], spine + [node];
      enqueued := enqueued + [item];
    }

    /** The removal shared by dequeue and tryDequeue: unlink the head node,
        clear the tail when the list becomes empty, drop the node from the
        spine (free) and bump both removal counters. */
    method Unlink() returns (item: T)
      requires Valid() && contents != []
      modifies this
      ensures Valid()
      ensures item == old(contents)[0] && contents == old(contents)[1..]
      ensures size == old(size) - 1
      ensures visitedCount == old(visitedCount) + 1 && currentTurn == old(currentTurn) + 1
      ensures head == old(head.next)
      ensures tail == if head == null then null else old(tail)
      ensures spine == old(spine)[1..]
      ensures enqueued == old(enqueued) && dequeued == old(dequeued) + [item]
    {
      var node := head;
      ChainRest(spine, contents);
      head := node.next;
      if head == null {
        tail := null;
      }
      item := node.data;
      size := size - 1;
      visitedCount := visitedCount + 1;
      currentTurn := currentTurn + 1;
      ghost var before := contents;
      contents, spine := contents[1..], spine[1..];
      dequeued := dequeued + [item];
      assert before == [item] + contents;
    }

    /** dequeue: blocking removal from the head. A single caller can only
        return once the queue is non-empty, which is required here. */
    method Dequeue() returns (item: T)
      requires Valid() && contents != []
      modifies this
      ensures Valid()
      ensures item == old(contents)[0] && contents == old(contents)[1..]
      ensures size == old(size) - 1
      ensures visitedCount == old(visitedCount) + 1 && currentTurn == old(currentTurn) + 1
      ensures head == old(head.next)
      ensures tail == if head == null then null else old(tail)
      ensures spine == old(spine)[1..]
      ensures enqueued == old(enqueued) && dequeued == old(dequeued) + [item]
    {
      item := Unlink();
    }

    /** tryDequeue: `None` (false) on an empty queue, which changes nothing;
        otherwise `Some` of the old head item, removed as by dequeue. */
    method TryDequeue() returns (r: Option<T>)
      requires Valid()
      modifies this
      ensures Valid()
      ensures r.None? <==> old(contents) == []
      ensures r.None? ==> unchanged(this)
      ensures r.Some? ==>
        r.value == old(contents)[0] && contents == old(contents)[1..] &&
        size == old(size) - 1 &&
        visitedCount == old(visitedCount) + 1 && currentTurn == old(currentTurn) + 1 &&
        head == old(head.next) && tail == (if head == null then null else old(tail)) &&
        spine == old(spine)[1..] &&
        enqueued == old(enqueued) && dequeued == old(dequeued) + [r.value]
    {
      if head == null {
        return None;
      }
      var item := Unlink();
      r := Some(item);
    }

    /** visited: the number of items removed so far. */
    method Visited() returns (n: nat)
      requires Valid()
      ensures n == |dequeued| && n == |enqueued| - |contents|
    {
      n := visitedCount;
    }

    /** size: the number of items currently queued. */
    method Size() returns (n: nat)
      requires Valid()
      ensures n == |contents| && n == |enqueued| - |dequeued|
    {
      n := size;
    }

    /** destroyQueue: walk the chain from head, freeing every node exactly
        once in list order, then clear head and tail. As in queue.c,
        `size`, `visitedCount` and `currentTurn` are left as they were, so
        the full invariant survives only when the queue was already empty. */
    method Destroy() returns (ghost freed: seq<Node<T>>)
      requires Valid()
      modifies this
      ensures freed == old(spine)
      ensures head == null && tail == null
      ensures contents == [] && spine == [] && Linked()
      ensures size == old(size) && visitedCount == old(visitedCount) && currentTurn == old(currentTurn)
      ensures enqueued == old(enqueued) && dequeued == old(dequeued)
      ensures Valid() <==> old(contents) == []
    {
      freed := FreeChain(head, spine, contents);
      head, tail := null, null;
      spine, contents := [], [];
      assert Linked();
    }
  }
}
