/**
  The bounded multi-producer/multi-consumer queue every channel of the control
  plane and of the data mailbox is built on (`heapless::mpmc::MpMcQueue<T, N>`).
  It is modelled sequentially: a sequence of at most `capacity` elements,
  enqueued at the back and dequeued from the front.
 */
module Queues {
  import opened Wrappers

  function Min(a: nat, b: nat): nat
  {
    if a <= b then a else b
  }

  /** The contents after one enqueue of `x`: appended when there is room, unchanged when full. */
  function Enqueued<T>(items: seq<T>, capacity: nat, x: T): seq<T>
  {
    if |items| < capacity then items + [x] else items
  }

  /** One dequeue: the front element and the rest, or nothing when empty. */
  function Dequeued<T>(items: seq<T>): (Option<T>, seq<T>)
  {
    if items == [] then (None, []) else (Some(items[0]), items[1..])
  }

  /** The contents after enqueueing every element of `xs`, in order. */
  function EnqueuedAll<T>(items: seq<T>, capacity: nat, xs: seq<T>): seq<T>
    decreases |xs|
  {
    if xs == [] then items else EnqueuedAll(Enqueued(items, capacity, xs[0]), capacity, xs[1..])
  }

  /** The values returned by `n` successive dequeues (a `None` ends the run). */
  function Received<T>(items: seq<T>, n: nat): seq<T>
    decreases n
  {
    if n == 0 then []
    else match Dequeued(items)
      case (None, _) => []
      case (Some(v), rest) => [v] + Received(rest, n - 1)
  }

  /**
    Enqueueing a batch keeps exactly the elements that fit, in their order, behind
    what was already queued; everything after the first rejection is dropped too,
    and the bound holds throughout.
   */
  lemma {:induction false} EnqueuedAllKeepsWhatFits<T>(items: seq<T>, capacity: nat, xs: seq<T>)
    requires |items| <= capacity
    ensures EnqueuedAll(items, capacity, xs) == items + xs[..Min(|xs|, capacity - |items|)]
    ensures |EnqueuedAll(items, capacity, xs)| <= capacity
    decreases |xs|
  {
    if xs != [] {
      var next := Enqueued(items, capacity, xs[0]);
      EnqueuedAllKeepsWhatFits(next, capacity, xs[1..]);
      if |items| < capacity {
        var k := Min(|xs|, capacity - |items|);
        assert xs[1..][..k - 1] == xs[1..k];
        assert items + [xs[0]] + xs[1..k] == items + xs[..k];
      }
    }
  }

  /** Successive dequeues return the queued elements front first. */
  lemma {:induction false} ReceivedIsPrefix<T>(items: seq<T>, n: nat)
    ensures Received(items, n) == items[..Min(n, |items|)]
    decreases n
  {
    if n > 0 && items != [] {
      ReceivedIsPrefix(items[1..], n - 1);
      assert [items[0]] + items[1..][..Min(n - 1, |items| - 1)] == items[..Min(n, |items|)];
    }
  }

  /** FIFO: what fits into an empty queue comes back out in the order it went in. */
  lemma Fifo<T>(capacity: nat, xs: seq<T>)
    ensures Received(EnqueuedAll([], capacity, xs), |xs|) == xs[..Min(|xs|, capacity)]
  {
    EnqueuedAllKeepsWhatFits([], capacity, xs);
    ReceivedIsPrefix(EnqueuedAll([], capacity, xs), |xs|);
  }

  /** A fixed-capacity queue, shared by reference between its producers and consumers. */
  class Queue<T> {
    var items: seq<T>
    const capacity: nat

    /** The queue never holds more than its capacity. */
    predicate Valid()
      reads this
    {
      |items| <= capacity
    }

    constructor (capacity: nat)
      ensures Valid()
      ensures items == [] && this.capacity == capacity
    {
      items := [];
      this.capacity := capacity;
    }

    /** Appends `x` when there is room; on a full queue hands `x` back and changes nothing. */
    method Enqueue(x: T) returns (r: Result<(), T>)
      requires Valid()
      modifies this
      ensures Valid()
      ensures items == Enqueued(old(items), capacity, x)
      ensures r == if |old(items)| < capacity then Ok(()) else Err(x)
    {
      if |items| < capacity {
        items := items + [x];
        r := Ok(());
      } else {
        r := Err(x);
      }
    }

    /** Removes and returns the oldest element, or `None` when the queue is empty. */
    method Dequeue() returns (r: Option<T>)
      requires Valid()
      modifies this
      ensures Valid()
      ensures (r, items) == Dequeued(old(items))
    {
      if items == [] {
        r := None;
      } else {
        r := Some(items[0]);
        items := items[1..];
      }
    }
  }
}
