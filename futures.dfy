/**
  The two pieces of `core::future` / `core::task` the control plane touches:
  the outcome of one poll, the executor's waker, and the wrapped future itself.
  The wrapped computation is abstract: its n-th poll returns `outcome(n)`.
 */
module Futures {
  import opened Wrappers

  /** `core::task::Poll`. */
  datatype Poll<+T> = Pending | Ready(value: T)

  /** An executor waker, known only by its identity. */
  type WakerId = nat

  /** The future a Flow wraps. Only its poll count and the waker of its latest poll are observable. */
  class WrappedFuture<T> {
    /** What the wrapped computation answers on its n-th poll (n counted from 0). */
    const outcome: nat -> Poll<T>
    /** How many times this future has been polled. */
    var polls: nat
    /** The waker carried by the context of the latest poll. */
    var lastWaker: Option<WakerId>

    constructor (outcome: nat -> Poll<T>)
      ensures this.outcome == outcome
      ensures polls == 0 && lastWaker == None
    {
      this.outcome := outcome;
      polls := 0;
      lastWaker := None;
    }

    /** The answer the next poll will give. */
    function NextPoll(): Poll<T>
      reads this
    {
      outcome(polls)
    }

    /** `Future::poll` with a context built from waker `cx`. */
    method Poll(cx: WakerId) returns (p: Poll<T>)
      modifies this
      ensures p == old(NextPoll())
      ensures polls == old(polls) + 1 && lastWaker == Some(cx)
    {
      p := outcome(polls);
      polls := polls + 1;
      lastWaker := Some(cx);
    }
  }
}
