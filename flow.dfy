/**
  The Flow adapter: a future that wraps another one. Every poll drains the
  pending control events through the state machine, stores the resulting state,
  and lets the wrapped future run only when that state is Running.
 */
module Flows {
  import opened Wrappers
  import opened Futures
  import opened Handler
  import opened Control

  class Flow<T, U> {
    const inner: WrappedFuture<T>
    const ctrl: FlowFutureController<U>
    var state: FlowState

    predicate Valid()
      reads this, ctrl.inner, ctrl.inner.channel
    {
      ctrl.inner.Valid()
    }

    /** `Flow::new`: wraps `future`; the flow starts in the default state, Running. */
    constructor (future: WrappedFuture<T>, ctrl: FlowFutureController<U>)
      requires ctrl.inner.Valid()
      ensures Valid()
      ensures inner == future && this.ctrl == ctrl
      ensures state == Running
    {
      inner := future;
      this.ctrl := ctrl;
      state := DefaultState;
    }

    /**
      `Future::poll` for a Flow polled with waker `cx`: the stored state becomes
      the state `consume` reaches from it, and the wrapped future is polled at
      most once, only when that state is Running.
     */
    method Poll(cx: WakerId) returns (output: Futures.Poll<T>)
      requires Valid()
      modifies this, inner, ctrl.inner, ctrl.inner.channel
      ensures Valid()
      ensures state == Drain(old(state), old(ctrl.inner.channel.items))
      ensures ctrl.inner.channel.items == [] && ctrl.inner.registered == Some(cx)
      ensures ctrl.inner.woken == old(ctrl.inner.woken)
      ensures state.Running? ==> output == old(inner.NextPoll()) && inner.polls == old(inner.polls) + 1
      ensures state.Running? ==> inner.lastWaker == Some(cx)
      ensures !state.Running? ==> output == Pending && unchanged(inner)
      // a cancelled flow stays cancelled and answers Pending, whatever was sent
      ensures old(state) == Cancelled ==> state == Cancelled && output == Pending
      // an idle poll of a running flow is exactly one poll of the wrapped future
      ensures old(state) == Running && old(ctrl.inner.channel.items) == [] ==>
                state == Running && output == old(inner.NextPoll())
      ensures inner.polls <= old(inner.polls) + 1
    {
      var current := state;
      var next, out := ctrl.Consume(current, inner, cx);
      state := next;
      output := out;
    }
  }
}
