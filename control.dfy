/**
  The control resource shared by all controllers of one Flow: a bounded FIFO of
  events, the waker-coordination cell, and the state machine. `consume` drains
  the queue through `Transition`, registers the poller's waker and applies the
  execution policy; `send` enqueues and wakes. Three role-restricted views sit
  on top of it.

  The waker cell is modelled sequentially: `registered` is the waker it holds
  and `woken` lists, in order, every waker it has woken.
 */
module Control {
  import opened Wrappers
  import opened Futures
  import opened Queues
  import opened Handler

  /** The state reached by applying `Transition` to each event, front first. */
  function Drain<U>(current: FlowState, events: seq<FlowEvent<U>>): (final: FlowState)
    // a terminal state absorbs the whole batch
    ensures IsTerminal(current) ==> final == current
    // a batch never leads into Completed or Error
    ensures final.Completed? || final.Error? ==> final == current
    decreases |events|
  {
    if events == [] then current else Drain(Transition(current, events[0]), events[1..])
  }

  /** Draining two batches one after the other is draining their concatenation. */
  lemma {:induction false} DrainAppend<U>(s: FlowState, a: seq<FlowEvent<U>>, b: seq<FlowEvent<U>>)
    ensures Drain(s, a + b) == Drain(Drain(s, a), b)
    decreases |a|
  {
    if a == [] {
      assert a + b == b;
    } else {
      assert (a + b)[0] == a[0] && (a + b)[1..] == a[1..] + b;
      DrainAppend(Transition(s, a[0]), a[1..], b);
    }
  }

  /**
    A Cancel anywhere in a batch wins: whatever Pause, Block or Invoke comes
    before or after it, a flow that was not Completed or Error ends Cancelled.
   */
  lemma {:induction false} CancelInBatchWins<U>(s: FlowState, events: seq<FlowEvent<U>>, k: nat)
    requires !s.Completed? && !s.Error?
    requires k < |events| && IsCancel(events[k])
    ensures Drain(s, events) == Cancelled
    decreases k
  {
    var next := Transition(s, events[0]);
    if k > 0 {
      CancelInBatchWins(next, events[1..], k - 1);
    }
  }

  /** What `AtomicWaker::wake` notifies: the registered waker, if there is one. */
  function WakeTargets(registered: Option<WakerId>): seq<WakerId>
  {
    match registered
    case None => []
    case Some(w) => [w]
  }

  /** `BaseController`: the event queue, the waker cell and the state machine of one slot. */
  class BaseController<U> {
    const channel: Queue<FlowEvent<U>>
    /** The waker the latest `consume` registered. */
    var registered: Option<WakerId>
    /** Every waker notified by `send`, oldest first. */
    var woken: seq<WakerId>

    predicate Valid()
      reads this, channel
    {
      channel.Valid()
    }

    /** `BaseController::default`: empty queue, no waker registered. */
    constructor (capacity: nat)
      ensures Valid() && fresh(channel)
      ensures channel.items == [] && channel.capacity == capacity
      ensures registered == None && woken == []
    {
      channel := new Queue(capacity);
      registered := None;
      woken := [];
    }

    /** `Reset::reset`: dequeues until the queue is empty; the registered waker stays. */
    method Reset()
      requires Valid()
      modifies channel
      ensures Valid() && channel.items == []
      ensures registered == old(registered) && woken == old(woken)
    {
      var ev := channel.Dequeue();
      while ev.Some?
        invariant Valid()
        invariant ev.None? ==> channel.items == []
        decreases |channel.items|, ev.Some?
      {
        ev := channel.Dequeue();
      }
    }

    /**
      `send`: on room, appends the event, wakes the registered waker and answers
      `Ok`; on a full queue hands the same event back and changes nothing.
     */
    method Send(item: FlowEvent<U>) returns (r: Result<(), FlowEvent<U>>)
      requires Valid()
      modifies this, channel
      ensures Valid()
      ensures |old(channel.items)| < channel.capacity ==>
                r == Ok(()) && channel.items == old(channel.items) + [item] &&
                woken == old(woken) + WakeTargets(registered)
      ensures |old(channel.items)| == channel.capacity ==>
                r == Err(item) && channel.items == old(channel.items) && woken == old(woken)
      ensures registered == old(registered)
    {
      r := channel.Enqueue(item);
      match r {
        case Ok(_) =>
          woken := woken + WakeTargets(registered);
        case Err(_) =>
      }
    }

    /**
      `consume`: drains every queued event through `Transition` in FIFO order,
      registers `waker`, then polls `future` exactly when the final state is
      Running. Answers the final state and the poll result.
     */
    method Consume<T>(current: FlowState, future: WrappedFuture<T>, waker: WakerId)
      returns (next: FlowState, output: Poll<T>)
      requires Valid()
      modifies this, channel, future
      ensures Valid()
      ensures next == Drain(current, old(channel.items))
      ensures channel.items == []
      ensures registered == Some(waker) && woken == old(woken)
      ensures next.Running? ==> output == old(future.NextPoll())
      ensures next.Running? ==> future.polls == old(future.polls) + 1 && future.lastWaker == Some(waker)
      ensures !next.Running? ==> output == Pending && unchanged(future)
    {
      next := current;
      var ev := channel.Dequeue();
      while ev.Some?
        invariant Valid()
        invariant ev.Some? ==> Drain(Transition(next, ev.value), channel.items) == Drain(current, old(channel.items))
        invariant ev.None? ==> channel.items == [] && next == Drain(current, old(channel.items))
        invariant unchanged(this) && unchanged(future)
        decreases |channel.items|, ev.Some?
      {
        next := Transition(next, ev.value);
        ev := channel.Dequeue();
      }
      registered := Some(waker);
      output := Exec(next, future, waker);
    }
  }

  /** `FnController`: the function's view; of the control plane it may only send Block. */
  datatype FnController<U> = FnController(inner: BaseController<U>)
  {
    /** The send at the start of `block`; its result is discarded. */
    method Block()
      requires inner.Valid()
      modifies inner, inner.channel
      ensures inner.Valid()
      ensures inner.channel.items == Enqueued(old(inner.channel.items), inner.channel.capacity, Fn(FnControlEvent.Block))
      ensures inner.registered == old(inner.registered)
      ensures inner.woken == old(inner.woken) + (if |old(inner.channel.items)| < inner.channel.capacity then WakeTargets(inner.registered) else [])
    {
      var _ := inner.Send(Fn(FnControlEvent.Block));
    }
  }

  /**
    `UserController`: the user's view. Each operation sends its event and
    answers `Ok(())` whether or not the queue had room.
   */
  datatype UserController<U> = UserController(inner: BaseController<U>)
  {
    method Pause() returns (r: Result<(), string>)
      requires inner.Valid()
      modifies inner, inner.channel
      ensures inner.Valid() && r == Ok(())
      ensures inner.channel.items == Enqueued(old(inner.channel.items), inner.channel.capacity, User(UserControlEvent.Pause))
      ensures inner.registered == old(inner.registered)
      ensures inner.woken == old(inner.woken) + (if |old(inner.channel.items)| < inner.channel.capacity then WakeTargets(inner.registered) else [])
    {
      var _ := inner.Send(User(UserControlEvent.Pause));
      r := Ok(());
    }

    method Resume() returns (r: Result<(), string>)
      requires inner.Valid()
      modifies inner, inner.channel
      ensures inner.Valid() && r == Ok(())
      ensures inner.channel.items == Enqueued(old(inner.channel.items), inner.channel.capacity, User(UserControlEvent.Resume))
      ensures inner.registered == old(inner.registered)
      ensures inner.woken == old(inner.woken) + (if |old(inner.channel.items)| < inner.channel.capacity then WakeTargets(inner.registered) else [])
    {
      var _ := inner.Send(User(UserControlEvent.Resume));
      r := Ok(());
    }

    method Cancel() returns (r: Result<(), string>)
      requires inner.Valid()
      modifies inner, inner.channel
      ensures inner.Valid() && r == Ok(())
      ensures inner.channel.items == Enqueued(old(inner.channel.items), inner.channel.capacity, User(UserControlEvent.Cancel))
      ensures inner.registered == old(inner.registered)
      ensures inner.woken == old(inner.woken) + (if |old(inner.channel.items)| < inner.channel.capacity then WakeTargets(inner.registered) else [])
    {
      var _ := inner.Send(User(UserControlEvent.Cancel));
      r := Ok(());
    }

    method Invoke(input: U) returns (r: Result<(), string>)
      requires inner.Valid()
      modifies inner, inner.channel
      ensures inner.Valid() && r == Ok(())
      ensures inner.channel.items == Enqueued(old(inner.channel.items), inner.channel.capacity, User(UserControlEvent.Invoke(input)))
      ensures inner.registered == old(inner.registered)
      ensures inner.woken == old(inner.woken) + (if |old(inner.channel.items)| < inner.channel.capacity then WakeTargets(inner.registered) else [])
    {
      var _ := inner.Send(User(UserControlEvent.Invoke(input)));
      r := Ok(());
    }
  }

  /** `FlowFutureController`: the Flow adapter's view; it may only consume. */
  datatype FlowFutureController<U> = FlowFutureController(inner: BaseController<U>)
  {
    method Consume<T>(current: FlowState, future: WrappedFuture<T>, waker: WakerId)
      returns (next: FlowState, output: Poll<T>)
      requires inner.Valid()
      modifies inner, inner.channel, future
      ensures inner.Valid()
      ensures next == Drain(current, old(inner.channel.items))
      ensures inner.channel.items == []
      ensures inner.registered == Some(waker) && inner.woken == old(inner.woken)
      ensures next.Running? ==> output == old(future.NextPoll())
      ensures next.Running? ==> future.polls == old(future.polls) + 1 && future.lastWaker == Some(waker)
      ensures !next.Running? ==> output == Pending && unchanged(future)
    {
      next, output := inner.Consume(current, future, waker);
    }
  }
}
