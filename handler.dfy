/**
  The lifecycle state machine of a Flow: its six states, the events that drive
  it, the total transition function, and the execution policy applied to the
  state left after a batch of events has been drained.
 */
module Handler {
  import opened Wrappers
  import opened Futures

  datatype FlowState = Running | Paused | Blocked | Cancelled | Completed | Error

  /** `FlowState::default`: a Flow starts out running. */
  const DefaultState: FlowState := Running

  datatype UserControlEvent<+U> = Pause | Resume | Invoke(input: U) | Cancel

  datatype FnControlEvent = Block

  datatype FlowEvent<+U> = User(user: UserControlEvent<U>) | Fn(fn: FnControlEvent)

  /** Cancelled, Completed and Error are terminal. */
  predicate IsTerminal(s: FlowState)
  {
    s.Cancelled? || s.Completed? || s.Error?
  }

  predicate IsCancel<U>(e: FlowEvent<U>)
  {
    e.User? && e.user.Cancel?
  }

  /** The four edges of the table besides cancellation. */
  predicate IsListedEdge<U>(s: FlowState, e: FlowEvent<U>)
  {
    || (s.Running? && e.User? && e.user.Pause?)
    || (s.Running? && e.Fn? && e.fn.Block?)
    || (s.Paused? && e.User? && e.user.Resume?)
    || (s.Blocked? && e.User? && e.user.Invoke?)
  }

  /**
    `FlowEventHandler::transition`. Total over every (state, event) pair; the
    postconditions give the table from the side of the state entered.
   */
  function Transition<U>(current: FlowState, event: FlowEvent<U>): (next: FlowState)
    // terminal states absorb every event
    ensures IsTerminal(current) ==> next == current
    // cancellation is honoured from every live state
    ensures !IsTerminal(current) && IsCancel(event) ==> next == Cancelled
    // no event leads into Completed or Error
    ensures next.Completed? || next.Error? ==> next == current
    // Paused is entered only from Running by Pause
    ensures next.Paused? && next != current ==> current.Running? && event.User? && event.user.Pause?
    // Blocked is entered only from Running by Block
    ensures next.Blocked? && next != current ==> current.Running? && event.Fn?
    // Running is entered only from Paused by Resume or from Blocked by Invoke
    ensures next.Running? && next != current ==>
              (current.Paused? && event.User? && event.user.Resume?) ||
              (current.Blocked? && event.User? && event.user.Invoke?)
  {
    match (current, event)
    case (Completed, _) => Completed
    case (Error, _) => Error
    case (Cancelled, _) => Cancelled
    case (_, User(Cancel)) => Cancelled
    case (Running, User(Pause)) => Paused
    case (Running, Fn(Block)) => Blocked
    case (Paused, User(Resume)) => Running
    case (Blocked, User(Invoke(_))) => Running
    case _ => current
  }

  /** Pausing a running flow and resuming it brings it back to Running. */
  lemma PauseResumeRoundTrip<U>()
    ensures Transition<U>(Running, User(Pause)) == Paused
    ensures Transition<U>(Transition<U>(Running, User(Pause)), User(Resume)) == Running
  {
  }

  /** Blocking a running flow and invoking it with any payload brings it back to Running. */
  lemma BlockInvokeRoundTrip<U>(x: U)
    ensures Transition<U>(Running, Fn(Block)) == Blocked
    ensures Transition<U>(Transition<U>(Running, Fn(Block)), User(Invoke(x))) == Running
  {
  }

  /** Every pair outside the table (Paused+Pause, Blocked+Resume, Running+Invoke, ...) changes nothing. */
  lemma UnlistedPairsUnchanged<U>(s: FlowState, e: FlowEvent<U>)
    requires !IsCancel(e) && !IsListedEdge(s, e)
    ensures Transition(s, e) == s
  {
  }

  /**
    `FlowEventHandler::exec` for the state left after draining: the wrapped
    future is polled, once, exactly when the state is Running; otherwise the
    answer is Pending and the future is not touched.
   */
  method Exec<T>(state: FlowState, future: WrappedFuture<T>, cx: WakerId) returns (p: Poll<T>)
    modifies future
    ensures state.Running? ==> p == old(future.NextPoll())
    ensures state.Running? ==> future.polls == old(future.polls) + 1 && future.lastWaker == Some(cx)
    ensures !state.Running? ==> p == Pending && unchanged(future)
  {
    match state {
      case Running =>
        p := future.Poll(cx);
      case _ =>
        p := Pending;
    }
  }
}
