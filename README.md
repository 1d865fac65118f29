# flows control plane — a Dafny model

This project models the control plane of `flows`, a Rust library that wraps an
async computation (the *function*) so that an outside party (the *user*) can
pause, resume or cancel it, and so that the function can signal that it is
blocked waiting for input. It covers:

- the lifecycle state machine (`FlowState`, `FlowEvent`, `transition`, `exec`) — module `Handler`;
- the control resource `BaseController` (bounded event queue, waker cell,
  `send`, `consume`, `reset`) and its three role-restricted views
  (`FnController`, `UserController`, `FlowFutureController`) — module `Control`;
- the data mailbox (`DataChannel`, `FnDataHandle`, `UserDataHandle`) — module `Data`;
- the `Slot` that owns one control resource and one mailbox and hands out
  cross-wired handles and controllers — module `Slots`;
- the `Flow` future adapter that runs `consume` on every poll and stores the
  resulting state — module `Flows`.

Supporting modules: `Queues` models `heapless::mpmc::MpMcQueue` as a sequence of
at most `capacity` elements (enqueue at the back, fails when full; dequeue from
the front), with spec functions `Enqueued`, `Dequeued` and the FIFO lemmas;
`Futures` models `core::task::Poll`, the executor waker (`WakerId`, compared by
identity) and the wrapped future as an object whose n-th poll answers
`outcome(n)` and which counts its polls; `Wrappers` holds `Option` and `Result`.

Everything is modelled sequentially. The waker cell (`AtomicWaker`) is a field
`registered` holding the waker of the latest `consume`, plus a log `woken` of
every waker notified by `send`. Shared references (`&'static`) are Dafny object
references: the controllers and data handles are datatypes holding references
to the slot's objects, so they carry no state of their own.

The central specification is `Control.Drain`, the left fold of
`Handler.Transition` over a batch of events in FIFO order. `consume` is proved
to return `Drain(current, queued events)`, and `Flow.Poll` to store it.

Behaviours of the code that a caller might not expect, modelled as written:

- `UserController::{pause, resume, cancel, invoke}` have return type `Result<()>`
  but never return `Err`: the result of `send` is discarded, so an event refused
  by a full queue is lost without notice (crates/flows-core/src/core/control.rs:128-150).
- `FnDataHandle::push` / `UserDataHandle::push` discard the result of `enqueue`,
  so a value pushed into a full queue is dropped without notice
  (crates/flows-core/src/core/data.rs:36, 55).
- `consume` drains the queue first and registers the waker afterwards
  (crates/flows-core/src/core/control.rs:59-71).

## Model

| member | source | states |
|---|---|---|
| Handler.Transition | crates/flows-core/src/core/handler.rs:55-79 | Total over all 6×5 pairs; terminal states absorb every event; Cancel from any live state gives Cancelled; Completed and Error are never entered from another state; Paused is entered only from Running by Pause, Blocked only from Running by Block, Running only from Paused by Resume or Blocked by Invoke |
| Handler.PauseResumeRoundTrip | crates/flows-core/src/core/handler.rs:66-71 | Running + Pause gives Paused, and Paused + Resume gives Running again |
| Handler.BlockInvokeRoundTrip | crates/flows-core/src/core/handler.rs:68-75 | Running + Block gives Blocked, and Blocked + Invoke(x) gives Running for every payload x |
| Handler.UnlistedPairsUnchanged | crates/flows-core/src/core/handler.rs:77-78 | Any non-Cancel event outside the four listed edges leaves the state unchanged |
| Handler.Exec | crates/flows-core/src/core/handler.rs:91-102 | Polls the wrapped future once, with the given waker, and returns its answer iff the state is Running; otherwise returns Pending and leaves the future untouched |
| Control.Drain | crates/flows-core/src/core/control.rs:57-69 | The fold of transitions over a batch: a terminal starting state is kept, and the result is Completed or Error only if it started there |
| Control.DrainAppend | crates/flows-core/src/core/control.rs:59-60 | Draining a + b equals draining b from the state reached by draining a, so events sent later are applied after those already queued |
| Control.CancelInBatchWins | crates/flows-core/src/core/control.rs:59-65 | A Cancel anywhere in a drained batch leaves every not Completed/Error flow Cancelled, overriding Pause, Block or Invoke before or after it |
| Control.BaseController.constructor | crates/flows-core/src/core/control.rs:18-26 | A fresh controller has an empty event queue of the given capacity, no registered waker and no wakes |
| Control.BaseController.Reset | crates/flows-core/src/core/control.rs:28-33 | Dequeues until the queue is empty; the registered waker is left in place |
| Control.BaseController.Send | crates/flows-core/src/core/control.rs:37-46 | With room: appends the event, wakes the registered waker, answers Ok. Full: answers Err with the same event, queue and wakes unchanged |
| Control.BaseController.Consume | crates/flows-core/src/core/control.rs:51-81 | Returns Drain(current, queued events), empties the queue, registers the supplied waker, and polls the future exactly when that state is Running (Pending and future untouched otherwise) |
| Control.FnController.Block | crates/flows-core/src/core/control.rs:98-99 | Sends Fn(Block) through the shared controller with Send's effect; the send result is discarded |
| Control.UserController.Pause | crates/flows-core/src/core/control.rs:128-131 | Sends Pause with Send's effect and answers Ok(()) even when the queue was full |
| Control.UserController.Resume | crates/flows-core/src/core/control.rs:134-137 | Sends Resume with Send's effect and answers Ok(()) even when the queue was full |
| Control.UserController.Cancel | crates/flows-core/src/core/control.rs:140-143 | Sends Cancel with Send's effect and answers Ok(()) even when the queue was full |
| Control.UserController.Invoke | crates/flows-core/src/core/control.rs:146-150 | Sends Invoke(input) with Send's effect and answers Ok(()) even when the queue was full |
| Control.FlowFutureController.Consume | crates/flows-core/src/core/control.rs:164-171 | Same contract as BaseController.Consume on the shared controller |
| Queues.EnqueuedAllKeepsWhatFits | crates/flows-core/src/core/data.rs:35-37 | Pushing a batch keeps exactly the leading values that fit, in order, behind the queued ones; the rest are dropped and the length never exceeds the capacity |
| Queues.ReceivedIsPrefix | crates/flows-core/src/core/data.rs:39-41 | n successive receives return the first n queued values, oldest first, stopping at None when the queue runs dry |
| Queues.Fifo | crates/flows-core/src/core/data.rs:35-41 | Values pushed into an empty queue are received in the order they were pushed (as many as fit) |
| Data.DataChannel.constructor | crates/flows-core/src/core/data.rs:9-16 | Both data queues start empty with the same capacity |
| Data.DataChannel.Reset | crates/flows-core/src/core/data.rs:18-23 | Drains user_data then fn_data; both end empty and within capacity |
| Data.FnDataHandle.Push | crates/flows-core/src/core/data.rs:35-37 | Appends to fn_data when there is room, otherwise drops the value with no report; the queue the handle reads is unchanged |
| Data.FnDataHandle.Recv | crates/flows-core/src/core/data.rs:39-41 | None on an empty user_data; otherwise returns and removes its oldest value; fn_data unchanged |
| Data.UserDataHandle.Push | crates/flows-core/src/core/data.rs:54-56 | Appends to user_data when there is room, otherwise drops the value with no report; the queue the handle reads is unchanged |
| Data.UserDataHandle.Recv | crates/flows-core/src/core/data.rs:58-60 | None on an empty fn_data; otherwise returns and removes its oldest value; user_data unchanged |
| Slots.Slot.constructor | crates/flows-core/src/core/slot.rs:12-21 | A default slot has an empty event queue, two empty data queues, no registered waker, and three distinct queues |
| Slots.Slot.Reset | crates/flows-core/src/core/slot.rs:23-30 | Empties the event queue and both data queues; the registered waker stays |
| Slots.Slot.Handles | crates/flows-core/src/core/slot.rs:35-42 | The function handle pushes into fn_data and reads user_data; the user handle's producer is the function handle's consumer and vice versa; nothing is modified |
| Slots.Slot.Ctrls | crates/flows-core/src/core/slot.rs:44-57 | All three controllers refer to the slot's one BaseController; nothing is modified |
| Slots.CrossWiredDelivery | crates/flows-core/src/core/slot.rs:38-41 | Starting from empty data queues of capacity above 0, a value pushed through the function handle is what the user handle receives, and the other way round |
| Slots.UserPauseReachesConsume | crates/flows-core/src/core/slot.rs:52-56 | A Pause sent through the user controller is applied by the next consume through the future-adapter controller, after the events already queued; a running flow then is not running and its future is not polled |
| Flows.Flow.constructor | crates/flows-core/src/core/flow.rs:22-28 | A new flow wraps the given future and controller, starts in Running, and is ready to poll |
| Flows.Flow.Poll | crates/flows-core/src/core/flow.rs:38-47 | The stored state becomes Drain(old state, queued events); the inner future is polled at most once, only when that state is Running, with the flow's own waker; polling wakes nobody; a Cancelled flow stays Cancelled and answers Pending; an idle poll of a Running flow keeps Running and returns exactly the inner future's answer |

## Left out

- `transient_exec` (crates/flows-core/src/core/handler.rs:82-89): its body is an empty match, so it has no effect to model.
- `FnController::yield_now` and `FnController::delay_ms`, and the `runtime` reference they use: they only delegate to the runtime backend.
- Control.FnController.Block: models only the Block send; the source then stops with `todo!()` instead of returning, and the intended rendezvous with a later Invoke payload does not exist.
- The `FlowEventHandler` value inside `BaseController`: it has no fields, so the state machine is the module-level functions of `Handler`.
- Concurrency: the lock-free internals and memory ordering of `MpMcQueue` and `AtomicWaker`, concurrent producers, and the lost-wakeup window between the final drain and the waker registration in `consume` are not modelled; every operation runs atomically and in sequence.
- The source of `AtomicWaker` (core/waker.rs) is not part of this model: `wake` is modelled as notifying the registered waker, if any, and keeping it registered.
- The capacity rules that `heapless` imposes on `N` (a power of two) are not modelled; any natural-number capacity is allowed.
- The `println!` trace in `consume`: it is output only.
- The pin projection in `Flow::poll`: memory-safety plumbing with no behaviour of its own.
- The `anyhow::Error` of the user operations is a string; it is never produced.
- The runtime backends (crates/flows-core/src/runtime/), the module re-exports (core/mod.rs) and the example programs are outside the control plane.
