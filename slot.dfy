/**
  A Slot owns one control resource and one data mailbox. It hands out
  cross-wired data handles and the three controllers, all of which refer to
  the same control resource, and resets everything between uses.
 */
module Slots {
  import opened Wrappers
  import opened Futures
  import opened Queues
  import opened Handler
  import opened Control
  import opened Data

  class Slot<U, UD, FD> {
    const ctrl: BaseController<U>
    const data: DataChannel<UD, FD>

    /** Both parts are valid, and the event queue is neither of the data queues. */
    predicate Valid()
      reads this, ctrl, ctrl.channel, data, data.userData, data.fnData
    {
      && ctrl.Valid() && data.Valid()
      && ctrl.channel as object != data.userData as object
      && ctrl.channel as object != data.fnData as object
    }

    /** `Slot::default`: an empty event queue of capacity `chanN`, two empty data queues of capacity `dataN`. */
    constructor (chanN: nat, dataN: nat)
      ensures Valid() && fresh(ctrl) && fresh(ctrl.channel)
      ensures fresh(data) && fresh(data.userData) && fresh(data.fnData)
      ensures ctrl.channel.items == [] && ctrl.channel.capacity == chanN
      ensures data.userData.items == [] && data.fnData.items == []
      ensures data.userData.capacity == dataN && data.fnData.capacity == dataN
      ensures ctrl.registered == None && ctrl.woken == []
    {
      ctrl := new BaseController(chanN);
      data := new DataChannel(dataN);
    }

    /** `Reset::reset`: empties the event queue and both data queues; the registered waker stays. */
    method Reset()
      requires Valid()
      modifies ctrl.channel, data.userData, data.fnData
      ensures Valid()
      ensures ctrl.channel.items == [] && data.userData.items == [] && data.fnData.items == []
      ensures ctrl.registered == old(ctrl.registered)
    {
      ctrl.Reset();
      data.Reset();
    }

    /**
      `handles`: the function's handle pushes into `fn_data` and reads `user_data`;
      the user's handle is wired the other way round, so each one's producer is
      the other's consumer.
     */
    function Handles(): (h: (FnDataHandle<UD, FD>, UserDataHandle<UD, FD>))
      ensures h.0.producer == data.fnData && h.0.consumer == data.userData
      ensures h.1.producer == h.0.consumer && h.1.consumer == h.0.producer
    {
      (FnDataHandle(data.fnData, data.userData), UserDataHandle(data.userData, data.fnData))
    }

    /** `ctrls`: the function, future-adapter and user controllers, all over this slot's one control resource. */
    function Ctrls(): (c: (FnController<U>, FlowFutureController<U>, UserController<U>))
      ensures c.0.inner == ctrl && c.1.inner == ctrl && c.2.inner == ctrl
    {
      (FnController(ctrl), FlowFutureController(ctrl), UserController(ctrl))
    }
  }

  /**
    Cross-wiring: on empty data queues with room, what the function pushes is
    what the user receives, and the other way round.
   */
  method CrossWiredDelivery<U, UD, FD>(slot: Slot<U, UD, FD>, fromFn: FD, fromUser: UD)
    returns (atUser: Option<FD>, atFn: Option<UD>)
    requires slot.Valid()
    requires slot.data.userData.items == [] && slot.data.fnData.items == []
    requires slot.data.userData.capacity > 0 && slot.data.fnData.capacity > 0
    modifies slot.data.userData, slot.data.fnData
    ensures atUser == Some(fromFn) && atFn == Some(fromUser)
    ensures slot.data.userData.items == [] && slot.data.fnData.items == []
  {
    var (fnHandle, userHandle) := slot.Handles();
    fnHandle.Push(fromFn);
    userHandle.Push(fromUser);
    atUser := userHandle.Recv();
    atFn := fnHandle.Recv();
  }

  /**
    One shared control resource: a Pause sent through the user controller is
    applied, after whatever was already queued, by the next consume through the
    future-adapter controller. A flow that was running therefore ends up not
    running, and its future is not polled.
   */
  method UserPauseReachesConsume<U, UD, FD, T>(slot: Slot<U, UD, FD>, future: WrappedFuture<T>, waker: WakerId)
    returns (next: FlowState, output: Poll<T>)
    requires slot.Valid()
    requires |slot.ctrl.channel.items| < slot.ctrl.channel.capacity
    modifies slot.ctrl, slot.ctrl.channel, future
    ensures next == Drain(Running, old(slot.ctrl.channel.items) + [User(UserControlEvent.Pause)])
    ensures old(slot.ctrl.channel.items) == [] ==> next == Paused
    ensures !next.Running? && output == Pending && unchanged(future)
    ensures slot.ctrl.channel.items == []
  {
    var (_, flowCtrl, userCtrl) := slot.Ctrls();
    ghost var before := slot.ctrl.channel.items;
    var _ := userCtrl.Pause();
    next, output := flowCtrl.Consume(Running, future, waker);
    DrainAppend(Running, before, [User(UserControlEvent.Pause)]);
  }
}
