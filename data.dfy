/**
  The application-data mailbox between the function and the user: two bounded
  queues, one per direction, and the two handles that push into one of them and
  receive from the other. Pushing into a full queue drops the value without
  telling anyone.
 */
module Data {
  import opened Wrappers
  import opened Queues

  /** `DataChannel`: user-to-function and function-to-user queues of one capacity. */
  class DataChannel<UD, FD> {
    const userData: Queue<UD>
    const fnData: Queue<FD>

    predicate Valid()
      reads this, userData, fnData
    {
      userData.Valid() && fnData.Valid() && userData as object != fnData as object
    }

    /** `DataChannel::default`: both queues empty. */
    constructor (capacity: nat)
      ensures Valid() && fresh(userData) && fresh(fnData)
      ensures userData.items == [] && fnData.items == []
      ensures userData.capacity == capacity && fnData.capacity == capacity
    {
      userData := new Queue(capacity);
      fnData := new Queue(capacity);
    }

    /** `Reset::reset`: drains `user_data`, then `fn_data`. */
    method Reset()
      requires Valid()
      modifies userData, fnData
      ensures Valid()
      ensures userData.items == [] && fnData.items == []
    {
      var u := userData.Dequeue();
      while u.Some?
        invariant Valid()
        invariant fnData.items == old(fnData.items)
        invariant u.None? ==> userData.items == []
        decreases |userData.items|, u.Some?
      {
        u := userData.Dequeue();
      }
      var f := fnData.Dequeue();
      while f.Some?
        invariant Valid() && userData.items == []
        invariant f.None? ==> fnData.items == []
        decreases |fnData.items|, f.Some?
      {
        f := fnData.Dequeue();
      }
    }
  }

  /** `FnDataHandle`: the function pushes into `fn_data` and receives from `user_data`. */
  datatype FnDataHandle<UD, FD> = FnDataHandle(producer: Queue<FD>, consumer: Queue<UD>)
  {
    predicate Valid()
      reads producer, consumer
    {
      producer.Valid() && consumer.Valid() && producer as object != consumer as object
    }

    /** Appends `data` when there is room; on a full queue the value is lost and nothing is reported. */
    method Push(data: FD)
      requires Valid()
      modifies producer
      ensures Valid()
      ensures producer.items == Enqueued(old(producer.items), producer.capacity, data)
      ensures consumer.items == old(consumer.items)
    {
      var _ := producer.Enqueue(data);
    }

    /** Takes the oldest value from the consumer queue, or `None` when it is empty. */
    method Recv() returns (r: Option<UD>)
      requires Valid()
      modifies consumer
      ensures Valid()
      ensures (r, consumer.items) == Dequeued(old(consumer.items))
      ensures producer.items == old(producer.items)
    {
      r := consumer.Dequeue();
    }
  }

  /** `UserDataHandle`: the user pushes into `user_data` and receives from `fn_data`. */
  datatype UserDataHandle<UD, FD> = UserDataHandle(producer: Queue<UD>, consumer: Queue<FD>)
  {
    predicate Valid()
      reads producer, consumer
    {
      producer.Valid() && consumer.Valid() && producer as object != consumer as object
    }

    /** Appends `data` when there is room; on a full queue the value is lost and nothing is reported. */
    method Push(data: UD)
      requires Valid()
      modifies producer
      ensures Valid()
      ensures producer.items == Enqueued(old(producer.items), producer.capacity, data)
      ensures consumer.items == old(consumer.items)
    {
      var _ := producer.Enqueue(data);
    }

    /** Takes the oldest value from the consumer queue, or `None` when it is empty. */
    method Recv() returns (r: Option<FD>)
      requires Valid()
      modifies consumer
      ensures Valid()
      ensures (r, consumer.items) == Dequeued(old(consumer.items))
      ensures producer.items == old(producer.items)
    {
      r := consumer.Dequeue();
    }
  }
}
