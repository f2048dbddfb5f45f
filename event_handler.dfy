/**
  The wake/notify dispatcher (eventhandler/event_handler.go): two wait lists and
  the event that releases at most one live waiter from one of them. Sending on
  a waiter's channel is modelled as returning the signalled entry; the closed
  flags of the waiting connections are given as the set of closed ids.
*/
module EventHandling {
  import opened Types
  import opened EventQueue

  datatype EventType = Push | Pop

  datatype Event = Event(eventType: EventType, connection: ConnId)

  /** What one dispatch does to a wait list: the entry signalled, if any, and the list left behind. */
  datatype Dispatched = Dispatched(signalled: Option<QueueEntry>, remaining: seq<QueueEntry>)

  /**
    Removes entries from the front of q while their connection is closed and
    signals the first one whose connection is open. The entry signalled is open,
    every entry ahead of it was closed and is gone, and every entry behind it
    stays in order; when all are closed nothing is signalled and q ends empty.
  */
  function DequeueLive(q: seq<QueueEntry>, closed: set<ConnId>): (d: Dispatched)
    ensures match d.signalled
      case None =>
        && d.remaining == []
        && forall i | 0 <= i < |q| :: q[i].connection in closed
      case Some(e) =>
        var k := |q| - |d.remaining| - 1;
        && 0 <= k < |q|
        && q[k] == e
        && e.connection !in closed
        && q[k + 1..] == d.remaining
        && forall i | 0 <= i < k :: q[i].connection in closed
  {
    if q == [] then Dispatched(None, [])
    else if q[0].connection in closed then DequeueLive(q[1..], closed)
    else Dispatched(Some(q[0]), q[1..])
  }

  class EventHandler {
    /** Entries woken by Pop events (the source's pushQueue). */
    const pushQueue: Queue
    /** Entries woken by Push events (the source's popQueue). */
    const popQueue: Queue

    ghost predicate Valid()
    {
      pushQueue != popQueue
    }

    constructor ()
      ensures Valid() && fresh(pushQueue) && fresh(popQueue)
      ensures pushQueue.entries == [] && popQueue.entries == []
    {
      pushQueue := new Queue();
      popQueue := new Queue();
    }

    /** Registers a waiter for room on the stack; as in the source, it goes into both lists. */
    method WaitForPopEvent(notificationChan: ChanId, connection: ConnId)
      requires Valid()
      modifies pushQueue, popQueue
      ensures pushQueue.entries == old(pushQueue.entries) + [QueueEntry(notificationChan, connection)]
      ensures popQueue.entries == old(popQueue.entries) + [QueueEntry(notificationChan, connection)]
    {
      pushQueue.Enqueue(notificationChan, connection);
      popQueue.Enqueue(notificationChan, connection);
    }

    /** Registers a waiter for data on the stack; as in the source, it goes into both lists. */
    method WaitForPushEvent(notificationChan: ChanId, connection: ConnId)
      requires Valid()
      modifies pushQueue, popQueue
      ensures pushQueue.entries == old(pushQueue.entries) + [QueueEntry(notificationChan, connection)]
      ensures popQueue.entries == old(popQueue.entries) + [QueueEntry(notificationChan, connection)]
    {
      pushQueue.Enqueue(notificationChan, connection);
      popQueue.Enqueue(notificationChan, connection);
    }

    /**
      A Push event dispatches on popQueue and leaves pushQueue alone; a Pop
      event dispatches on pushQueue and leaves popQueue alone.
    */
    method HandleEvent(event: Event, closed: set<ConnId>) returns (signalled: Option<QueueEntry>)
      requires Valid()
      modifies pushQueue, popQueue
      ensures event.eventType == Push ==>
        && pushQueue.entries == old(pushQueue.entries)
        && Dispatched(signalled, popQueue.entries) == DequeueLive(old(popQueue.entries), closed)
      ensures event.eventType == Pop ==>
        && popQueue.entries == old(popQueue.entries)
        && Dispatched(signalled, pushQueue.entries) == DequeueLive(old(pushQueue.entries), closed)
    {
      match event.eventType
      case Push =>
        signalled := SignalFirstLive(popQueue, closed);
      case Pop =>
        signalled := SignalFirstLive(pushQueue, closed);
    }
  }

  /** The dequeue loop of HandleEvent, run on one wait list. */
  method SignalFirstLive(queue: Queue, closed: set<ConnId>) returns (signalled: Option<QueueEntry>)
    modifies queue
    ensures Dispatched(signalled, queue.entries) == DequeueLive(old(queue.entries), closed)
  {
    var empty := queue.IsEmpty();
    if empty {
      return None;
    }
    var queueEntry := queue.Dequeue();
    empty := queue.IsEmpty();
    while queueEntry.connection in closed && !empty
      invariant empty <==> queue.entries == []
      invariant DequeueLive(old(queue.entries), closed) ==
        if queueEntry.connection in closed then DequeueLive(queue.entries, closed)
        else Dispatched(Some(queueEntry), queue.entries)
      decreases |queue.entries|
    {
      queueEntry := queue.Dequeue();
      empty := queue.IsEmpty();
    }
    if queueEntry.connection !in closed {
      signalled := Some(queueEntry);
    } else {
      signalled := None;
    }
  }

  /**
    Because WaitForPushEvent also enqueues into pushQueue, a connection waiting
    for data is the one a Pop event signals when it is the only waiter.
  */
  method PopEventSignalsDataWaiter(notificationChan: ChanId, waiter: ConnId, popper: ConnId)
    returns (signalled: Option<QueueEntry>)
    ensures signalled == Some(QueueEntry(notificationChan, waiter))
  {
    var handler := new EventHandler();
    handler.WaitForPushEvent(notificationChan, waiter);
    signalled := handler.HandleEvent(Event(Pop, popper), {});
  }
}
