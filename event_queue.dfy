/**
  The FIFO list of blocked waiters (eventqueue/event_queue.go). Each entry pairs
  the waiter's notification channel with the id of its connection.
*/
module EventQueue {
  import opened Types

  datatype QueueEntry = QueueEntry(channel: ChanId, connection: ConnId)

  class Queue {
    /** The waiting entries, head first. */
    var entries: seq<QueueEntry>

    constructor ()
      ensures entries == []
    {
      entries := [];
    }

    method IsEmpty() returns (empty: bool)
      ensures empty <==> entries == []
    {
      empty := |entries| == 0;
    }

    method Enqueue(notificationChan: ChanId, connection: ConnId)
      modifies this
      ensures entries == old(entries) + [QueueEntry(notificationChan, connection)]
    {
      var entry := QueueEntry(notificationChan, connection);
      entries := entries + [entry];
    }

    /** Removes and returns the head; the source indexes out of range on an empty queue. */
    method Dequeue() returns (response: QueueEntry)
      requires entries != []
      modifies this
      ensures old(entries) == [response] + entries
    {
      response := entries[0];
      entries := entries[1..];
    }

    /** Returns the head without removing it. */
    method Peek() returns (head: QueueEntry)
      requires entries != []
      ensures head == entries[0]
    {
      head := entries[0];
    }
  }

  // ---------------------------------------------------------------------------
  // FIFO order over any interleaving of enqueues and guarded dequeues.

  datatype QueueOp = EnqueueOp(entry: QueueEntry) | DequeueOp

  /** The entries enqueued by ops, in order. */
  function Enqueued(ops: seq<QueueOp>): seq<QueueEntry>
  {
    if ops == [] then []
    else (if ops[0].EnqueueOp? then [ops[0].entry] else []) + Enqueued(ops[1..])
  }

  datatype Trace = Trace(dequeued: seq<QueueEntry>, remaining: seq<QueueEntry>)

  /**
    Runs ops against a queue holding q; a dequeue on an empty queue is skipped,
    as every caller in the server guards Dequeue with IsEmpty.
  */
  function Run(q: seq<QueueEntry>, ops: seq<QueueOp>): Trace
    decreases |ops|
  {
    if ops == [] then Trace([], q)
    else match ops[0]
      case EnqueueOp(e) => Run(q + [e], ops[1..])
      case DequeueOp =>
        if q == [] then Run(q, ops[1..])
        else var t := Run(q[1..], ops[1..]); Trace([q[0]] + t.dequeued, t.remaining)
  }

  /**
    Whatever the interleaving, the entries come out in the order they went in:
    what was dequeued, followed by what is still queued, is exactly the initial
    contents followed by the enqueued entries.
  */
  lemma {:induction false} FirstInFirstOut(q: seq<QueueEntry>, ops: seq<QueueOp>)
    ensures Run(q, ops).dequeued + Run(q, ops).remaining == q + Enqueued(ops)
    decreases |ops|
  {
    if ops != [] {
      match ops[0]
      case EnqueueOp(e) =>
        FirstInFirstOut(q + [e], ops[1..]);
      case DequeueOp =>
        if q == [] {
          FirstInFirstOut(q, ops[1..]);
        } else {
          var t := Run(q[1..], ops[1..]);
          FirstInFirstOut(q[1..], ops[1..]);
          assert Enqueued(ops) == Enqueued(ops[1..]);
          calc {
            Run(q, ops).dequeued + Run(q, ops).remaining;
            [q[0]] + t.dequeued + t.remaining;
            [q[0]] + (q[1..] + Enqueued(ops[1..]));
            { assert q == [q[0]] + q[1..]; }
            q + Enqueued(ops);
          }
        }
    }
  }
}
