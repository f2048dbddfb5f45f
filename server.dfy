/**
  The protocol handler and admission branch of the server (server.go). The
  shared stack, dispatcher and registry are the fields of one StackServer.
  A blocked operation is split at its wait: the arrival step decides whether
  to wait (and registers the waiter), and the resume step runs after the wake
  or straight away. Socket reads become parameters; writes become the bytes
  that would be written.
*/
module Server {
  import opened Types
  import opened BoundedStack
  import opened EventQueue
  import opened EventHandling
  import opened ConnectionManagement

  /** The cap the server gives its connection manager. */
  const MaxConnections: int := 100

  /** Written to a client refused at admission. */
  const BusyByte: byte := 0xFF

  /** The acknowledgement of a push: writePayload of the one byte 0. */
  const PushAck: seq<byte> := [0x00]

  // ---------------------------------------------------------------------------
  // The request header.

  /** A header is a push exactly when bit 7 is clear. */
  function IsPush(payloadSize: byte): (push: bool)
    ensures push <==> payloadSize as int < 128
  {
    payloadSize & 0x80 == 0
  }

  datatype Command = PushCommand(payloadSize: nat) | PopCommand

  /**
    What handleConnection does with the header byte: a push reads as many
    payload bytes as the header's value, a pop ignores the low seven bits.
  */
  function DecodeHeader(header: byte): (c: Command)
    ensures c.PushCommand? <==> header & 0x80 == 0
    ensures c.PushCommand? ==> c.payloadSize == header as int
  {
    if IsPush(header) then PushCommand(header as int) else PopCommand
  }

  /** The header a client sends to push n bytes. */
  function PushHeader(n: nat): byte
    requires n < 128
  {
    n as byte
  }

  /** Every push length from 0 to 127 survives the header, and a push never declares more than 127 bytes. */
  lemma HeaderRoundTrip(n: nat, header: byte)
    requires n < 128
    ensures DecodeHeader(PushHeader(n)) == PushCommand(n)
    ensures DecodeHeader(header).PushCommand? ==> DecodeHeader(header).payloadSize <= 127
    ensures header as int >= 128 <==> DecodeHeader(header) == PopCommand
  {
  }

  // ---------------------------------------------------------------------------
  // The pop response.

  /**
    The bytes writePayload sends: a one-byte length prefix (the length taken
    modulo 256, as Go's byte conversion does) when the payload is longer than
    one byte, the payload alone otherwise.
  */
  function WritePayloadBytes(payload: Payload): (out: seq<byte>)
    ensures |payload| > 1 ==> |out| == |payload| + 1 && out[0] as int == |payload| % 256
    ensures |payload| <= 1 ==> |out| == |payload|
    ensures out[|out| - |payload|..] == payload
  {
    if |payload| > 1 then [(|payload| % 256) as byte] + payload else payload
  }

  /** How a client reads a pop response of known total size back into the payload. */
  function ReadPopResponse(response: seq<byte>): Option<Payload>
  {
    if |response| <= 1 then Some(response)
    else if response[0] as int == |response| - 1 then Some(response[1..])
    else None
  }

  /** The framing can be undone for every payload up to 255 bytes (pushed ones have at most 127). */
  lemma PopResponseRoundTrip(payload: Payload)
    requires |payload| <= 255
    ensures ReadPopResponse(WritePayloadBytes(payload)) == Some(payload)
  {
    if |payload| > 1 {
      var out := WritePayloadBytes(payload);
      var n := |payload|;
      assert (n % 256) as byte as int == n by {
        assert n % 256 == n;
      }
      assert out[0] as int == |out| - 1;
      assert out[1..] == payload;
    }
  }

  /** A pop of the one-byte payload 0 is, on the wire, the same byte as a push acknowledgement. */
  lemma PopOfZeroByteLooksLikeAck()
    ensures WritePayloadBytes([0x00]) == PushAck
  {
  }

  // ---------------------------------------------------------------------------
  // The server state and its steps.

  datatype PushOutcome =
    /** The connection was closed while waiting: nothing is pushed or written. */
    | PushAborted
    | Pushed(written: seq<byte>, signalled: Option<QueueEntry>)

  datatype PopOutcome =
    /** The connection was closed while waiting: nothing is popped or written. */
    | PopAborted
    /** PopFromStack on an empty stack: Go's index-out-of-range panic. */
    | PopPanicked
    /** The response write failed: the payload is gone, the connection is closed, no event is sent. */
    | WriteFailed(attempted: seq<byte>)
    | Popped(written: seq<byte>, signalled: Option<QueueEntry>)

  class StackServer {
    const stack: Stack
    const eventHandler: EventHandler
    const connectionManager: TcpConnectionManager

    ghost predicate Valid()
      reads connectionManager
    {
      && eventHandler.Valid()
      && connectionManager.Valid()
      && connectionManager.maxConnections == MaxConnections
    }

    constructor ()
      ensures Valid()
      ensures fresh(stack) && fresh(eventHandler) && fresh(connectionManager)
      ensures fresh(eventHandler.pushQueue) && fresh(eventHandler.popQueue)
      ensures stack.stack == [] && connectionManager.connections == map[]
      ensures eventHandler.pushQueue.entries == [] && eventHandler.popQueue.entries == []
    {
      stack := new Stack();
      eventHandler := new EventHandler();
      connectionManager := new TcpConnectionManager(MaxConnections);
    }

    /**
      The admission branch of the accept loop: a connection the registry
      refuses receives exactly the busy byte and no handler; an admitted one
      receives nothing yet and goes to handleConnection.
    */
    method AcceptConnection(newId: ConnId, now: Time) returns (written: seq<byte>, handler: Option<TcpConnection>)
      requires Valid()
      requires newId !in connectionManager.connections
      modifies connectionManager
      ensures Valid()
      ensures handler.None? <==> written == [BusyByte]
      ensures handler.None? <==>
        old(connectionManager.numCurrentConnections) >= MaxConnections && !HasStale(old(connectionManager.connections), now)
      ensures handler.None? ==> connectionManager.connections == old(connectionManager.connections)
      ensures old(connectionManager.numCurrentConnections) < MaxConnections ==>
        && handler.Some?
        && connectionManager.connections == old(connectionManager.connections)[newId := StoredConnection(newId, now)]
      ensures handler.Some? ==>
        && written == []
        && fresh(handler.value) && handler.value.id == newId && !handler.value.connClosed
        && newId in connectionManager.connections
    {
      var r := connectionManager.AddConnection(newId, now);
      if r.Added? {
        written, handler := [], Some(r.connection);
      } else {
        written, handler := [BusyByte], None;
      }
    }

    /**
      push's test at server.go:97, a step of its own: the push will wait
      exactly when the stack is full. Nothing is locked between this test and
      the registration, so other steps may run in between.
    */
    method PushMustWait() returns (waiting: bool)
      ensures waiting <==> |stack.stack| == Capacity
    {
      waiting := stack.IsFull();
    }

    /** push's registration at server.go:98-99: the waiter enters both wait lists. */
    method PushEnqueueWaiter(connectionWrapper: TcpConnection, notificationChan: ChanId)
      requires Valid()
      modifies eventHandler.pushQueue, eventHandler.popQueue
      ensures eventHandler.pushQueue.entries == old(eventHandler.pushQueue.entries) + [QueueEntry(notificationChan, connectionWrapper.id)]
      ensures eventHandler.popQueue.entries == old(eventHandler.popQueue.entries) + [QueueEntry(notificationChan, connectionWrapper.id)]
    {
      eventHandler.WaitForPopEvent(notificationChan, connectionWrapper.id);
    }

    /**
      push, after the wake (or without one): a closed connection returns with
      nothing changed; otherwise the payload goes on top without any capacity
      check, the acknowledgement is written (its write error is never checked)
      and a Push event is dispatched on popQueue.
    */
    method PushResume(connectionWrapper: TcpConnection, payload: Payload, closed: set<ConnId>) returns (o: PushOutcome)
      requires Valid()
      requires connectionWrapper.Closed() <==> connectionWrapper.id in closed
      modifies stack, eventHandler.pushQueue, eventHandler.popQueue
      ensures connectionWrapper.Closed() ==>
        o == PushAborted && unchanged(stack, eventHandler.pushQueue, eventHandler.popQueue)
      ensures !connectionWrapper.Closed() ==>
        && o.Pushed?
        && o.written == PushAck
        && stack.stack == old(stack.stack) + [payload]
        && eventHandler.pushQueue.entries == old(eventHandler.pushQueue.entries)
        && Dispatched(o.signalled, eventHandler.popQueue.entries) == DequeueLive(old(eventHandler.popQueue.entries), closed)
    {
      if connectionWrapper.Closed() {
        return PushAborted;
      }
      stack.PushToStack(payload);
      var written := WritePayloadBytes([0]);
      PopOfZeroByteLooksLikeAck();
      var signalled := eventHandler.HandleEvent(Event(Push, connectionWrapper.id), closed);
      o := Pushed(written, signalled);
    }

    /**
      pop's test at server.go:127, a step of its own: the pop will wait
      exactly when the stack is empty. Nothing is locked between this test and
      the registration, so other steps may run in between.
    */
    method PopMustWait() returns (waiting: bool)
      ensures waiting <==> stack.stack == []
    {
      waiting := stack.IsEmpty();
    }

    /** pop's registration at server.go:128-129: the waiter enters both wait lists. */
    method PopEnqueueWaiter(connectionWrapper: TcpConnection, notificationChan: ChanId)
      requires Valid()
      modifies eventHandler.pushQueue, eventHandler.popQueue
      ensures eventHandler.pushQueue.entries == old(eventHandler.pushQueue.entries) + [QueueEntry(notificationChan, connectionWrapper.id)]
      ensures eventHandler.popQueue.entries == old(eventHandler.popQueue.entries) + [QueueEntry(notificationChan, connectionWrapper.id)]
    {
      eventHandler.WaitForPushEvent(notificationChan, connectionWrapper.id);
    }

    /**
      pop, after the wake (or without one): a closed connection returns with
      nothing changed; an empty stack panics; otherwise the top payload is
      removed and written with its framing. A failed write closes the
      connection and sends no event; a successful one dispatches a Pop event
      on pushQueue.
    */
    method PopResume(connectionWrapper: TcpConnection, closed: set<ConnId>, writeSucceeds: bool) returns (o: PopOutcome)
      requires Valid()
      requires connectionWrapper.Closed() <==> connectionWrapper.id in closed
      modifies stack, eventHandler.pushQueue, eventHandler.popQueue, connectionManager, connectionWrapper
      ensures Valid()
      ensures old(connectionWrapper.Closed()) ==>
        && o == PopAborted
        && unchanged(stack, eventHandler.pushQueue, eventHandler.popQueue, connectionManager, connectionWrapper)
      ensures !old(connectionWrapper.Closed()) && old(stack.stack) == [] ==>
        && o == PopPanicked
        && unchanged(stack, eventHandler.pushQueue, eventHandler.popQueue, connectionManager, connectionWrapper)
      ensures !old(connectionWrapper.Closed()) && old(stack.stack) != [] ==>
        && stack.stack == Below(old(stack.stack))
        && (if writeSucceeds then
              && o.Popped?
              && o.written == WritePayloadBytes(Top(old(stack.stack)))
              && eventHandler.popQueue.entries == old(eventHandler.popQueue.entries)
              && Dispatched(o.signalled, eventHandler.pushQueue.entries) == DequeueLive(old(eventHandler.pushQueue.entries), closed)
              && unchanged(connectionManager, connectionWrapper)
            else
              && o == WriteFailed(WritePayloadBytes(Top(old(stack.stack))))
              && unchanged(eventHandler.pushQueue, eventHandler.popQueue)
              && (old(connectionWrapper.id in connectionManager.connections) ==>
                    connectionWrapper.connClosed
                    && connectionManager.connections == old(connectionManager.connections) - {connectionWrapper.id})
              && (old(connectionWrapper.id !in connectionManager.connections) ==>
                    connectionWrapper.connClosed == old(connectionWrapper.connClosed)
                    && connectionManager.connections == old(connectionManager.connections)))
    {
      if connectionWrapper.Closed() {
        return PopAborted;
      }
      // The source makes no such test: this stands for PopFromStack panicking.
      var empty := stack.IsEmpty();
      if empty {
        return PopPanicked;
      }
      var bytesPopped := stack.PopFromStack();
      var written := WritePayloadBytes(bytesPopped);
      if !writeSucceeds {
        connectionManager.CloseConnection(connectionWrapper);
        return WriteFailed(written);
      }
      var signalled := eventHandler.HandleEvent(Event(Pop, connectionWrapper.id), closed);
      o := Popped(written, signalled);
    }

    /** The close at the end of handleConnection and after every I/O failure. */
    method CloseAtEnd(connectionWrapper: TcpConnection)
      requires Valid()
      modifies connectionManager, connectionWrapper
      ensures Valid()
      ensures old(connectionWrapper.id in connectionManager.connections) ==>
        connectionWrapper.Closed() && connectionManager.connections == old(connectionManager.connections) - {connectionWrapper.id}
      ensures old(connectionWrapper.id !in connectionManager.connections) ==>
        connectionWrapper.connClosed == old(connectionWrapper.connClosed)
        && connectionManager.connections == old(connectionManager.connections)
    {
      connectionManager.CloseConnection(connectionWrapper);
    }
  }

  /** Capacity pushes, each on a connection of its own, with nobody waiting. */
  method FillStack(server: StackServer, p: Payload)
    requires server.Valid()
    requires server.stack.stack == []
    requires server.eventHandler.pushQueue.entries == [] && server.eventHandler.popQueue.entries == []
    modifies server.stack, server.eventHandler.pushQueue, server.eventHandler.popQueue
    ensures |server.stack.stack| == Capacity
    ensures server.eventHandler.pushQueue.entries == [] && server.eventHandler.popQueue.entries == []
  {
    var i := 0;
    while i < Capacity
      invariant 0 <= i <= Capacity
      invariant |server.stack.stack| == i
      invariant server.eventHandler.pushQueue.entries == [] && server.eventHandler.popQueue.entries == []
    {
      var w := new TcpConnection(i, 0);
      var waiting := server.PushMustWait();
      assert !waiting;
      var pushed := server.PushResume(w, p, {});
      i := i + 1;
    }
  }

  /**
    One interleaving of atomic steps: a pusher waiting on a full stack is woken
    by a pop, but another pusher finds room first and refills the stack (its
    Push event signals the same waiter again, through the entry the double
    registration left in popQueue). The woken pusher does not re-check IsFull,
    so the stack ends one payload over capacity.
  */
  method WakeThenRefillOverflows(p: Payload)
    returns (size: nat, wokenByPop: Option<QueueEntry>, wokenByPush: Option<QueueEntry>)
    ensures wokenByPop == Some(QueueEntry(100, 100)) && wokenByPush == Some(QueueEntry(100, 100))
    ensures size == Capacity + 1
  {
    var server := new StackServer();
    FillStack(server, p);
    var a := new TcpConnection(100, 1);
    var b := new TcpConnection(101, 1);
    var c := new TcpConnection(102, 1);

    // a: a push that finds the stack full and waits.
    var aWaits := server.PushMustWait();
    assert aWaits;
    server.PushEnqueueWaiter(a, 100);

    // c: a pop that proceeds at once and signals a.
    var cWaits := server.PopMustWait();
    assert !cWaits;
    assert DequeueLive([QueueEntry(100, 100)], {}) == Dispatched(Some(QueueEntry(100, 100)), []);
    var popped := server.PopResume(c, {}, true);
    wokenByPop := popped.signalled;

    // b: a push that arrives before a resumes and finds room.
    var bWaits := server.PushMustWait();
    assert !bWaits;
    var pushed := server.PushResume(b, p, {});
    wokenByPush := pushed.signalled;

    // a resumes.
    var resumed := server.PushResume(a, p, {});
    size := |server.stack.stack|;
  }

  /**
    One interleaving of atomic steps: a pusher finds the stack full, but
    before it registers, a pop completes. That pop's event finds no waiter, so
    the pusher then waits although the stack has room.
  */
  method LostWakeUp(p: Payload)
    returns (waiting: bool, wokenByPop: Option<QueueEntry>, size: nat, waiters: seq<QueueEntry>)
    ensures waiting && wokenByPop == None
    ensures size == Capacity - 1 && waiters == [QueueEntry(100, 100)]
  {
    var server := new StackServer();
    FillStack(server, p);
    var a := new TcpConnection(100, 1);
    var c := new TcpConnection(102, 1);

    // a: a push that finds the stack full.
    waiting := server.PushMustWait();

    // c: a pop that runs to completion before a registers.
    var cWaits := server.PopMustWait();
    assert !cWaits;
    var popped := server.PopResume(c, {}, true);
    wokenByPop := popped.signalled;

    // a registers and blocks.
    server.PushEnqueueWaiter(a, 100);
    size := |server.stack.stack|;
    waiters := server.eventHandler.pushQueue.entries;
  }
}
