# Stack server: a Dafny model

The stack server is a TCP service holding one shared LIFO stack of byte
payloads with room for 100 entries. A client connects and sends one command.
A push is a header byte with bit 7 clear, whose value is the payload length,
followed by that many bytes. A pop is any header byte with bit 7 set. A push
waits while the stack is full and a pop waits while it is empty. Waiters sit
in two FIFO wait lists, and each Push or Pop event wakes at most one live
waiter. A connection registry caps the number of open connections at 100,
and at the cap it evicts the oldest connection once that connection is more
than 10 seconds old.

The model has one module per source package:

- `BoundedStack` (stack/stack.go): class `Stack` over a `seq` of payloads.
  It also has value-level lemmas for the round trip, LIFO order and the
  capacity bound when pushes are guarded.
- `EventQueue` (eventqueue/event_queue.go): class `Queue` over a `seq` of
  entries, plus a FIFO lemma over any mix of enqueues and guarded dequeues.
- `EventHandling` (eventhandler/event_handler.go): class `EventHandler`
  owning `pushQueue` and `popQueue`, and the dispatch loop. Sending on a
  waiter's channel becomes returning the signalled entry. The closed flags of
  the queued connections are passed in as a set of closed ids.
- `ConnectionManagement` (connectionmanagement/connection_manager.go): class
  `TcpConnection`, which carries the shared `connClosed` flag, and class
  `TcpConnectionManager`. The clock and the UUID generator are parameters:
  an integer `now` in nanoseconds and a fresh id.
- `Server` (server.go): header decoding, pop-response framing, the admission
  branch of the accept loop, and the push and pop handlers. The globals
  `stack`, `eventHandler` and `connectionManager` become the fields of one
  `StackServer`.

Each locked operation is one atomic step, with two exceptions. The two
`Enqueue` calls of a `WaitFor*` method together form one step. A whole
`HandleEvent` dispatch is also one step: its `Dequeue` calls each take the
queue's own lock and its `Closed()` tests take none, but the model reads
every closed flag from one snapshot taken for that dispatch. A blocking
handler is split into three steps, and other steps may run between them:
- a test step (`PushMustWait`, `PopMustWait`), which reads `IsFull` or
  `IsEmpty`;
- when that says to wait, a registration step (`PushEnqueueWaiter`,
  `PopEnqueueWaiter`);
- a resume step (`PushResume`, `PopResume`), which runs after the wake, or
  at once when no wait was needed.

Every resume step starts by testing the flag through `TcpConnection.Closed`.

The model keeps these behaviours of the code:

- `WaitForPopEvent` and `WaitForPushEvent` both put the waiter into both wait
  lists. One list per wait reason would be expected.
- A push tests `IsFull` and then registers, with no lock held between the
  two. When no other pusher is waiting, a pop that completes in that gap
  sends its Pop event to an empty `pushQueue`. The pusher then waits even though the stack has room
  (`LostWakeUp`). Pop has the same gap between `IsEmpty` and its
  registration.
- Eviction needs the oldest connection to be strictly older than 10 s (Go's
  `Before`). A connection exactly 10 s old is not evicted.
- Eviction deletes the map's copy of the wrapper and never sets the closed
  flag the handler sees. A later `CloseConnection` on that wrapper finds no
  entry, so the flag stays false.
- push ignores the error of its acknowledgement write. The `err` it tests at
  server.go:114 is the payload-read error, which is nil there. So a push
  always dispatches its Push event.
- A woken push does not re-check `IsFull`. `WakeThenRefillOverflows` shows an
  order of steps that leaves 101 payloads on the stack. `IsFull` tests
  `== 100`, so no push waits while the stack holds more than 100
  (`GuardDoesNotCatchOverflow`).
- A woken pop does not re-check `IsEmpty`. Thanks to the double registration a
  Pop event can wake a pop waiter (`PopEventSignalsDataWaiter`). On an empty
  stack `PopFromStack` then panics, which `PopResume` returns as
  `PopPanicked`.

## Model

| member | source | states |
|---|---|---|
| `BoundedStack.Stack.constructor` | stack/stack.go:8-11 | the zero-value stack holds no payloads |
| `BoundedStack.Stack.IsFull` | stack/stack.go:13-17 | true exactly when the stack holds 100 payloads |
| `BoundedStack.Stack.IsEmpty` | stack/stack.go:19-23 | true exactly when the stack holds no payload |
| `BoundedStack.Stack.PushToStack` | stack/stack.go:27-30 | the payload becomes the new top and every entry below is unchanged; there is no capacity check |
| `BoundedStack.Stack.PopFromStack` | stack/stack.go:34-39 | on a non-empty stack: the old stack equals the new stack followed by the returned payload, so only the top is removed; the result is `Top` of the old stack and the new stack is `Below` it, the functions the round-trip and LIFO lemmas use |
| `BoundedStack.PushPopRoundTrip` | stack/stack.go:28-36 | a pop right after a push returns the pushed bytes and restores the previous stack |
| `BoundedStack.LastInFirstOut` | stack/stack.go:28-38 | push A, push B: the first pop gives B, the second gives A, and the stack is back where it started |
| `BoundedStack.PopsAfterPushesReverse` | stack/stack.go:28-38 | pushing any sequence of payloads and then popping as many times returns them in reverse order |
| `BoundedStack.GuardedRunStaysBounded` | stack/stack.go:16-28 | for any sequence of pushes (skipped while IsFull holds) and pops (skipped on an empty stack), a stack that starts with at most 100 payloads never holds more than 100 |
| `BoundedStack.GuardDoesNotCatchOverflow` | stack/stack.go:16 | a stack of 101 payloads is not full, so a guarded push still grows it, to 102 |
| `EventQueue.Queue.constructor` | eventqueue/event_queue.go:14-17 | the zero-value queue has no entries |
| `EventQueue.Queue.IsEmpty` | eventqueue/event_queue.go:19-21 | true exactly when there are no entries |
| `EventQueue.Queue.Enqueue` | eventqueue/event_queue.go:23-31 | the (channel, connection) entry goes at the tail and the existing entries are unchanged |
| `EventQueue.Queue.Dequeue` | eventqueue/event_queue.go:33-39 | on a non-empty queue: returns the head, and the remaining entries keep their order |
| `EventQueue.Queue.Peek` | eventqueue/event_queue.go:41-45 | returns the head and changes nothing |
| `EventQueue.FirstInFirstOut` | eventqueue/event_queue.go:30-37 | for any mix of enqueues and guarded dequeues, the dequeued entries followed by those still queued are exactly the initial entries followed by the enqueued ones, in order |
| `EventHandling.DequeueLive` | eventhandler/event_handler.go:38-57 | at most one entry is signalled, and its connection is open; it is the first open entry, every entry ahead of it is closed and removed, and the entries behind it stay in order; if every entry is closed (or there are none) nothing is signalled and the list ends empty |
| `EventHandling.EventHandler.constructor` | eventhandler/event_handler.go:15-16 | two distinct, empty wait lists |
| `EventHandling.EventHandler.WaitForPopEvent` | eventhandler/event_handler.go:25-28 | the same entry is appended to the tail of both pushQueue and popQueue |
| `EventHandling.EventHandler.WaitForPushEvent` | eventhandler/event_handler.go:30-33 | the same entry is appended to the tail of both pushQueue and popQueue |
| `EventHandling.EventHandler.HandleEvent` | eventhandler/event_handler.go:35-60 | a Push event dispatches on popQueue as DequeueLive says and leaves pushQueue unchanged; a Pop event dispatches on pushQueue and leaves popQueue unchanged |
| `EventHandling.SignalFirstLive` | eventhandler/event_handler.go:38-46 | the dequeue loop leaves the list and returns the signal exactly as DequeueLive describes |
| `EventHandling.PopEventSignalsDataWaiter` | eventhandler/event_handler.go:30-33 | a connection waiting for data is signalled by a Pop event when it is the only waiter, because of the double registration |
| `ConnectionManagement.TcpConnection.constructor` | connectionmanagement/connection_manager.go:105-111 | a new wrapper has the given fresh id, was created at `now`, and is not closed |
| `ConnectionManagement.TcpConnection.Closed` | connectionmanagement/connection_manager.go:117-119 | reads the shared connClosed flag |
| `ConnectionManagement.TcpConnectionManager.constructor` | connectionmanagement/connection_manager.go:91-96 | the given cap, an empty map and a count of 0 |
| `ConnectionManagement.TcpConnectionManager.AddConnection` | connectionmanagement/connection_manager.go:21-39 | the count stays equal to the map size and stays within the cap; below the cap it adds the new id with created = now and evicts nothing; at the cap it succeeds exactly when some connection is older than 10 s, and then exactly one oldest connection is replaced by the new one; otherwise it fails and leaves the map unchanged; with a cap of 0 or less and an empty map it panics |
| `ConnectionManagement.TcpConnectionManager.CloseConnection` | connectionmanagement/connection_manager.go:41-61 | a registered id: the wrapper's flag is set and only that id is removed, with the count one lower; an unregistered id: nothing changes, so a repeated close does nothing |
| `ConnectionManagement.TcpConnectionManager.CloseOldestConnection` | connectionmanagement/connection_manager.go:63-89 | on a non-empty map: returns true exactly when some connection is older than 10 s, and then removes exactly one connection with the earliest creation time; otherwise nothing changes; no closed flag is set |
| `ConnectionManagement.EvictionBoundary` | connectionmanagement/connection_manager.go:71-86 | with a cap of 2 and two connections registered, a third is admitted exactly when the older one was created more than 10 s before; otherwise it gets the too-many-connections error |
| `ConnectionManagement.EvictedConnectionNeverClosed` | connectionmanagement/connection_manager.go:77-85 | a connection evicted to admit another never has its closed flag set, even after a later CloseConnection |
| `Server.DecodeHeader` | server.go:70-78 | bit 7 clear: a push of as many bytes as the header's value; bit 7 set: a pop |
| `Server.IsPush` | server.go:83-85 | bit 7 of the header is clear exactly when the header is below 128 |
| `Server.HeaderRoundTrip` | server.go:70-78 | every push length from 0 to 127 decodes back from its header; a push never declares more than 127 bytes; every header of 128 or more is a pop, whatever its low bits |
| `Server.WritePayloadBytes` | server.go:167-187 | a payload longer than one byte goes out after a one-byte length prefix (length mod 256); otherwise the payload goes out alone; either way the output ends with the payload |
| `Server.PopResponseRoundTrip` | server.go:171-179 | a client can recover every payload of up to 255 bytes from the pop response |
| `Server.PopOfZeroByteLooksLikeAck` | server.go:112 | the pop response for the one-byte payload 0x00 is the single byte 0x00, the same as a push acknowledgement |
| `Server.StackServer.constructor` | server.go:20-26 | an empty stack, empty wait lists and an empty registry with a cap of 100 |
| `Server.StackServer.AcceptConnection` | server.go:45-55 | a refused connection gets exactly the byte 0xFF, leaves the registry unchanged and gets no handler; refusal happens exactly when the registry is at its cap and no connection is older than 10 s; an admitted connection gets nothing written and a fresh, open, registered wrapper |
| `Server.StackServer.PushMustWait` | server.go:97 | a push will wait exactly when the stack is full; the test changes nothing |
| `Server.StackServer.PushEnqueueWaiter` | server.go:98-99 | the waiting pusher's entry is appended to the tail of both wait lists |
| `Server.StackServer.PushResume` | server.go:103-121 | a closed connection returns with the stack and lists untouched and nothing written; otherwise the payload goes on top with no capacity check, exactly 0x00 is written, and a Push event is dispatched on popQueue |
| `Server.StackServer.PopMustWait` | server.go:127 | a pop will wait exactly when the stack is empty; the test changes nothing |
| `Server.StackServer.PopEnqueueWaiter` | server.go:128-129 | the waiting popper's entry is appended to the tail of both wait lists |
| `Server.StackServer.PopResume` | server.go:133-152 | a closed connection returns with nothing changed; an empty stack panics; otherwise the top is removed and its framed bytes are written; a failed write closes the connection and dispatches no Pop event; a successful one dispatches a Pop event on pushQueue |
| `Server.StackServer.CloseAtEnd` | server.go:196-198 | closing at the end of a command removes the connection if it is still registered and sets its flag; otherwise it changes nothing |
| `Server.FillStack` | server.go:97-121 | 100 pushes with nobody waiting fill the stack and leave both wait lists empty |
| `Server.LostWakeUp` | server.go:97-99 | when a pop completes between a pusher's full test and its registration, the pop's event signals nobody, and the pusher waits with 99 payloads on the stack |
| `Server.WakeThenRefillOverflows` | server.go:97-121 | when a pop wakes a waiting pusher and another pusher refills the stack before the waiter resumes, the waiter is signalled twice and the stack ends with 101 payloads |

## Left out

- Goroutines, the mutexes and blocking on channels. Each locked operation is
  one atomic step, and so are a `WaitFor*` call and a `HandleEvent` dispatch.
  A blocked handler is split into a test step, a registration step and a
  resume step.
- `HandleEvent`, `SignalFirstLive`, `DequeueLive`: the closed flags are read
  as one snapshot per dispatch. In the source each `Closed()` test reads the
  flag afresh, with no lock held (event_handler.go:40 and :44, :51 and :55).
  A flag set between the loop test and the final test makes the source
  remove that entry without signalling it, while live entries behind it
  stay queued. The model cannot produce that outcome.
- `WaitForPopEvent`, `WaitForPushEvent`: their two `Enqueue` calls each take
  their own queue's lock, but the model runs them as one step. An event
  dispatched between the two, when the waiter is in `pushQueue` but not yet
  in `popQueue`, is not captured.
- The race between `pushMutex` and `popMutex`, which lets a concurrent push
  and pop mutate the stack at the same time. It cannot be expressed with
  atomic steps.
- connectionmanagement/closed_connection_monitor.go is not part of this
  model. It is a concurrent busy-poll for peer disconnect. Its only effect on
  the modelled state is a `CloseConnection` call, which is modelled. It also
  consumes any byte the client sends while it polls. For an evicted connection
  the flag is never set, so its loop does not stop.
- The listening socket, the accept loop and `os.Exit`. Only the admission
  branch is modelled.
- Socket I/O: reading the header and the payload, `connection.Close()` on the
  socket, and the socket handle inside the wrapper. Reads become parameters.
  A write becomes the bytes it would send, plus a success flag for the pop
  response.
- Partial writes. A failed pop response is recorded with all the bytes it
  tried to send, even when the length prefix already failed.
- `time.Now()` and `uuid.New()`. `AddConnection` uses one `now` both for
  the eviction test and for the new connection's creation time, while the
  source reads the clock twice.
- The `sort.SliceStable` in `closeOldestConnection`. A linear scan that
  keeps the last earliest key replaces it; that is the key the stable sort
  puts last.
- PopFromStack's index-out-of-range panic takes down the whole process.
  `PopResume` returns `PopPanicked` with nothing changed instead, and so does
  `AddConnection` for its own panic (`Panicked`).
- `CloseConnection` always returns nil, so the model's method has no result.
- Logging, and the panics of `err.Error()` on a nil error in
  `writePayload`.
