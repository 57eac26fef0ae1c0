# DcpChannel correlation and stream-state engine, in Dafny

This project models the core of `DcpChannel` from the Couchbase DCP Java client. A channel is one connection to one cluster node. Over that connection it sends open-stream and failover-log requests, each tagged with an *opaque* id that it takes from a process-wide counter. It remembers every pending request in two correlation maps keyed by that id:

- `outstandingResponses` holds the promise;
- `outstandingVbucketInfos` holds the partition (vbucket) id.

The channel keeps a table of 1024 per-partition open/closed cells. It also classifies every inbound frame:

- An open-stream response or a failover-log response completes its pending promise. The promise's listener then updates the partition's cell, and the channel emits a derived failover-log or rollback message to the control event handler.
- A stream-end frame closes its partition.
- Every other frame is passed to the handler unchanged.

The model has five modules:

- `Bytes` (bytes.dfy): the big-endian byte layout that `writeShort` and `getLong` use, with encode/decode round trips. A byte is an integer in 0..255.
- `Protocol` (protocol.dfy): Java `int`/`short`/`long` widths, the opaque increment with its 32-bit wrap-around, inbound frames, outbound requests, control events, and the rule for building failover-log content (the response content followed by the stored partition id as two big-endian bytes).
- `Engine` (engine.dfy): the channel as a pure state machine. `State` holds both maps, the table and whether the dispatching subscription has ended. `Register` is the two puts of a request. `Step` is the filter plus the subscriber for one frame. `Run` feeds frames in arrival order. Lemmas state what each kind of frame does.
- `Channel` (channel.dfy): the classes. `OpaqueCounter` is the shared static counter. `DcpChannel` has the two maps as fields and the table as an `array<int>`, and its methods update them in place. `OpenStream`, `GetFailoverLog` and `Dispatch` (with its two response branches `OnOpenStreamResponse` and `OnFailoverLogResponse`) are each proved to produce exactly the state that `Engine.Register` or `Engine.Step` describes. `Valid()` adds the counter invariant: while the counter has not wrapped, no pending key exceeds it, so a new opaque never overwrites a pending promise.
- `Scenarios` (scenarios.dfy): clients that drive partition 5 through an open request and each kind of answer.

Behaviour the model keeps as the code has it:

- A `0x23` (rollback) response completes the promise with `setSuccess`. The open-stream listener treats any success as "opened", so the partition's cell becomes 1 and `streamIsOpen` returns true after a rollback. Were a rollback read as "stream not opened", the listener would set the cell to 0 and `streamIsOpen` would return false. The model follows the code (`Engine.OpenStreamRolledBack`, `Scenarios.OpenAnsweredWithRollback`).
- A listener's effect depends on which call registered the promise, not on which kind of frame resolved it. A failover-log response to an open-stream request marks the partition open. An open-stream response to a failover-log request changes no cell.
- Besides the control event handler (see "## Left out"), three situations make the filter throw:
  - a response whose opaque is not pending (a null `Short` is unboxed);
  - a rollback response with fewer than eight content bytes (`getLong(0)`);
  - a stream-end frame for a partition outside 0..1023 (`AtomicIntegerArray.set`).

  In RxJava 1, an exception in `filter` is routed to the subscriber's `onError`, which ignores it, and the subscription ends. The model records this as the `Faulted` outcome and the `halted` flag. From then on every frame is `Dropped`. On a short rollback, the promise has already been completed, and its listener has already run, when the exception is thrown.
- The promise is completed before the derived event is handed over: `setSuccess` comes before `onEvent` for both a success and a rollback, and for a failover-log response. Since listeners run on the dispatching thread, the partition's cell and the caller's completion are updated before the control event handler sees the failover-log or rollback event. `Channel.DcpChannel.Dispatch` keeps a trace of these effects and proves that each dispatch appends the completion first and the events after it, as `Engine.Effects` lays them out. Were the event handed over first, the handler would see a failover-log or rollback event while the caller's `Completable` was still pending and the partition's cell still held its old value.
- The `Failure` that an unhandled status produces carries the status as the Java `short` that the message `"Unhandled Status: " + status` prints.
- `AtomicInteger.incrementAndGet` wraps from 2^31-1 to -2^31. After a wrap, an opaque can collide with one that is still pending. In that case the `put` overwrites the older promise, and `Register` models that overwrite.

## Model

| member | source | states |
|---|---|---|
| `Bytes.ShortBytes` | src/main/java/com/couchbase/client/dcp/conductor/DcpChannel.java:86 | `writeShort` appends two bytes whose big-endian value is the written value modulo 2^16 |
| `Bytes.LongAt0` | src/main/java/com/couchbase/client/dcp/conductor/DcpChannel.java:93 | `getLong(0)` needs eight content bytes; its value is below 2^64 and re-encodes to exactly those bytes |
| `Bytes.FromToBigEndian` | src/main/java/com/couchbase/client/dcp/conductor/DcpChannel.java:86 | decoding an n-byte big-endian encoding gives the encoded value back |
| `Bytes.ToFromBigEndian` | src/main/java/com/couchbase/client/dcp/conductor/DcpChannel.java:93 | re-encoding the decoded value of a byte string gives the byte string back |
| `Protocol.Increment` | src/main/java/com/couchbase/client/dcp/conductor/DcpChannel.java:197 | the next opaque is one more than the last, except that the largest int wraps to the smallest |
| `Protocol.AsShort` | src/main/java/com/couchbase/client/dcp/conductor/DcpChannel.java:78 | a 16-bit status read into a Java short keeps its low 16 bits and is negative exactly when bit 15 is set |
| `Protocol.FailoverLogContent` | src/main/java/com/couchbase/client/dcp/conductor/DcpChannel.java:86 | derived failover-log content is the response content unchanged, followed by two bytes that decode back to the stored partition id |
| `Engine.Initial` | src/main/java/com/couchbase/client/dcp/conductor/DcpChannel.java:65-68 | a new channel has nothing pending and all 1024 partitions closed |
| `Engine.Register` | src/main/java/com/couchbase/client/dcp/conductor/DcpChannel.java:209-210 | both maps gain the new key together (so their key sets stay equal), the key maps to the call and its partition, other entries and the table are untouched |
| `Engine.Listener` | src/main/java/com/couchbase/client/dcp/conductor/DcpChannel.java:213-226 | an open-stream listener for a partition in the table sets its cell to 1 exactly on success and to 0 on failure; every other cell is unchanged, and so is every cell for a failover-log listener or an out-of-table partition |
| `Engine.Forget` | src/main/java/com/couchbase/client/dcp/conductor/DcpChannel.java:76-77 | removing a key from both maps keeps them in step and leaves every other entry as it was |
| `Engine.Step` | src/main/java/com/couchbase/client/dcp/conductor/DcpChannel.java:70-147 | the invariant is kept; a frame is forwarded, unchanged and with the state unchanged, exactly when it is of no classified kind; a pending call is resolved exactly when a response carries its key, and then exactly that key leaves the maps; the subscription ends exactly on a fault |
| `Engine.Run` | src/main/java/com/couchbase/client/dcp/conductor/DcpChannel.java:67-71 | frames are dispatched one after another in arrival order; the invariant is kept, and an ended subscription delivers nothing more |
| `Engine.ForwardedInOrder` | src/main/java/com/couchbase/client/dcp/conductor/DcpChannel.java:129 | while the subscription lives, the raw frames the handler receives are exactly the unclassified inbound frames, in arrival order |
| `Engine.RunAppend` | src/main/java/com/couchbase/client/dcp/conductor/DcpChannel.java:67-71 | dispatching a + b is dispatching a and then b from where a left the channel; the handler receives a's events before b's |
| `Engine.HaltedIsFinal` | src/main/java/com/couchbase/client/dcp/conductor/DcpChannel.java:139-141 | once the filter has thrown while dispatching a, any frames b that follow leave the final state and the delivered events exactly as after a |
| `Engine.RunAddsNoKey` | src/main/java/com/couchbase/client/dcp/conductor/DcpChannel.java:76-77 | dispatching any sequence of frames never adds a pending key; only requests register keys |
| `Engine.OpenStreamSucceeded` | src/main/java/com/couchbase/client/dcp/conductor/DcpChannel.java:76-88 | status 0x00 removes exactly its key from both maps and completes that promise with success; an open-stream caller's partition becomes open; no other cell changes; one failover-log event carries the response's vbucket and content plus the stored id, and the completion precedes that event |
| `Engine.OpenStreamRolledBack` | src/main/java/com/couchbase/client/dcp/conductor/DcpChannel.java:89-95 | status 0x23 removes its key and completes the promise with success, so an open-stream caller's partition becomes open; with eight content bytes it emits one rollback event (stored id, big-endian long at offset 0), with the completion preceding that event; otherwise the filter throws after the completion |
| `Engine.OpenStreamFailed` | src/main/java/com/couchbase/client/dcp/conductor/DcpChannel.java:96-97 | any other status removes its key, completes the promise with a failure naming the status, closes an open-stream caller's partition and emits nothing |
| `Engine.FailoverLogAnswered` | src/main/java/com/couchbase/client/dcp/conductor/DcpChannel.java:103-114 | a failover-log response removes its key, completes the promise with success and emits one failover-log event built like the open-stream one; the completion precedes the event; for a getFailoverLog call the table is unchanged |
| `Engine.UnmatchedResponse` | src/main/java/com/couchbase/client/dcp/conductor/DcpChannel.java:76-77 | a response whose key is not pending leaves both maps and the table unchanged, resolves nothing and ends the subscription |
| `Engine.StreamEnded` | src/main/java/com/couchbase/client/dcp/conductor/DcpChannel.java:118-124 | a stream-end frame closes its partition whatever its cell held, touches no pending call, emits nothing and leaves other cells alone; for a partition beyond the table the filter throws |
| `Engine.ResolvedOnce` | src/main/java/com/couchbase/client/dcp/conductor/DcpChannel.java:105-106 | once a response has resolved a key, a later response under that key, arriving after any sequence of inbound frames, resolves nothing: it faults with no pending call, or is dropped if the subscription has ended |
| `Engine.FreshKey` | src/main/java/com/couchbase/client/dcp/conductor/DcpChannel.java:235-244 | an opaque above every pending key is new, so registering it adds a pending call without displacing one |
| `Channel.OpaqueCounter.constructor` | src/main/java/com/couchbase/client/dcp/conductor/DcpChannel.java:50 | the shared counter starts at 0, not wrapped |
| `Channel.OpaqueCounter.IncrementAndGet` | src/main/java/com/couchbase/client/dcp/conductor/DcpChannel.java:197 | returns and stores the wrapped increment of the counter and records whether it has ever wrapped |
| `Channel.DcpChannel.constructor` | src/main/java/com/couchbase/client/dcp/conductor/DcpChannel.java:62-68 | a new channel shares the given counter, and its state is the initial one: empty maps, a fresh table of 1024 zero cells and an empty trace |
| `Channel.DcpChannel.OpenStream` | src/main/java/com/couchbase/client/dcp/conductor/DcpChannel.java:188-229 | takes the next opaque, returns a request carrying it and all six parameters, and registers an open-stream call under it; the counter's wrapped flag becomes set exactly when it stood at the largest int, so freshness carries over to consecutive calls; while the counter has not wrapped, the opaque is the previous value plus one and is not already pending (by `Engine.FreshKey`); the trace is unchanged |
| `Channel.DcpChannel.GetFailoverLog` | src/main/java/com/couchbase/client/dcp/conductor/DcpChannel.java:231-261 | the same as OpenStream, with a failover-log request and a failover-log call |
| `Channel.DcpChannel.StreamIsOpen` | src/main/java/com/couchbase/client/dcp/conductor/DcpChannel.java:271-273 | a pure read: true exactly when the partition's cell holds 1 |
| `Channel.DcpChannel.RemovePending` | src/main/java/com/couchbase/client/dcp/conductor/DcpChannel.java:105-106 | removes the key from both maps and returns what each map held under it, if anything |
| `Channel.DcpChannel.Complete` | src/main/java/com/couchbase/client/dcp/conductor/DcpChannel.java:213-258 | completing a promise runs its listener at once: the open-stream listener (lines 213-226) writes the table as `Engine.Listener` says, the failover-log listener (lines 247-258) writes nothing, and either then completes the caller, which the trace records as one `Completed` effect |
| `Channel.DcpChannel.Dispatch` | src/main/java/com/couchbase/client/dcp/conductor/DcpChannel.java:70-147 | the new maps, table, ended flag and outcome are exactly those of `Engine.Step` on the old state, and the channel invariant is kept; the trace gains exactly `Engine.Effects` of the outcome: the completion of the resolved promise before every event handed to the handler, a forwarded frame as one event, nothing once the subscription has ended |
| `Channel.DcpChannel.OnOpenStreamResponse` | src/main/java/com/couchbase/client/dcp/conductor/DcpChannel.java:74-102 | the open-stream branch agrees with `Engine.Step`; on status 0x00 or 0x23 the promise is completed before the failover-log or rollback event is handed over, and on a short rollback the completion is recorded before the filter throws |
| `Channel.DcpChannel.OnFailoverLogResponse` | src/main/java/com/couchbase/client/dcp/conductor/DcpChannel.java:103-117 | the failover-log branch agrees with `Engine.Step`, and the promise is completed before the failover-log event is handed over |
| `Scenarios.OpenAnsweredWithSuccess` | src/main/java/com/couchbase/client/dcp/conductor/DcpChannel.java:80-88 | open partition 5, then status 0x00: the call succeeds, partition 5 reads as open, and the handler gets one failover-log event whose content ends in bytes 0, 5 |
| `Scenarios.OpenAnsweredWithRollback` | src/main/java/com/couchbase/client/dcp/conductor/DcpChannel.java:89-95 | open partition 5, then status 0x23 with rollback point 42: the call succeeds, partition 5 reads as open, and the handler gets one rollback event for partition 5 carrying 42 |
| `Scenarios.OpenAnsweredWithUnknownStatus` | src/main/java/com/couchbase/client/dcp/conductor/DcpChannel.java:96-97 | open partition 5, then status 0x01: the call fails naming status 1, partition 5 reads as closed, and nothing is emitted |
| `Scenarios.ConsecutiveRequests` | src/main/java/com/couchbase/client/dcp/conductor/DcpChannel.java:197-244 | an openStream followed by a getFailoverLog on an unwrapped counter take consecutive opaques, neither already pending, and leave exactly those two keys added |
| `Scenarios.OpenStreamEndedByServer` | src/main/java/com/couchbase/client/dcp/conductor/DcpChannel.java:118-124 | an open partition 5 reads as closed after a stream-end frame, which emits nothing |

## Left out

- `connect`, `disconnect` and the unimplemented retry on connect failure: these are Netty bootstrap and socket I/O. The model assumes the connection exists when a request is sent, so the null `channel` that an unconnected `openStream` would dereference is not modelled.
- `closeStream`: it is a stub that returns null and does nothing.
- `equals`, `hashCode` and `hostname`: identity rests on `InetAddress` equality, which is not part of this model. As written, `equals` compares the address with the other object itself, not with that object's address.
- `ByteBuf` allocation and `release()`: these are memory management. Frames, requests and events are datatypes that carry the fields the channel reads and sets. The frame codec classes (`DcpOpenStreamResponse`, `MessageUtil`, `RollbackMessage`, …) are not part of this model. The model treats a frame's vbucket and status as independent fields, and treats the codec's `is` predicates as mutually exclusive frame kinds.
- `channel.writeAndFlush`: its future is never observed. A sent request is the value that `OpenStream` or `GetFailoverLog` returns, and a transport write failure does not reach the pending promise.
- RxJava and concurrency: the serialized subject, `ConcurrentHashMap`, `AtomicIntegerArray` and the atomic counter are not modelled. Frames are dispatched by one sequential `Dispatch`, and requests by sequential method calls. The laziness of `Completable.create` is modelled as running the request at subscription. The caller's `onCompleted`/`onError` is modelled as the `Resolution` that the resolving frame's outcome carries. No other channel's use of the shared counter appears between two calls of this channel.
- Netty promise-listener semantics: listeners are taken to run synchronously on the dispatching thread. For an open-stream call whose partition id lies outside 0..1023, the listener's `openStreams.set` throws. The promise logs and swallows that exception, so the model leaves the table unchanged (`Engine.WritesCell`). The caller's `onCompleted`/`onError`, which the exception skips, is not modelled beyond the promise's `Resolution`.
- Logging: omitted.
- Engine.Step: the control event handler is assumed to return normally. The handler is called inside the filter (lines 87, 94 and 113) and in `onNext` (line 145). If it throws, the subscription ends as it does for the three faults the model covers; at lines 87, 94 and 113 that happens after the key has been removed and the listener has run. The model has no fault for a throwing handler, so `Engine.Step`, `Engine.Run` and `Channel.DcpChannel.Dispatch` deliver every event and never halt for that reason.
- Channel.DcpChannel.StreamIsOpen: requires a partition id in 0..1023, because the Java read throws for any other index. The exception path is not modelled.
- Rollback sequence numbers: a rollback event carries the sequence number as the unsigned value of the eight big-endian bytes. Java holds the same 64 bits in a signed `long`, so the two readings agree on the bits and differ only in how they interpret them.
