# Log transport: a Dafny model

The system moves log entries from application threads to the network. Writer threads put entries into two
alternating linear buffers in shared memory without ever waiting. The datarouter process asks the application to
swap the buffers, reads the retired one, and routes the entries to DLT channels that pack them into UDP datagrams.
This project models that path and proves, for every interleaving, every run and every input, what it delivers.

| layer | files | form |
|---|---|---|
| linear buffer and reader | `Bytes`, `Options`, `LinearBuffer`, `LinearReader` | values; `LinearReader` is a class |
| wait-free queue | `WaitFreeQueue`, `QueueInvariant`, `QueueHistory`, `QueueTheorems`, `QueueBounds`, `QueueProgress` | step machine, one step per atomic operation or stored byte, unboundedly many writers, counter modulo 2^32 |
| session | `Session`, `SessionTheorems`, `SessionDelivery`, `SessionDetach`, `SessionProgress`, `SessionLoss`, `SharedMemoryReader` | step machine composed with the queue, with both locks and the detached read; the reader is a class |
| session scheduler | `Scheduler`, `SchedulerProgress`, `MessagePassingServer`, `Shutdown` | step machine over worker, callbacks and watchdog; its locked sections are methods of a class; `Shutdown` runs it together with its sessions |
| DLT output | `DltHeaders`, `DltChannel`, `DltPacking`, `DltLogChannel`, `DltFormat`, `VerbosePayload` | reference on values; a class over four byte arrays; a class over a bounded payload |
| routing | `Routing`, `RoutingTheorems`, `RoutingPersistence`, `RoutingStart`, `DltLogServer` | reference on values; a class whose loops rebuild, save and search the tables |

History variables (`log`, `hist`, `tail`, `gone`, `accepted`, `destroyed`, `spec`, `calls`) record what happened; no decision of the
modelled code reads them.

## Findings

- A released entry can be lost. `TryFinalizeAcquisition` checks that the retired block is released and then calls
  `NotifyAcquisitionSetReader`, which checks again; its result is ignored. A writer that loses the arbitration may
  raise `number_of_writers` in between; the second check then refuses a block that is complete, and the next
  `Switch` clears it. `SessionLoss.ReleasedEntryCanBeLost` is such a run of the whole system, up to the clearing. The
  exact condition is one on the states in which the second check looks: what is lost is what lay in blocks on which a
  losing writer then held a count (`NothingLostIff`); without such blocks, and only then, delivery is exactly once.
- After an odd number of consecutive refusals `buffer_expected_to_read_next_` points at the refused block: the detached
  read delivers that block and misses the active one. After an even positive number it delivers the active block and
  misses the refused one. `DetachedReadDelivers` says exactly what is missed, `SessionLoss.DetachedReadCanMiss` is a run.
- `number_of_writers == 0` on a retired block already implies `written_index == acquired_index`
  (`FirstCheckCannotFail`), under sequentially consistent atomics.
- At most 63 writers, not 64, are past the concurrency check, because each of them is counted twice.
- `score/mw/log/detail/wait_free_producer_queue/README.md:128` calls the consumer's operation blocking; `Switch` itself
  does not wait for writers. The model follows the code: waiting is the session's repeated look at the retired block.
- A response that nobody asked for can bring worker and dispatch thread to a deadlock
  (`UnsolicitedResponseDeadlocks`); with one response per request there is none (`NoDeadlock`).
- On the forced-finish path the worker calls `OnClosedByPeer` with the server mutex held
  (`score/datarouter/src/daemon/message_passing_server.cpp:300`), although the interface says it is not. The model keeps
  that call inside the locked section `JudgeSession`.
- If the configured default channel is not one of the channels, index 0 stands in for it, so the fallback of a
  restarted server depends on the iteration order of a hash map (`DefaultDependsOnOrder`). `SaveAndRestart` gives the
  exact condition under which a restart preserves what is emitted.
- An assignment with an empty channel list, which a configuration file may contain, hides the wildcards; adding a channel
  to it and removing the channel again removes the entry and so changes the routing (`AddThenRemove`,
  `EmptyEntryIsNotRestored`).

## Model

| member | source | states |
|---|---|---|
| `LinearBuffer.ReserveKeepsInv` | score/mw/log/detail/wait_free_producer_queue/wait_free_linear_writer.cpp:63-112 | a `fetch_add` on `acquired_index` keeps the block invariant: reservations tile `[0, acquired_index)`, the unpublished ones make up `acquired_index - written_index`, stored bytes are in place |
| `LinearBuffer.PutPrefixByteKeepsInv` | score/mw/log/detail/wait_free_producer_queue/wait_free_linear_writer.cpp:35-60 | storing one byte of a length field, also of a terminated overrun, disturbs no other reservation |
| `LinearBuffer.PutPayloadByteKeepsInv` | score/mw/log/detail/wait_free_producer_queue/wait_free_linear_writer.cpp:121-151 | a holder that stores into its own span disturbs no other reservation |
| `LinearBuffer.PublishKeepsInv` | score/mw/log/detail/wait_free_producer_queue/wait_free_linear_writer.cpp:154-168 | advancing `written_index` keeps the accounting of outstanding reservations |
| `LinearReading.GrantedFormPrefix` | score/mw/log/detail/wait_free_producer_queue/wait_free_linear_writer.cpp:63-112 | successful reservations form a prefix of the reservations in `fetch_add` order |
| `LinearReading.EmptyStaysEmpty` | score/mw/log/detail/wait_free_producer_queue/linear_reader.cpp:32-68 | once reading yields nothing it yields nothing again |
| `LinearReading.ReadBack` | score/mw/log/detail/wait_free_producer_queue/linear_reader.cpp:32-92 | in a quiescent block, repeated reading yields exactly the payloads of the successful reservations in order, terminated overruns included |
| `LinearReading.ParseWritten` | score/mw/log/detail/data_router/shared_memory/shared_memory_writer.h:70-115 | every record and every type registration, written with the writer's header layout, is parsed as what it was |
| `LinearReading.ParsedWritten` | score/mw/log/detail/data_router/shared_memory/shared_memory_reader.cpp:33-125 | what was written comes out of the drain loop, record by record and in order |
| `LinearReading.SkippedIff` | score/mw/log/detail/data_router/shared_memory/shared_memory_reader.cpp:46-88 | an entry is skipped if and only if it is too short for a header, or a registration too short for a type id |
| `LinearReading.LinearReader.Read` | score/mw/log/detail/wait_free_producer_queue/linear_reader.cpp:32-68 | one read returns the entry at the read index and advances it, as the reference function says |
| `LinearReading.LinearReader.ReadLinearBuffer` | score/mw/log/detail/data_router/shared_memory/shared_memory_reader.cpp:33-125 | the drain loop visits everything that repeated reading yields, hands over the records parsed from it, and leaves nothing |
| `QueueInvariant.StepKeepsCore` | score/mw/log/detail/wait_free_producer_queue/wait_free_alternating_writer.cpp:28-108 | every step of every thread keeps: `number_of_writers` is the number of counts held, blocks are consistent, unpublished reservations have an active owner, a block seen released has no validated writer |
| `QueueHistory.StepKeepsInv` | score/mw/log/detail/wait_free_producer_queue/wait_free_alternating_writer.cpp:143-176 | every step also keeps the conservation law for released entries and the order of deliveries |
| `QueueHistory.ReachableHasInv` | score/mw/log/detail/wait_free_producer_queue/alternating_control_block.cpp:54-59 | the whole invariant holds in every state reachable from the initialised control block |
| `QueueTheorems.ExclusionStep` | score/mw/log/detail/wait_free_producer_queue/wait_free_alternating_writer.cpp:35-108 | no writer step changes bytes or indices of a retired block seen released, or gets a writer into it |
| `QueueTheorems.ReaderWriterExclusion` | score/mw/log/detail/wait_free_producer_queue/alternating_reader.cpp:45-57 | the same over every run up to the next `Switch`, whatever counts losing writers raise in between |
| `QueueTheorems.FirstCheckCannotFail` | score/mw/log/detail/wait_free_producer_queue/alternating_reader.cpp:45-57 | once a retired block was seen without writers its two indices agree, so the comparison of the indices succeeds |
| `QueueTheorems.SwitchClearsQuietBlock` | score/mw/log/detail/wait_free_producer_queue/alternating_reader_proxy.cpp:45-73 | `Switch` clears indices only of a block without validated writers and with everything published |
| `QueueTheorems.ActivatedBlockIsClean` | score/mw/log/detail/wait_free_producer_queue/alternating_reader_proxy.cpp:45-73 | the block that becomes active is the other one, with both indices 0 and nobody in it |
| `QueueTheorems.EpochShape` | score/mw/log/detail/wait_free_producer_queue/wait_free_linear_writer.cpp:63-168 | in every reachable state reservations tile the block, successful ones lie inside with their bytes, outstanding bytes are the distance of the indices, `number_of_writers` is the number of counts held |
| `QueueTheorems.Delivery` | score/mw/log/detail/wait_free_producer_queue/wait_free_alternating_writer.cpp:143-176 | every released entry is in exactly one place: delivered, cleared unread, or still in one of the blocks; deliveries are, epoch by epoch, the entries in reservation order |
| `QueueTheorems.NothingLostIff` | score/datarouter/datarouter/data_router.cpp:191-199 | over every run: the lost entries are those of the blocks on which a losing writer held a count when the second check looked, up to the last `Switch`; so nothing is lost if and only if there was no such check on a block with entries |
| `QueueTheorems.ExactlyOnce` | score/mw/log/detail/data_router/shared_memory/shared_memory_reader.cpp:165-199 | over every run, at rest: the released entries are the delivered ones, each once, plus those of the active block, if and only if no second check met a losing writer on a block with entries |
| `QueueTheorems.RefusalIsSpurious` | score/mw/log/detail/data_router/shared_memory/shared_memory_reader.cpp:249-261 | at the second check the block is complete and quiet; it is refused if and only if a writer that lost the arbitration holds a count on it |
| `QueueTheorems.DetachedDrain` | score/mw/log/detail/data_router/shared_memory/shared_memory_reader.cpp:182-211 | with all writers finished, the detached read yields the active block's entries after an even number of refusals and the refused block's after an odd one; what it leaves behind is stated exactly, and it completes delivery if and only if that is nothing |
| `QueueBounds.IndexNeverWraps` | score/mw/log/detail/wait_free_producer_queue/linear_control_block.h:51-67 | at most 63 writers are past the check; `acquired_index` plus all pending reservations stays within buffer size + 62 maximal spans, below 2^64 |
| `QueueBounds.WaitFree` | score/mw/log/detail/wait_free_producer_queue/wait_free_alternating_writer.cpp:35-176 | a writer inside an operation can always move, and each of its at most 20 steps brings it nearer to the end; how the operation ends is `AcquireAnswers` |
| `QueueBounds.OthersKeepRank` | score/mw/log/detail/wait_free_producer_queue/wait_free_alternating_writer.cpp:35-176 | no step of anybody else sets a writer back |
| `QueueProgress.AcquireAlone` | score/mw/log/detail/wait_free_producer_queue/wait_free_linear_writer.cpp:63-151 | a thread that calls `Acquire(len)` and moves alone owns a reservation of `len` bytes at the old `acquired_index` of the active block, if and only if the length, the number of counts and the room allow it; otherwise nothing has changed |
| `QueueProgress.AcquireAnswers` | score/mw/log/detail/wait_free_producer_queue/wait_free_alternating_writer.cpp:35-164 | under every interleaving: an acquire ends with nothing if and only if one of its operations met a counter moved away twice, too many counts, too long an entry or too little room; otherwise it ends with a complete reservation of `len` bytes inside a block |
| `QueueProgress.WriteAlone` | score/mw/log/detail/wait_free_producer_queue/wait_free_linear_writer.cpp:121-168 | an admitted thread moving alone puts exactly its bytes behind the entries of the active block |
| `SharedMemoryReading.SharedMemoryReader.NotifyAcquisitionSetReader` | score/mw/log/detail/data_router/shared_memory/shared_memory_reader.cpp:249-268 | succeeds iff the block is released; then the reader holds exactly that block and expects the next counter value, otherwise nothing changes |
| `SharedMemoryReading.SharedMemoryReader.Read` | score/mw/log/detail/data_router/shared_memory/shared_memory_reader.cpp:165-199 | returns the records of the accepted block, plus those of the expected block once the writer is detached, and the number of bytes gone through; after that one detached read, nothing |
| `SharedMemoryReading.SharedMemoryReader.ReadDetached` | score/mw/log/detail/data_router/shared_memory/shared_memory_reader.cpp:201-211 | marks the writer detached and performs the final read, with its records and byte count |
| `SessionTheorems.QueueIsReachable` | score/datarouter/datarouter/data_router.cpp:185-301 | the session, the client and the dispatch thread only make the queue do what its own step machine allows |
| `SessionDelivery.EndToEndDelivery` | score/datarouter/datarouter/data_router.cpp:185-301 | for every run of writers, client, session and dispatch thread: conservation and order, and at rest exactly-once delivery if and only if the session never set the reader on a block with entries on which a writer held a count |
| `SessionDelivery.NothingLostIff` | score/datarouter/datarouter/data_router.cpp:191-199 | the exact condition for loss over every run of the composed system |
| `SessionLoss.ReleasedEntryCanBeLost` | score/datarouter/datarouter/data_router.cpp:193-196 | a reachable state of the composed system in which a released entry was not delivered and, its refused block having been cleared by `Switch`, is in no block |
| `SessionDetach.DetachedReadDelivers` | score/datarouter/datarouter/data_router.cpp:255-261 | the detached read of the composed system delivers the active block's entries after an even number of refusals, the refused block's after an odd one, and completes delivery if and only if nothing is left in the other |
| `SessionDetach.DetachedIsFinal` | score/datarouter/datarouter/data_router.cpp:156-161 | after the detached read nothing more is delivered, whatever writers and client do |
| `SessionDetach.TickAfterCloseDetaches` | score/datarouter/datarouter/data_router.cpp:255-261 | a tick that begins after the peer has closed ends with the session detached and the detached read done |
| `SessionLoss.DetachedReadCanMiss` | score/mw/log/detail/data_router/shared_memory/shared_memory_reader.cpp:182-196 | a reachable state after the detached read in which the complete active block was missed, for ever, and the refused one delivered |
| `SessionTheorems.PhasesAgree` | score/datarouter/datarouter/data_router.cpp:185-207 | each check, each `Switch` and each request meets the queue in the phase it assumes, on the block it names |
| `SessionTheorems.AtMostOneAcquire` | score/datarouter/datarouter/data_router.cpp:559-564 | at most one acquire is open, a stored response implies `acquire_requested`, no response is overwritten |
| `SessionTheorems.NextRequestAfterDrain` | score/datarouter/datarouter/data_router.cpp:265-297 | a request goes out only when the previous block was drained completely or refused |
| `SessionTheorems.NoDeadlock` | score/datarouter/datarouter/data_router.cpp:265-297 | no run blocks on the command lock and the server mutex |
| `SessionTheorems.UnsolicitedResponseDeadlocks` | score/datarouter/src/daemon/message_passing_server.cpp:508-542 | one response too many in a reachable state leads to a state in which neither thread can move |
| `SessionTheorems.IdleCounterBounded` | score/datarouter/datarouter/data_router.cpp:285-289 | the 8-bit idle counter never exceeds 11 |
| `SessionTheorems.KeepaliveByTwelfthTick` | score/datarouter/datarouter/data_router.cpp:265-297 | along every run after a finalised acquire, an enabled and attached session lets at most eleven ticks pass before it asks again |
| `SessionProgress.AsksExactly` | score/datarouter/datarouter/data_router.cpp:272-296 | along every such run, a tick asks if and only if something was reserved in the active block or eleven ticks have idled |
| `SessionProgress.AsksOnlyIf` | score/datarouter/datarouter/data_router.cpp:263-296 | a step that comes to a request is the decision of a tick that finalised nothing, of an enabled, attached session without an open acquire and with a reason to ask |
| `SessionProgress.NoConnectionAsksAgain` | score/datarouter/datarouter/data_router.cpp:535-557 | a request that finds no connection leaves the session free to ask again; any other outcome counts as requested |
| `SessionProgress.RoundDelivers` | score/datarouter/datarouter/data_router.cpp:156-301 | from every reachable calm state in which the session wants to ask and no writer holds a count, session, client and dispatch thread alone deliver exactly the active block's entries and are calm again |
| `SessionProgress.WrittenIsDelivered` | score/mw/log/detail/wait_free_producer_queue/wait_free_alternating_writer.cpp:143-176 | a thread that writes an admitted entry alone, followed by one round: the session delivers what was in the block and behind it exactly that entry |
| `Scheduler.WorkQueueConsistent` | score/datarouter/src/daemon/message_passing_server.cpp:222-354 | no duplicates; a pid is queued iff its session exists, is enqueued and not running; only the worker's session runs; the lookup of the queue's head succeeds |
| `Scheduler.MarkedIsNeverStranded` | score/datarouter/src/daemon/message_passing_server.cpp:40-93 | a session marked for deletion is running or queued |
| `SchedulerProgress.WorkerAloneFinishes` | score/datarouter/src/daemon/message_passing_server.cpp:276-342 | from every reachable state with a free worker, the worker alone empties its queue, after which exactly the sessions not marked for deletion are left |
| `Scheduler.DestroyedAfterFinalTick` | score/datarouter/src/daemon/message_passing_server.cpp:276-342 | a session is destroyed only after `OnClosedByPeer` and a full tick since |
| `Shutdown.DestroyedHasReadItsTail` | score/datarouter/src/daemon/message_passing_server.cpp:276-342 | over every run of the scheduler with its sessions: each session that the worker destroyed had processed its detached logs |
| `MessagePassing.MessagePassingServer.MarkForDelete` | score/datarouter/src/daemon/message_passing_server.cpp:40-51 | sets both flags, queues the session unless it is running or queued, and touches no other session |
| `MessagePassing.MessagePassingServer.MarkForTick` | score/datarouter/src/daemon/message_passing_server.cpp:83-93 | marks a session that is not marked yet, and queues it unless it runs |
| `MessagePassing.MessagePassingServer.SweepSessions` | score/datarouter/src/daemon/message_passing_server.cpp:241-273 | in any iteration order: no session disappears, every one ends up queued; a session is marked afterwards iff it was, its source has closed, or its request expired for the last allowed time; misses and in-flight flags are counted for the expired ones, and every other flag stays |
| `MessagePassing.MessagePassingServer.PopSession` | score/datarouter/src/daemon/message_passing_server.cpp:276-283 | the popped pid is registered, becomes the running one, and its `closed_by_peer` flag is read and cleared |
| `MessagePassing.MessagePassingServer.JudgeSession` | score/datarouter/src/daemon/message_passing_server.cpp:289-342 | after a tick the session is expedited, queued again, destroyed or left, as its flags say; a destroyed one was notified and ticked; no other session is touched |
| `MessagePassing.MessagePassingServer.OnDisconnect` | score/datarouter/src/daemon/message_passing_server.cpp:149-162 | the pid is remembered; its session has no connection, is marked for forced deletion and is running or queued; no other session is touched |
| `MessagePassing.MessagePassingServer.OnConnect` | score/datarouter/src/daemon/message_passing_server.cpp:140-148 | the pid, and no other, is no longer remembered as disconnected |
| `MessagePassing.ReconnectRegisters` | score/datarouter/src/daemon/message_passing_server.cpp:477-504 | a pid without session can register after a connect, and cannot after a disconnect |
| `MessagePassing.MessagePassingServer.OnConnectRequest` | score/datarouter/src/daemon/message_passing_server.cpp:417-506 | a session is registered and queued iff the message is long enough, no stop was requested, the factory succeeded and the pid is neither disconnected nor registered; a pending stop request is used up |
| `MessagePassing.MessagePassingServer.OnAcquireResponse` | score/datarouter/src/daemon/message_passing_server.cpp:508-542 | a response is forwarded iff it came on the session's own connection; then the watchdog's bookkeeping is cleared and the session is running or queued |
| `MessagePassing.MessagePassingServer.NotifyAcquireRequest` | score/datarouter/src/daemon/message_passing_server.cpp:544-596 | reports a request iff the server is not exiting and the session has a connection; a failed send marks the session, which is then running or queued |
| `DltHeaders.PacketRoundTrip` | score/datarouter/include/dlt/dlt_headers.h:69-203 | decoding a packet by chapter 5.1, following version, flags and message info of its headers, gives back every field and the payload |
| `DltHeaders.PacketFields` | score/datarouter/include/dlt/dlt_headers.h:69-78 | a packet is framed by its own big-endian length field iff it is shorter than 65536 bytes; header type, kind bit and counter are the message's |
| `DltHeaders.SplitConcat` | score/datarouter/include/dlt/dlt_headers.h:69-78 | cutting a datagram by its length fields gives back the messages that were put together |
| `DltChannel.SendUdpKeepsInv` | score/datarouter/include/daemon/dlt_log_channel.h:187-234 | handing buffers over neither reorders, repeats nor loses a message; a flush leaves none behind |
| `DltChannel.FlushHandsOver` | score/datarouter/src/daemon/dlt_log_channel.cpp:279-288 | after a flush everything has been handed over, in order, and nothing is buffered |
| `DltChannel.CommandKeepsInv` | score/datarouter/src/daemon/dlt_log_channel.cpp:32-288 | every call keeps the channel invariant |
| `DltChannel.AcceptedArePassing` | score/datarouter/src/daemon/dlt_log_channel.cpp:37-40 | the accepted messages are those not above the threshold in force when sent, and all file transfers |
| `DltChannel.ChannelDelivers` | score/datarouter/src/daemon/dlt_log_channel.cpp:32-277 | sent, stored and buffered messages are the accepted ones in call order with counter k modulo 256; at most three datagrams wait; each is 1 to 1472 bytes of one kind, or one bypassed message |
| `DltPacking.PackingIsGreedy` | score/datarouter/src/daemon/dlt_log_channel.cpp:47-90 | for every sequence of small messages without a flush: datagrams leave four at a time, and each starts with a message that did not fit into the one before or is of the other kind |
| `DltChannel.ReceiverGetsMessages` | score/datarouter/src/daemon/dlt_log_channel.cpp:47-106 | splitting all datagrams by length fields gives exactly the accepted messages, each once, in order, if and only if each is shorter than 65536 bytes |
| `DltChannel.ReceiverDecodesMessages` | score/datarouter/src/daemon/dlt_log_channel.cpp:47-106 | ... and then decoding them gives back every field, the k-th with counter k modulo 256 |
| `DltLogChannels.CopyPacket` | score/datarouter/include/dlt/dlt_headers.h:152-203 | header and payload end up behind what the buffer held, which stays as it was |
| `DltLogChannels.DltLogChannel.SendUdp` | score/datarouter/include/daemon/dlt_log_channel.h:187-234 | on the four real buffers: the datagrams handed over hold the stored bytes, none was overwritten before |
| `DltLogChannels.DltLogChannel.SendMessage` | score/datarouter/src/daemon/dlt_log_channel.cpp:32-225 | in-place batching with threshold, change of kind and bypass refines the reference on values |
| `DltLogChannels.DltLogChannel.SendFtVerbose` | score/datarouter/src/daemon/dlt_log_channel.cpp:227-277 | flushes and sends the package as a datagram of its own |
| `DltLogChannels.DltLogChannel.FlushAll` | score/datarouter/src/daemon/dlt_log_channel.cpp:279-288 | hands over everything that is buffered |
| `DltFormat.ArgumentRoundTrip` | score/mw/log/detail/common/dlt_format.cpp:81-164 | an encoded argument in front of anything decodes, by section 5.1.2.2 of the protocol, to itself and leaves the rest |
| `DltFormat.LongestPrefixIs` | score/mw/log/detail/common/dlt_format.cpp:282-311 | the length that the code computes is that of the longest prefix that fits |
| `DltFormat.KeepsLongestPrefix` | score/mw/log/detail/common/dlt_format.cpp:498-583 | a string or raw buffer is kept iff more than 6 bytes remain, as a prefix; no longer prefix would fit |
| `DltFormat.KeepsScalarIff` | score/mw/log/detail/common/dlt_format.cpp:267-280 | a scalar is kept whole if and only if its type info and its value fit |
| `DltFormat.PayloadDecodes` | score/mw/log/detail/common/dlt_format.cpp:267-280 | after every series of `Log` calls the payload decodes to exactly the kept arguments in call order |
| `VerbosePayloads.SumIsExact` | score/mw/log/detail/common/helper_functions.h:25-44 | the saturating sum is the true one whenever that fits `size_t` |
| `VerbosePayloads.VerbosePayload.Store` | score/mw/log/detail/common/dlt_format.cpp:267-280 | all parts are appended, or none |
| `VerbosePayloads.VerbosePayload.LogScalar` | score/mw/log/detail/common/dlt_format.cpp:313-358 | booleans, integers and floating-point numbers: appended whole iff they fit; the payload stays the encoding of what was kept |
| `VerbosePayloads.VerbosePayload.LogText` | score/mw/log/detail/common/dlt_format.cpp:498-539 | added iff more than 6 bytes remain; the payload stays the encoding of what was kept, here the longest prefix with terminator |
| `VerbosePayloads.VerbosePayload.LogRaw` | score/mw/log/detail/common/dlt_format.cpp:541-583 | the same for raw buffers, without terminator |
| `RoutingTheorems.CommandKeepsInv` | score/datarouter/src/daemon/dlt_log_server.cpp:299-434 | every command keeps masks and name table within the existing channels and names matched to indices |
| `RoutingTheorems.AcceptedIsHanded` | score/datarouter/include/daemon/dlt_log_server.h:209-281 | after every run a message accepted by filtering is handed to at least one existing channel, any other to none |
| `RoutingTheorems.AddedIsHanded` | score/datarouter/src/daemon/dlt_log_server.cpp:390-434 | after adding a channel it gets the accepted messages of that application and context, and no assigned channel loses them |
| `RoutingTheorems.AddThenRemove` | score/datarouter/src/daemon/dlt_log_server.cpp:390-434 | adding and removing a channel restores the table iff it was not assigned and the entry was absent or not empty |
| `RoutingTheorems.ThresholdDecides` | score/datarouter/src/daemon/dlt_log_server.cpp:338-354 | the named channel, and no other, emits what it is handed up to the new threshold |
| `RoutingTheorems.OthersUnaffected` | score/datarouter/src/daemon/dlt_log_server.cpp:356-434 | setting a level or an assignment for a key leaves every message alone that is not looked up under that key |
| `RoutingPersistence.EmittingIsByName` | score/datarouter/include/daemon/dlt_log_server.h:209-281 | routing by index masks is routing by channel names |
| `RoutingPersistence.ViewSurvives` | score/datarouter/src/daemon/dlt_log_server.cpp:241-278 | saving and starting again, in any channel order, preserves all tables by name |
| `RoutingPersistence.SaveAndRestart` | score/datarouter/src/daemon/dlt_log_server.cpp:82-198 | after every run, saving and restarting preserves the emitting channels of every message iff the default channel is configured, or the first channel is the same, or no message falls back |
| `RoutingPersistence.SaveAndReload` | score/datarouter/src/daemon/dlt_log_server.cpp:98-110 | saving and re-initialising in place always preserves them |
| `RoutingPersistence.ResetRestoresFactory` | score/datarouter/src/daemon/dlt_log_server.cpp:299-309 | `ResetToDefault` brings back the routing of a first start, whatever happened before |
| `RoutingStart.FirstStart` | score/datarouter/src/daemon/dlt_log_server.cpp:97-188 | a start without stored configuration has every channel at its configured threshold and every table entry by name; the emitting channels of every message are read off the static configuration |
| `RoutingStart.StoredStart` | score/datarouter/src/daemon/dlt_log_server.cpp:97-188 | the same for a stored configuration; a channel it does not mention is off |
| `RoutingStart.ResetEmits` | score/datarouter/src/daemon/dlt_log_server.cpp:299-309 | after every run, `ResetToDefault` makes the server emit what the static configuration says |
| `RoutingPersistence.DefaultDependsOnOrder` | score/datarouter/src/daemon/dlt_log_server.cpp:112-147 | two channels and an unknown default: a restart in the other order emits on the other channel |
| `RoutingPersistence.EmptyEntryIsNotRestored` | score/datarouter/src/daemon/dlt_log_server.cpp:390-434 | a configured empty entry sends a message to the default channel; after adding and removing a channel there, the wildcard's channel gets it |
| `DltLogServers.DltLogServer.InitLogChannels` | score/datarouter/src/daemon/dlt_log_server.cpp:82-198 | the loops build exactly the reference state of a new server, including index 0 for unknown names; without a stored configuration every channel has its configured threshold |
| `DltLogServers.DltLogServer.ReloadLogChannels` | score/datarouter/src/daemon/dlt_log_server.cpp:82-214 | the same for re-initialising in place |
| `DltLogServers.DltLogServer.SaveDatabase` | score/datarouter/src/daemon/dlt_log_server.cpp:241-278 | the loops hand over exactly the reference configuration, masks written as names |
| `DltLogServers.DltLogServer.ResetToDefault` | score/datarouter/src/daemon/dlt_log_server.cpp:299-309 | clears the store and re-initialises from the static configuration: every configured channel is back at its configured threshold |
| `DltLogServers.DltLogServer.SetLogChannelThreshold` | score/datarouter/src/daemon/dlt_log_server.cpp:338-354 | fails iff the name is unknown, otherwise changes that channel alone |
| `DltLogServers.DltLogServer.SetLogLevel` | score/datarouter/src/daemon/dlt_log_server.cpp:356-369 | replaces or removes the threshold of one key and leaves all others |
| `DltLogServers.DltLogServer.SetLogChannelAssignment` | score/datarouter/src/daemon/dlt_log_server.cpp:390-434 | adds or removes one channel; an emptied entry disappears; all other keys stay |
| `DltLogServers.DltLogServer.FilterAndCall` | score/datarouter/include/daemon/dlt_log_server.h:209-235 | calls exactly the channels of the reference, each once, in index order |

## Left out

- Weak memory: all atomics are taken as sequentially consistent and fences as no-ops.
- `SharedMemoryWriter` apart from its entry layout, `VerbosePayload`, `CircularAllocator` and `DltArgumentCounter` are not part of this model; a read-acquire is taken to perform one `Switch`, a payload to be a bounded byte vector that overflows when a write is larger than the remaining capacity.
- The shared `writer_detached` flag, which the writer's process sets, is modelled in the reader object but not in the composed system.
- The callbacks of the drain loop: parsing of records by type, quota, time stamps. The header is taken in its 64-bit layout.
- The counts in `number_of_writers` are unbounded: wrapping would need 2^63 threads.
- The exit of the server (joining threads, clearing the map), `FinishPreviousSessionWhileLocked` and `UnixDomainServer`.
- That the watchdog eventually removes an unresponsive client: time-outs are arbitrary steps, and the session keeps `acquire_requested` after a miss.
- `NoDeadlock` is about a client that answers each request at most once.
- DetachedReadDelivers: is about a peer whose writers have finished and that has no acquire outstanding; a detached read of a block that is still being written is not characterised.
- SendFtVerbose: taken as atomic, although its counter is bumped outside the lock, and without its sleep.
- Results of UDP sends and the statistics of channels and sessions.
- InitLogChannels: sets no coredump channel and no throughput tables.
- ReloadLogChannels: clears no coredump channel and loads no throughput tables.
- The coredump channel, throughput quotas, output enabling, the storage header, and ids with embedded NULs.
- `SaveAndRestart` is about 1 to 31 configured channels; with none or more, the built-in channel is used and the stored configuration is not read.
- Transport, sockets, memory mapping, JSON, the key-value store, diagnostic command parsing, file transfer packaging, recorders and the other back ends: I/O or thin code that would only add easy members.
