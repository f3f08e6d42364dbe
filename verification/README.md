# Commit pipeline of cookie-cutter, modelled and verified

A service built on cookie-cutter handles input messages, and every handler leaves behind a context: the
states it has loaded, the events it wants stored on them, and the messages it wants published. This project
models what happens to those contexts and proves what the framework is for.

* **Commit.** Contexts are filtered for stale epochs and competing branches, cut into chunks, offered to a sink
  that checks sequence numbers, and bisected on failure. Over any run of batches, with other writers appending
  in between, every stored event sits where its context said it would, no two contexts that branch off one
  state both commit, and nothing commits twice.
* **Concurrent processing.** The three loops of the concurrent strategy, the two bounded queues between them
  and the reprocessing rounds after a conflict form a state machine with one step for each stretch of code
  between two `await`s. Every message is in one place at a time and is released once; the loops can block each
  other exactly when the input queue is smaller than a batch, and with a large enough one a round can always end
  unless its message has been marked as evicted.
* **State cache.** Serial processing keeps every cached state equal to a replay of a prefix of its event stream,
  and every event it stores is decided on a state that replays exactly the events in front of it. Epochs fence
  off work based on states from before a conflict, exactly as long as the LRU does not evict them.
* **Queue and pipe.** The bounded priority queue refines one first-in-first-out queue per priority and never
  loses a wake-up; the asynchronous pipe is a rendezvous that delivers in order and forgets no promise but that
  of an overtaken `throw`.
* **Storage.** Snapshots are invisible: loading from the greatest one at or below a number and adding the rest of
  the stream is a full replay, gaps included. The stored procedure keeps streams gapless, and on the chunks it
  is sent it agrees with the in-memory store about the items it looks at.

## How the model is built

| file | models |
|---|---|
| `Batching.dfy`, `Chunking.dfy`, `ChunkFilling.dfy`, `ChunkCuts.dfy`, `ChunkGaps.dfy` | `batch` and `groupBy`: the loops, their specification, what a faithful cut is, why and where chunks end, and when they are empty |
| `BatchHandling.dfy`, `SinkLimits.dfy` | `BatchHandler`: delivery with bisection to any sink, within what the sink guarantees |
| `Filters.dfy`, `Histories.dfy` | the epoch filter and the linearity filter, and what they mean for contexts |
| `InMemorySink.dfy`, `Commit.dfy` | the sequence-checked in-memory store; optimistic concurrency over whole runs |
| `Coordinator.dfy`, `Publishing.dfy`, `Freshness.dfy` | `SinkCoordinator`: filter, store, publish; what is published; when a context on current states commits |
| `Processor.dfy`, `ProcessorRuns.dfy`, `ProcessorEviction.dfy`, `ProcessorRounds.dfy`, `ProcessorOutcomes.dfy`, `ProcessorSignals.dfy` | the concurrent strategy as a state machine: conservation, deadlock, when reprocessing rounds end, what is released and sent back, what is in flight |
| `Reprocessing.dfy` | `Batch` and `ReprocessingContext`, and what a reprocessed message finds in the cache |
| `BoundedQueue.dfy`, `BoundedQueueRuns.dfy` | the bounded priority queue, alone and with its users |
| `EventSourcing.dfy`, `StateCache.dfy`, `DispatchContext.dfy`, `SerialProcessing.dfy` | states as folds, their cache, handler contexts, the serial strategy |
| `Epochs.dfy` | epochs around the cache and the coordinator |
| `Snapshots.dfy`, `CosmosStore.dfy` | the event store and snapshots on Azure |
| `AsyncPipes.dfy` | the asynchronous pipe |

Loops and objects that the original updates in place are methods and classes; each is proved equal to a
function on values, and the theorems are about those functions. Sinks are arbitrary functions of an arbitrary
state, so that a claim about every sink covers failures and other writers. Futures and promises are numbers that
are resolved or not. The processor's state machine uses plain bounded sequences for its two queues, which is what
`BoundedQueueRuns` proves of their implementation. States are an abstract type with a fold step; the only
assumption about them is that a state can be rebuilt from its snapshot (`Aggregator.SnapRestores`).

## What turned out differently

* The sink alone accepts two competing branches in one chunk, because it counts per state and not per context
  (`Commit.SinkAloneAcceptsCompetingBranches`; `Commit.SinkAloneIsSafeIff` says exactly which chunks it may be
  trusted with); the filter in front of it is what makes commits safe. For the
  same reason a verification can pass on a stale state (`Commit.VerificationPassesIff`).
* With `inputQueueCapacity < maximumBatchSize` the two loops can block each other for good
  (`ProcessorRuns.DeadlockFreeIff`, `ProcessorRuns.CircularWaitStays`).
* Eviction sets a flag on messages in the input queue, the flag is never cleared, and the handler rejects what
  carries it. Once the message that a reprocessing round waits for carries it, the round is pending for ever: the
  sink is never called again (`ProcessorEviction.StrandedForever`). With an input queue at least as large as a
  batch, and only then, nothing else keeps a round from ending (`ProcessorRounds.RoundEndsIff`,
  `ProcessorRounds.RoundsEndIff`).
* An LRU eviction starts a key's epoch over, after which a state from before the conflict is accepted again
  (`Epochs.EvictionReopens`; `Epochs.FencedIff` says exactly when a state is fenced off).
* The in-memory source returns one event too few for `load(key, atSn)` (`EventSourcing.LoadAtIsOneShort`).
* The Cosmos source reports data loss for documents that are there when several numbers are missing up to `atSn`
  and several documents lie behind it (`Snapshots.AlarmsAreRealIff`).
* Cosmos checks no verification next to stored items, and otherwise only the first
  (`CosmosStore.VerificationsMissedIff`).
* A `throw` on a pipe that comes while another is pending overtakes it, whose promise is then never settled
  (`AsyncPipes.SettledIff`, `AsyncPipes.OvertakenIsForgotten`).
* A sink can be called with an empty chunk (`ChunkGaps.EmptyChunkIff` says exactly when).
* If only the filters reject contexts, those in front of them are stored and reported successful, and their messages
  are never published (`Publishing.PublishedIfReported`).
* A context whose events for one key fall into two chunks can never commit, though nobody competes with it, and leaves
  the first part behind (`Freshness.FreshCommitsIff`). That is so with more events on a key than a chunk takes
  (`Freshness.TooManyNeverCommit`), and for a sink that is atomic per partition already if an event on another key
  comes in between (`Freshness.InterleavedNeverCommit`).
* A call of `enqueue` on a closed queue may still have to wait (`BoundedQueueRuns.LateCallWaits`), but only one that
  comes after the close (`BoundedQueueRuns.NoneWaitsBeyondClose`).
* Enqueueing to a closed queue that has room succeeds: `BoundedQueueRuns.EnqueueStores` states acceptance as
  having room, closed or not.

## Model

| member | source | states |
|---|---|---|
| Batching.GroupBy | packages/core/src/internal/batching/helper.ts:204-218 | the generator's groups are those of `Groups`, whose meaning is the next row |
| Batching.GroupsAreMaximalRuns | packages/core/src/internal/batching/helper.ts:204-218 | the groups are non-empty, concatenate to the items, are homogeneous, and neighbouring groups could not be joined |
| Batching.BatchSlices | packages/core/src/internal/batching/helper.ts:55-69 | the inner loop over an oversized group ends, also when no room is left in the batch, and cuts as specified |
| Batching.Batch | packages/core/src/internal/batching/helper.ts:15-91 | the nested loops compute `Chunks`; a size of zero or less is an error |
| Chunking.ChunksAreFaithful | packages/core/src/internal/batching/helper.ts:15-91 | chunks concatenate to all items in order, none is larger than the limit or mixes groups, no group that fits is split, after each chunk exactly the non-empty contexts that are through are reported, and no chunk comes when nothing is left |
| ChunkFilling.ChunksAreFilled | packages/core/src/internal/batching/helper.ts:42-90 | no chunk but the last ends without a reason: it is full, the next item must not join it, the container of the next group would not fit in as a whole, or a group too large for any chunk ends there |
| ChunkFilling.OneChunk | packages/core/src/internal/batching/helper.ts:15-91 | items of one group that fit into one chunk go out in one chunk |
| ChunkCuts.ContainersKeptTogether | packages/core/src/internal/batching/helper.ts:71-77 | no group that fits into a chunk starts inside one that does not have room for its whole container |
| ChunkGaps.EmptyChunkIff | packages/core/src/internal/batching/helper.ts:71-77 | an empty chunk comes exactly in front of a group that fits into a chunk though its container does not, if nothing in front can share its chunk |
| BatchHandling.RunPass | packages/core/src/internal/batching/BatchHandler.ts:33-43 | the loop over the chunks ends with the first error and counts the contexts completed by then |
| BatchHandling.Handle | packages/core/src/internal/batching/BatchHandler.ts:21-64 | the recursive delivery, for every sink, is the function the rows below are about |
| BatchHandling.HandledPartition | packages/core/src/internal/batching/BatchHandler.ts:31-63 | successful and failed contexts are the input in order; there is an error exactly if something failed |
| BatchHandling.HandledSound | packages/core/src/internal/batching/BatchHandler.ts:31-63 | for any sink and any contexts, all items of successful contexts were in accepted chunks |
| BatchHandling.HandledWithin | packages/core/src/internal/batching/BatchHandler.ts:31-63 | the sink is sent items of the given contexts only |
| BatchHandling.OneItemLog | packages/core/src/internal/batching/BatchHandler.ts:31-63 | with one item per context the accepted items are exactly those of the successful contexts, once and in order |
| BatchHandling.CulpritIsolated | packages/core/src/internal/CompositeOutputSink.ts:61-78 | if a sink refuses exactly the chunks with a poison item, nothing fails without poison and otherwise the first failed context is the first that carries any |
| BatchHandling.DepthBound | packages/core/src/internal/batching/BatchHandler.ts:44-53 | there are at most floor(log2(batchSize)) + 1 passes |
| SinkLimits.KeepsToGuarantees | packages/core/src/internal/batching/BatchHandler.ts:31-72 | no call is larger than the size asked for or else the sink's maximum; what may go out at once does; a sink that is not atomic gets one pass; the error is the sink's answer to the last call and may be retried exactly if it is a conflict, the sink is atomic, or there is one context |
| SinkLimits.HandledGenuine | packages/core/src/internal/batching/BatchHandler.ts:33-36 | the calls the other results speak of are those that the sink has got, in that order, with its own answers |
| Filters.FilterNonLinearStateChanges | packages/core/src/internal/batching/helper.ts:141-202 | the loop over the lookup table cuts the contexts at the longest linear prefix and reports the first write that breaks it |
| Filters.LongestLinearPrefix | packages/core/src/internal/batching/helper.ts:171-201 | exactly the prefixes up to that cut are linear histories: each key's later writers start where the earlier ones have led |
| Filters.FirstBreakIsFirst | packages/core/src/internal/batching/helper.ts:171-201 | the reported write is the first that does not continue its key's history |
| Histories.ChainedIff | packages/core/src/internal/batching/helper.ts:171-201 | the writes of some contexts are linear exactly if each context starts, on every key it writes, at the first writer's number plus the events that the earlier ones store on it, or belongs to the message that wrote last |
| Histories.PassIff | packages/core/src/internal/batching/helper.ts:141-202 | the filter lets exactly the chained prefixes through, and the first context cut off does not fit behind the others |
| Histories.CutIsReported | packages/core/src/internal/batching/helper.ts:182-195 | the error names a key that the first context cut off does not take up, the number it starts at and the one it should start at |
| Filters.FilterByEpoch | packages/core/src/internal/batching/helper.ts:100-139 | the contexts are cut at the first one with a state of an older epoch, whose first such state is reported |
| Filters.StaleIsReported | packages/core/src/internal/batching/helper.ts:115-133 | the first context with a stale state is the first that fails, and its first stale state is reported with both epochs |
| InMemorySink.InMemoryStateOutputSink.Sink | packages/core/src/defaults/InMemoryStateOutputSink.ts:22-54 | the store takes all items or none |
| InMemorySink.InMemoryStateOutputSink.Collect | packages/core/src/defaults/InMemoryStateOutputSink.ts:26-45 | the checks with counter and update maps find the first conflict and buffer exactly the new events |
| InMemorySink.AcceptedIff | packages/core/src/defaults/InMemoryStateOutputSink.ts:26-45 | a chunk is accepted exactly if every item's sequence number is the length its stream has by then |
| InMemorySink.ConflictIsFirst | packages/core/src/defaults/InMemoryStateOutputSink.ts:31-38 | a refusal names the first item that does not fit, with the number it claims and the one that counts |
| InMemorySink.StreamOfAppend | packages/core/src/defaults/InMemoryStateOutputSink.ts:47-51 | every stream grows by the chunk's events for its key, in order |
| InMemorySink.OnlyAcceptedIsStored | packages/core/src/defaults/InMemoryStateOutputSink.ts:22-54 | over any calls each stream is what it was plus the events of the accepted chunks: a refusal leaves nothing behind |
| Commit.LinearApart | packages/core/src/internal/batching/helper.ts:171-201 | contexts that pass the linearity filter store on pairwise different states |
| Commit.LandsInPlace | packages/core/src/defaults/InMemoryStateOutputSink.ts:26-51 | an accepted event lands at its state's number plus its index among its context's events for the key |
| Commit.AcceptedChunkSound | packages/core/src/defaults/InMemoryStateOutputSink.ts:22-54 | an accepted chunk keeps the store sound and moves the pass behind it |
| Commit.HandleSafe | packages/core/src/internal/batching/BatchHandler.ts:21-64 | delivery keeps the store sound through all chunks, rejections and bisections, with others appending in between |
| Commit.CommitSafety | packages/core/src/internal/batching/SinkCoordinator.ts:93-190 | over any run of batches every event sits at its state's number plus its index among its context's events, right behind the previous one |
| Commit.NoCompetingBranches | packages/core/src/internal/batching/SinkCoordinator.ts:93-190 | two events stored on the same state belong to the same context |
| Commit.NoDoubleCommit | packages/core/src/internal/batching/SinkCoordinator.ts:93-190 | an event of ours is at one place of one stream only |
| Commit.Rooted | packages/core/src/defaults/InMemoryStateOutputSink.ts:22-54 | everything between a state and an event stored on it belongs to the event's context |
| Commit.SinkAloneAcceptsCompetingBranches | packages/core/src/defaults/InMemoryStateOutputSink.ts:31-43 | in any store two events on one state are accepted exactly if that state is current, whoever stores them; if two contexts do, the store is no longer sound |
| Commit.SinkAloneIsSafeIff | packages/core/src/defaults/InMemoryStateOutputSink.ts:22-54 | an accepted chunk keeps a sound store sound exactly if it numbers the events on every state one after the other and takes them from one context |
| Commit.VerificationPassesIff | packages/core/src/defaults/InMemoryStateOutputSink.ts:31-38 | a verification passes exactly if its state, plus what the chunk has branched off it, is current |
| Coordinator.CollectStoreTargetItems | packages/core/src/internal/batching/SinkCoordinator.ts:210-228 | a context contributes its stored items and a verification for each loaded state that it does not write |
| Coordinator.ReadOnlyIff | packages/core/src/internal/batching/SinkCoordinator.ts:213-227 | a loaded state is verified exactly if the context writes nothing to its key |
| Coordinator.Coordinate | packages/core/src/internal/batching/SinkCoordinator.ts:93-190 | the protocol with its early returns is the function the rows below are about |
| Coordinator.CoordinatedPartition | packages/core/src/internal/batching/SinkCoordinator.ts:93-190 | in every outcome successful and failed contexts are the input in order, with an error exactly if something failed |
| Coordinator.NothingBehindTheFilters | packages/core/src/internal/batching/SinkCoordinator.ts:99-109 | the store sees only contexts in front of the first filtered one, which is stale or breaks a linear history |
| Coordinator.PublishedWereStored | packages/core/src/internal/batching/SinkCoordinator.ts:134-167 | a context is handed to publish only if all its store items were accepted |
| Coordinator.PublishedOnlyThose | packages/core/src/internal/batching/SinkCoordinator.ts:134-167 | the publish sink sees the items of those contexts only |
| Histories.GoodIff | packages/core/src/internal/batching/SinkCoordinator.ts:99-108 | exactly the prefixes without a stale state and with chained writes get to the store |
| Publishing.PublishedIfReported | packages/core/src/internal/batching/SinkCoordinator.ts:134-189 | if the store fails, the messages of the stored contexts are offered before its error is reported; if only the filters reject, nothing is published although the contexts in front are stored and reported successful; otherwise only contexts whose messages are accepted are reported successful |
| Publishing.PublishCalledIff | packages/core/src/internal/batching/SinkCoordinator.ts:134-167 | the publish sink is called exactly if there is something to publish, unless only the filters reject |
| Publishing.RejectionIsReported | packages/core/src/internal/batching/SinkCoordinator.ts:156-161 | when only the filters reject, a stale state is reported before a break in a history |
| Publishing.SinksAreRespected | packages/core/src/internal/batching/SinkCoordinator.ts:57-90 | both sinks get calls within their maximum, one partition at a time if they are atomic per partition, and otherwise everything at once unless there is a maximum |
| Publishing.CallsAreGenuine | packages/core/src/internal/batching/SinkCoordinator.ts:110-167 | the recorded calls are those the two sinks have got, with their own answers |
| Publishing.RetryableIff | packages/core/src/internal/batching/SinkCoordinator.ts:173-189 | exactly when a failed batch may be handed over again; never what filters reject, nor a publish error behind a store that is not idempotent |
| Freshness.FreshStoredIff | packages/core/src/internal/batching/BatchHandler.ts:31-63 | a context based on current states is stored, while nobody else writes, exactly if no key has events in two of its chunks |
| Freshness.FreshCommitsIff | packages/core/src/internal/batching/SinkCoordinator.ts:93-190 | the same for the whole call of the coordinator, with a publish sink that takes everything |
| Freshness.TooManyNeverCommit | packages/core/src/internal/batching/SinkCoordinator.ts:93-190 | a context with more events on one key than a chunk takes never commits, however fresh it is |
| Freshness.InterleavedNeverCommit | packages/core/src/internal/batching/SinkCoordinator.ts:57-71 | nor does, for a sink that is atomic per partition, one that stores on a key, on another one, and on the first again |
| Processor.ConservedStep | packages/core/src/internal/processor/ConcurrentMessageProcessor.ts:166-528 | every step keeps each message in exactly one place |
| Processor.InvStep | packages/core/src/internal/processor/ConcurrentMessageProcessor.ts:166-528 | every step keeps the invariant: conservation, queue bounds, batch shape, load bound, live signals, orderly shutdown |
| Processor.VacantWhenReleased | packages/core/src/internal/CompositeInputSource.ts:105-110 | when the source ends because all is released, no message is left anywhere |
| ProcessorRuns.MessageConservation | packages/core/src/internal/processor/ConcurrentMessageProcessor.ts:166-528 | over every run each message is in one place and released at most once, a message sent back never meets a closed queue, and a finished run has released everything once |
| ProcessorRuns.NoStrandedOutput | packages/core/src/internal/processor/ConcurrentMessageProcessor.ts:357-527 | the batch is never over its maximum, is empty during a reprocessing round, and is empty whenever the output loop waits or has ended |
| ProcessorRuns.NoCircularWait | packages/core/src/internal/processor/ConcurrentMessageProcessor.ts:309-311 | with an input queue at least as large as a batch the loops never wait for each other's queue |
| ProcessorRuns.CircularWaitStays | packages/core/src/internal/processor/ConcurrentMessageProcessor.ts:382-391 | no step of any loop resolves such a wait |
| ProcessorRuns.Progress | packages/core/src/internal/processor/ConcurrentMessageProcessor.ts:166-528 | every reachable state lets the processor move, waits for the source with nothing in hand, or is done |
| ProcessorRuns.DeadlockFreeIff | packages/core/src/internal/processor/ConcurrentMessageProcessor.ts:471-487 | no reachable state has the loops wait for each other exactly if the input queue is at least as large as a batch |
| ProcessorEviction.MarkedStep | packages/core/src/internal/processor/ConcurrentMessageProcessor.ts:249-251 | every step keeps a message marked as evicted in the input queue, in the handler's hands or released, and only marked messages are rejected |
| ProcessorEviction.AwaitedUnlessEvicted | packages/core/src/internal/processor/ConcurrentMessageProcessor.ts:372-406 | the message a round waits for is on its way back and unreleased, or it is marked as evicted and in the input queue, in the handler's hands or released, and nowhere else |
| ProcessorEviction.StrandedForever | packages/core/src/internal/processor/ConcurrentMessageProcessor.ts:249-251 | from the moment it is marked, even while it still lies in the input queue, the round never ends, the sink is never called again, and every message that comes up is sent back |
| ProcessorEviction.StrandedRun | packages/core/src/internal/processor/ConcurrentMessageProcessor.ts:168-170 | such a state is reachable, with the marked message still in the input queue |
| ProcessorRounds.RoundEndsIff | packages/core/src/internal/processor/ConcurrentMessageProcessor.ts:372-406 | with an input queue at least as large as a batch, from every reachable state with a pending round the round can end, and the awaited message can be sunk again, exactly if that message is not marked as evicted |
| ProcessorRounds.RoundsEndIff | packages/core/src/internal/processor/ConcurrentMessageProcessor.ts:462-488 | every round whose message is not marked as evicted can end exactly if the input queue is at least as large as a batch |
| ProcessorRounds.Forward | packages/core/src/internal/processor/ConcurrentMessageProcessor.ts:192-528 | in every state of a round whose message is not marked the processor has a step that brings that message forward, rejecting marked ones in front of it |
| ProcessorRounds.PendingStep | packages/core/src/internal/processor/ConcurrentMessageProcessor.ts:192-528 | until the awaited message is marked or comes up, no step of any loop or of the source ends the wait for it |
| ProcessorRounds.NobodyOvertakes | packages/core/src/internal/processor/ConcurrentMessageProcessor.ts:372-406 | along any run of a pending round, whatever comes up before the awaited message was in front of it already |
| ProcessorOutcomes.ReleasedIff | packages/core/src/internal/processor/ConcurrentMessageProcessor.ts:424-520 | over every run a message is released exactly if it was a duplicate, was rejected as marked, or has come through the sink and its turn has come; the sink's releases are in order |
| ProcessorOutcomes.PassedIsOver | packages/core/src/internal/processor/ConcurrentMessageProcessor.ts:424-520 | a message that was delivered or in front of a conflict is released or about to be, and nowhere else ever after |
| ProcessorOutcomes.BatchIsSettled | packages/core/src/internal/processor/ConcurrentMessageProcessor.ts:462-516 | back at waiting after a sink call, exactly the delivered batch, or what was in front of the conflict, has been released, in order |
| ProcessorOutcomes.BackInOrder | packages/core/src/internal/processor/ConcurrentMessageProcessor.ts:382-391 | what was sent back, from a conflict on or skipped, and nothing else comes to the handler again, in that order |
| ProcessorOutcomes.BatchIsSentWhenDue | packages/core/src/internal/processor/ConcurrentMessageProcessor.ts:409-415 | a batch is sent only when it is full or nothing is behind it, and below its minimum only if the loop has lingered over it, once |
| ProcessorSignals.InFlightIff | packages/core/src/internal/processor/ConcurrentMessageProcessor.ts:201-202 | exactly those signals are unresolved whose message is being handled, queued for output, looked at by the output loop, or the last of the batch being sent |
| ProcessorSignals.ClosedIsQuiet | packages/core/src/internal/processor/ConcurrentMessageProcessor.ts:188-189 | the input queue is closed only when nothing is in flight and everything is released |
| Reprocessing.Batch.ShouldLinger | packages/core/src/internal/processor/Batch.ts:25-32 | a batch below its minimum lingers, once until it is reset |
| Reprocessing.ReprocessingContext.Wrap | packages/core/src/internal/processor/ReprocessingContext.ts:27-34 | wrapping a context notes the loaded keys that are new, in order |
| Reprocessing.EvictedOnce | packages/core/src/internal/processor/ReprocessingContext.ts:11-41 | over a whole round the keys evicted or still to be evicted are the loaded keys, once each, in the order of first load |
| Reprocessing.HandleReprocessingContext | packages/core/src/internal/processor/ConcurrentMessageProcessor.ts:224-232 | before a message is handled again exactly the keys still to be evicted leave the cache |
| Reprocessing.NothingOldIsRead | packages/core/src/internal/processor/ConcurrentMessageProcessor.ts:224-232 | under a key that a context sent back has loaded, a message handled again finds only a state that was put into the cache since the conflict |
| Reprocessing.OlderIsUntouched | packages/core/src/defaults/CachingStateProvider.ts:68-108 | exactly what was cached at the conflict and has not been replaced, lost or evicted since counts as older, and it is unchanged |
| BoundedQueue.BoundedPriorityQueue.TryEnqueue | packages/core/src/utils/BoundedPriorityQueue.ts:38-68 | one stretch of `enqueue`, with its whole new state and what it returns or awaits |
| BoundedQueue.BoundedPriorityQueue.TryDequeue | packages/core/src/utils/BoundedPriorityQueue.ts:70-102 | one stretch of `dequeue`, with its whole new state and what it returns or awaits |
| BoundedQueue.BoundedPriorityQueue.Close | packages/core/src/utils/BoundedPriorityQueue.ts:108-118 | closing resolves every current future |
| BoundedQueue.EnqueueShape | packages/core/src/utils/BoundedPriorityQueue.ts:38-68 | the priorities stay sorted and those of the queues, no queue exceeds its capacity, the count is the number of items |
| BoundedQueue.DequeueShape | packages/core/src/utils/BoundedPriorityQueue.ts:70-102 | the same for `dequeue`, which drops emptied queues of positive priority |
| BoundedQueueRuns.EnqueueStores | packages/core/src/utils/BoundedPriorityQueue.ts:38-68 | an item is accepted exactly if its queue has room and is then the last of its priority; otherwise nothing changes |
| BoundedQueueRuns.DequeueServes | packages/core/src/utils/BoundedPriorityQueue.ts:70-102 | what is dequeued is the oldest item of the highest priority that has any; the consumer waits or ends only if there is none |
| BoundedQueueRuns.StepInv | packages/core/src/utils/BoundedPriorityQueue.ts:38-118 | every step of any producer or the consumer keeps the invariant |
| BoundedQueueRuns.NoLostWakeups | packages/core/src/utils/BoundedPriorityQueue.ts:38-118 | whoever waits for an unresolved future waits for the current one, a producer with its queue full, the consumer with nothing stored and the queue open |
| BoundedQueueRuns.NeverBothStuck | packages/core/src/utils/BoundedPriorityQueue.ts:38-118 | a waiting producer and a waiting consumer: one of them can go on |
| BoundedQueueRuns.NobodySpins | packages/core/src/utils/BoundedPriorityQueue.ts:38-102 | on an open queue whoever has to wait, at first or after being woken, waits for an unresolved future |
| BoundedQueueRuns.CloseWakesAll | packages/core/src/utils/BoundedPriorityQueue.ts:108-118 | closing wakes the consumer and every waiting producer |
| BoundedQueueRuns.NoneWaitsBeyondClose | packages/core/src/utils/BoundedPriorityQueue.ts:108-118 | who has called before the close never waits for an unresolved future after it |
| BoundedQueueRuns.LateCallWaits | packages/core/src/utils/BoundedPriorityQueue.ts:38-58 | who calls after the close may have to: a new priority gets a future that no close has resolved |
| BoundedQueueRuns.QueueConservation | packages/core/src/utils/BoundedPriorityQueue.ts:38-102 | per priority the accepted items are the delivered ones followed by the stored ones, calls are accepted once and only if they return true, and the consumer ends with everything delivered |
| EventSourcing.Aggregate | packages/core/src/defaults/ConventionBasedStateAggregator.ts:19-35 | the loop is the fold of the events over the restored snapshot |
| EventSourcing.ComputeComposes | packages/core/src/defaults/EventSourcedStateProvider.ts:58-66 | computing in two steps is computing in one |
| EventSourcing.ComputeReplays | packages/core/src/defaults/EventSourcedStateProvider.ts:58-66 | adding the events that follow a version gives what a full replay gives |
| EventSourcing.FetchReplays | packages/core/src/defaults/EventSourcedStateProvider.ts:48-56 | a loaded state is a replay of some prefix of its stream, whose length is its number |
| EventSourcing.LoadAtIsOneShort | packages/core/src/defaults/InMemoryStateAggregationSource.ts:29 | `load(key, n)` returns the first `n` events exactly if there are fewer, or none at all |
| StateCache.CachingStateProvider.Get | packages/core/src/defaults/CachingStateProvider.ts:68-83 | a hit needs the requested number; a loaded state is kept only if the key has none; the result is a clone without epoch |
| StateCache.CachingStateProvider.Set | packages/core/src/defaults/CachingStateProvider.ts:103-108 | a state replaces an older one only |
| StateCache.CachingStateProvider.Invalidate | packages/core/src/defaults/CachingStateProvider.ts:85-101 | the key goes and no eviction callback is called |
| StateCache.NewestStays | packages/core/src/defaults/CachingStateProvider.ts:76-108 | a loaded state never replaces a cached one, a computed one does exactly if it is newer |
| StateCache.StillCoherent | packages/core/src/defaults/CachingStateProvider.ts:68-108 | what others append leaves every cached state a replay |
| DispatchContext.BufferedDispatchContext.Get | packages/core/src/internal/BufferedDispatchContext.ts:38-42 | loading keeps the cache coherent, returns a replay and records it under its key |
| DispatchContext.BufferedDispatchContext.Store | packages/core/src/internal/BufferedDispatchContext.ts:158-181 | items are kept in order; after completion storing is refused |
| DispatchContext.BufferedDispatchContext.ComputeStates | packages/core/src/internal/BufferedDispatchContext.ts:66-76 | one state for each key stored to, from the first version and all its events |
| DispatchContext.BufferedDispatchContext.Complete | packages/core/src/internal/BufferedDispatchContext.ts:195-203 | the computed states, one per key, are offered to the cache |
| DispatchContext.PutIs | packages/core/src/internal/BufferedDispatchContext.ts:38-42 | a key loaded again keeps its place and gets the new version |
| DispatchContext.AllAreCached | packages/core/src/internal/BufferedDispatchContext.ts:195-203 | after completion every computed state or a newer one is cached, and no cached state is older than before |
| SerialProcessing.HandleKept | packages/core/src/internal/batching/BatchHandler.ts:31-63 | delivery only makes streams longer, and accepted events are in them |
| SerialProcessing.Delivery | packages/core/src/internal/batching/SinkCoordinator.ts:93-190 | without an error all events of the delivered context are stored |
| SerialProcessing.ComputedReplays | packages/core/src/internal/BufferedDispatchContext.ts:66-76 | once its events are stored, what a context computes is a replay of the stream |
| SerialProcessing.CompletedCoherent | packages/core/src/internal/BufferedDispatchContext.ts:195-203 | completing a delivered context puts nothing but replays into the cache |
| SerialProcessing.SerialMessageProcessor.DispatchToHandler | packages/core/src/internal/processor/BaseMessageProcessor.ts:154-178 | failed runs leave nothing behind but coherent cache entries; the context holds what the last run wrote, every event on a state that replays its stream |
| SerialProcessing.SerialMessageProcessor.DispatchToSink | packages/core/src/internal/processor/BaseMessageProcessor.ts:180-210 | the sink is called again exactly as long as its error may be retried and is no conflict; however often, nothing stored is lost, and without an error all events are stored; with current states, nobody else writing, a willing publish sink and room for all of it, there is no error |
| SerialProcessing.SerialMessageProcessor.HandleMessage | packages/core/src/internal/processor/SerialMessageProcessor.ts:84-237 | after every round the store is sound and the cache coherent; when done, all that the handler wrote is stored in one piece right behind the events that make up the states it saw; after a conflict no state that the round has read is cached, so that a later round that reads the same keys, undisturbed, commits |
| SerialProcessing.SerialMessageProcessor.InvalidateLoaded | packages/core/src/internal/processor/SerialMessageProcessor.ts:182-184 | after a conflict no loaded key is cached any more |
| SerialProcessing.SerialMessageProcessor.Run | packages/core/src/internal/processor/SerialMessageProcessor.ts:47-82 | over all messages, with other writers, every cached state stays a replay of a prefix of its stream; marked messages are skipped and what finished ones have written is in the store |
| Epochs.EpochManager.Advance | packages/core/src/internal/EpochManager.ts:21-22 | a key moves on to the next epoch, from one if it has none |
| Epochs.EpochStateProvider.Get | packages/core/src/internal/EpochStateProvider.ts:44-52 | the state is a replay and carries the epoch from before the load, whatever happens to epochs and cache meanwhile |
| Epochs.LoadedMeanwhile | packages/core/src/internal/EpochStateProvider.ts:49-51 | as long as the key's state is not evicted meanwhile, a state is fenced off from the start exactly if its key was invalidated during the load; if it is evicted, exactly if the invalidations since reach the state's epoch |
| Epochs.EpochStateProvider.Set | packages/core/src/internal/EpochStateProvider.ts:59-63 | only states of the current epoch enter the cache |
| Epochs.EpochStateProvider.Invalidate | packages/core/src/internal/EpochStateProvider.ts:36-41 | the key moves on and leaves the cache without its epoch being reset by the callbacks |
| Epochs.EpochStateProvider.Delete | packages/core/src/internal/EpochStateProvider.ts:65-67 | a state deleted on purpose leaves the cache and its key's epoch stays |
| Epochs.EpochStateProvider.Drop | packages/core/src/defaults/CachingStateProvider.ts:49-56 | entries that the LRU drops take their epochs with them |
| Epochs.EpochStateProvider.InvalidateAll | packages/core/src/internal/batching/SinkCoordinator.ts:130-132 | all bad keys move on by one and leave the cache, all others stay |
| Epochs.EpochAfter | packages/core/src/internal/EpochManager.ts:17-30 | over any run a key's epoch is what it was, or one if its state was evicted, plus the invalidations since |
| Epochs.FencedIff | packages/core/src/internal/EpochStateProvider.ts:59-63 | exactly when a state is fenced off after a run; then the cache does not take what is computed from it |
| Epochs.EvictionReopens | packages/core/src/internal/EpochManager.ts:28-30 | an eviction makes a state from before the conflict acceptable again |
| Epochs.FailedKeysMoveOn | packages/core/src/internal/batching/SinkCoordinator.ts:115-132 | every key loaded by a failed context is invalidated when filters or store report a conflict |
| Epochs.InvalidatedIff | packages/core/src/internal/batching/SinkCoordinator.ts:115-132 | exactly the keys are invalidated that a filtered context has loaded or, on a conflict in the store, one that was not stored |
| Epochs.ConflictFences | packages/core/src/internal/batching/SinkCoordinator.ts:115-132 | after a conflict those keys have a larger epoch and are uncached, and until they are evicted contexts based on older states are cut off in front of the store and never cached |
| Snapshots.GreatestAtOrBelow | packages/azure/src/event-sourced/internal/BlobStorageSnapshotProvider.ts:15-32 | the search finds the greatest listed number at or below the target, or none if there is none |
| Snapshots.IndexedAscending | packages/azure/src/event-sourced/internal/BlobStorageSnapshotOutputSink.ts:66-74 | the index stays strictly sorted and gains exactly the new number |
| Snapshots.BlobStorageSnapshotOutputSink.Sink | packages/azure/src/event-sourced/internal/BlobStorageSnapshotOutputSink.ts:39-76 | exactly the due snapshots are written and listed |
| Snapshots.SinkKeepsTrue | packages/azure/src/event-sourced/internal/BlobStorageSnapshotOutputSink.ts:39-76 | every listed snapshot exists and stands for the events up to its number |
| Snapshots.ProvidedIsTrue | packages/azure/src/event-sourced/internal/BlobStorageSnapshotProvider.ts:47-82 | the provider returns the greatest usable snapshot, or the empty state for zero events |
| Snapshots.CosmosStateAggregationSource.Load | packages/azure/src/event-sourced/internal/CosmosStateAggregationSource.ts:55-117 | the loop keeps the documents up to `atSn` and reports gaps |
| Snapshots.TopDropsNothing | packages/azure/src/event-sourced/internal/CosmosStateAggregationSource.ts:67-77 | between a snapshot and `atSn` there are at most as many documents as the query's bound |
| Snapshots.LoadIsReplay | packages/azure/src/event-sourced/internal/CosmosStateAggregationSource.ts:55-117 | aggregating what is loaded equals replaying all events up to `atSn`, whatever snapshot is provided and whatever numbers are missing |
| Snapshots.LoadedNumber | packages/azure/src/event-sourced/internal/CosmosStateAggregationSource.ts:79-116 | the returned number is that of the last document, or the snapshot's if that is ahead |
| Snapshots.GrowthKeepsTrue | packages/azure/src/event-sourced/internal/BlobStorageSnapshotProvider.ts:47-82 | a true snapshot stays true when the stream grows |
| Snapshots.StaysTrue | packages/azure/src/event-sourced/internal/BlobStorageSnapshotOutputSink.ts:39-76 | appending to streams and taking snapshots, in any order, keeps every listed snapshot true |
| Snapshots.ListedIff | packages/azure/src/event-sourced/internal/BlobStorageSnapshotOutputSink.ts:39-76 | over any run exactly the offered states whose number is a multiple of the frequency are on the list |
| Snapshots.SnapshotsAreInvisible | packages/azure/src/event-sourced/internal/CosmosStateAggregationSource.ts:55-117 | sink, index, provider and query together, while the streams grow: the state is loaded as if there were no snapshots |
| Snapshots.AlarmsAreRealIff | packages/azure/src/event-sourced/internal/CosmosStateAggregationSource.ts:67-90 | every number reported as lost is missing exactly if at most one number is missing between the snapshot and `atSn`, or at most one document lies behind `atSn` |
| CosmosStore.CosmosContainer.BulkInsert | packages/azure/src/resources/bulkInsertSproc.js:1-47 | all documents are created or none; the result names the first one that does not continue the stream |
| CosmosStore.CommitsIffContinues | packages/azure/src/resources/bulkInsertSproc.js:23-46 | a verified batch commits exactly if its numbers continue the stream, and is then appended to it |
| CosmosStore.StreamsStayGapless | packages/azure/src/resources/bulkInsertSproc.js:23-46 | over any inserts, verified or not, refused or not, every stream is numbered from one without a gap |
| CosmosStore.SinkGapless | packages/azure/src/event-sourced/internal/CosmosOutputSink.ts:24-64 | whatever items the sink is given, the streams stay gapless |
| CosmosStore.CosmosOutputSink.Sink | packages/azure/src/event-sourced/internal/CosmosOutputSink.ts:24-64 | stored items become numbered documents; without any, the first verification is checked |
| CosmosStore.CosmosOutputSink.Collect | packages/azure/src/event-sourced/internal/CosmosOutputSink.ts:28-54 | the counter numbers every document behind its state and the earlier items on the same state |
| CosmosStore.CosmosAgrees | packages/azure/src/event-sourced/internal/CosmosOutputSink.ts:24-64 | on a chunk of one key Cosmos accepts exactly what the in-memory store accepts of the items Cosmos looks at, with the same events afterwards |
| CosmosStore.VerificationsMissedIff | packages/azure/src/event-sourced/internal/CosmosOutputSink.ts:55-63 | Cosmos accepts a chunk of one key that the in-memory store refuses exactly if the items it looks at fit and another verification is stale; it never refuses what that store accepts |
| CosmosStore.InsertOutcome | packages/azure/src/resources/bulkInsertSproc.js:23-46 | what becomes of a verified batch when the database refuses a document: committed, aborted, or a conflict with the first wrong number, and nothing stored in the last two cases |
| CosmosStore.UnverifiedIsAppended | packages/azure/src/resources/bulkInsertSproc.js:23-46 | an unverified batch is appended under the next numbers |
| CosmosStore.SunkIff | packages/azure/src/event-sourced/internal/CosmosOutputSink.ts:24-64 | exactly when a chunk of one key is accepted, is a conflict, or fails otherwise |
| CosmosStore.DeliveredSingleKeys | packages/azure/src/utils/CosmosOutputSinkBase.ts:74 | a store that is atomic per partition is never sent two streams in one chunk, which the bulk insert relies on |
| AsyncPipes.AsyncPipe.Send | packages/core/src/utils/AsyncPipe.ts:32-49 | a send is refused, answers a waiting `next`, or waits |
| AsyncPipes.AsyncPipe.Throw | packages/core/src/utils/AsyncPipe.ts:51-67 | an error ends a waiting `next` or waits behind the pending value |
| AsyncPipes.AsyncPipe.Close | packages/core/src/utils/AsyncPipe.ts:69-93 | closing settles whatever is pending |
| AsyncPipes.AsyncPipe.Next | packages/core/src/utils/AsyncPipe.ts:103-129 | a `next` is answered with the pending value, then the pending error, or waits |
| AsyncPipes.PipeInvariant | packages/core/src/utils/AsyncPipe.ts:32-129 | a pending send and a pending `next` never coexist; the accepted values are the delivered ones in order, then the one unread or the one dropped on closing |
| AsyncPipes.ReaderGets | packages/core/src/utils/AsyncPipe.ts:32-129 | the delivered values are those that the calls of `next` were answered with, in the order of the calls |
| AsyncPipes.RefusedIff | packages/core/src/utils/AsyncPipe.ts:32-49 | a value is refused exactly if the pipe is closed, or the value before it or an error is still unread; otherwise it is accepted |
| AsyncPipes.ErrorComesLast | packages/core/src/utils/AsyncPipe.ts:51-67 | when the reader gets the error it has got every accepted value before |
| AsyncPipes.NothingAfterClose | packages/core/src/utils/AsyncPipe.ts:69-106 | once the pipe is closed nothing is delivered or accepted and every call is answered at once |
| AsyncPipes.SettledOnce | packages/core/src/utils/AsyncPipe.ts:32-129 | no promise is settled twice or in two ways |
| AsyncPipes.SettledIff | packages/core/src/utils/AsyncPipe.ts:32-129 | a promise is settled exactly if it is neither open nor that of a `throw` overtaken while it was pending; on a closed pipe exactly the overtaken ones are unsettled |
| AsyncPipes.OvertakenIsForgotten | packages/core/src/utils/AsyncPipe.ts:62-65 | after any calls, a `throw` that comes while another is pending leaves that one's promise unsettled whatever follows |

## Left out

- Tracing, metrics, loggers, annotators, enrichers, validators and encoders: they do not touch the protocol state.
- RPC mode (`RpcMessageProcessor.ts`), which runs several handlers side by side: `Epochs` covers its fencing for any interleaving, the state machine of `Processor` has one handler.
- Crash paths: unhandled errors, health checks, process signals, release listeners that throw.
- Wall-clock time: lingering, sleeping and back-off are steps that can happen at any time.
- Fairness: `ProcessorRounds` proves that a round can end from every state it says, not that every schedule lets it.
- Retry schedules (`utils/retry.ts`): `SerialProcessing` follows every run of the handler and every call of the sink that a retrier makes; in `Commit` and `Processor` a delivery is one call, and in `Processor` an error other than a conflict releases the batch like a delivery.
- Handlers that store on several versions of one key in one context, which the framework does not intend: `Commit` and `SerialProcessing` ask for one per key.
- `StateRef.uniqueId` is the pair of key and number that its text form `key@number` stands for.
- `batch` is a generator; the model computes all chunks at once, which differs only in when the sink is called.
- `Coordinator.CollectStoreTargetItems`: the Map that the original edits is a sequence of states with distinct keys.
- Blob names: `key-number` and `key` are taken to be different blobs; a key that itself ends in a number could collide.
- The Cosmos query and the stored procedure's calls are modelled by what they promise (filter, order, take; a transaction in one partition), `sortedIndex` and the LRU cache likewise.
- More than one consumer on a `BoundedPriorityQueue`; each queue of the processor has one.
- `evict` of the input context marks all matching messages in the queue at once, the model one after the other; that it then waits for the messages in flight holds up nobody but its caller.
- `BoundedPriorityQueue.update` and `iterate`, which are loops around what is modelled.
- The Kafka, Redis, gRPC, S3, GCS, MSSQL, MQTT, AMQP, Kubernetes and Prometheus packages.
