# KamaChat: the message pipeline, modelled and proved in Dafny

The project models the path of a chat message through one KamaChat instance, and the small
protocols around it, and proves what holds in every run.

An envelope gets its number from the counter of its session, goes to the in-memory `Transmit`
channel or to Kafka (stickiness, overflow, fallback), reaches the worker of its session, which
puts numbers back in order, is written in batches with insert-ignore, and is delivered to local
connections, to other instances or to a group.

| file | what it holds |
|---|---|
| `SessionQueue.dfy`, `SessionOrder.dfy` | the reordering worker of one session; order, answers, progress, retry of a failed batch |
| `Routing.dfy`, `Pipeline.dfy`, `PipelineRuns.dfy` | the whole pipeline as a step relation: concurrent producers, channel, Kafka log with redelivery, consumer, workers; what every interleaving keeps |
| `HybridRouter.dfy`, `Stickiness.dfy` | router calls as atomic operations: sticky maps; atomic calls as runs of the pipeline; stickiness under interleaving |
| `PipelineProgress.dfy` | nothing that was handed over is stuck: from every state a way to its worker and to a commit |
| `KafkaConsumer.dfy`, `ConsumerRefinement.dfy` | the consumer loop: commits, attempts, dead letters, what a commit covers; the pipeline's consumer is this loop |
| `MessageBatch.dfy`, `Durability.dfy` | the batch writer and its table; pipeline and writer running together, from a commit to a row |
| `SessionRing.dfy` | the consistent-hash ring |
| `Backpressure.dfy` | the detector with its two timers |
| `MessageId.dfy` | the ids that writer and deduplication go by |
| `Distributor.dfy`, `Dedup.dfy`, `FanoutExecutor.dfy`, `InstanceBus.dfy` | delivery |
| `RateLimit.dfy`, `GroupMembership.dfy` | the rate limiter; membership rows and the cached member set |
| `Wrappers.dfy` | an option type, facts about sequences, decimals |

How it is built. A class holds the fields the source updates, and its methods follow the source
statement by statement; each method is proved to take the state where a function on values takes
it. The theorems are about runs of those functions: every sequence of steps, every behaviour of
the processor, the broker, the database and the clock. Environment answers (timeouts, write
results, panics, clock readings) are parameters. A goroutine is a sequence of atomic steps cut at
locks, channel operations and calls to a broker or a store. History a reader has in mind (what was
processed, answered, committed) is kept in extra fields that no decision of the code reads.

## Where the code and its documentation differ

The model follows the code in each case.

- `README.md:31` promises a reorder buffer of 200 messages and a 30 s timeout; the code has neither.
- `README.md:36` says five consecutive low samples end overflow; the code waits 10 s at or below
  the low mark (`internal/service/chat/backpressure_detector.go:45`, `:127`).
- "Zero loss" (`README.md:3`): a number whose last copy is refused or dropped blocks its session for
  good (`LostNumberBlocksForever`), and a commit can pass a batch that was given up
  (`CommitCoversIffNothingAbandoned`), because the batch is built anew on every turn.
- "The same batch fails repeatedly" before dead-lettering: the counter counts rounds, not batches.
  True under a reader that returns to a failed batch (`DeadLetteredAfterItsOwnFailures`); under one
  that only moves forward every dead-lettered batch failed exactly once
  (`DeadLetteredAfterOneFailure`, with a run in `DeadLetteredAfterOneTry`).
- "A sticky session never falls back to the channel": true of calls taken as atomic
  (`StickyUntilReleased`), and under interleaving if no session has two goroutines in flight and no
  clear or sweep falls between a session's mark and its write (`StickyWithOneFlight`); false
  without either (`TwoInFlightBreakStickiness`, `ReleaseDuringWriteBreaksStickiness`). Order
  survives all the same (`SessionsStayInOrder`).
- "Commit only after the row is written": a committed message is sure of its row if and only if a
  copy of it that was processed had a waiter (`CommittedIsDurable`); a copy that came over the
  channel does not wait (`CommitCanRestOnACopyThatNeverWaited`).
- Idle cleanup (`internal/service/chat/session_router.go:307-333`) forgets how far a session got,
  but its counter runs on: unless a copy of number 1 is still on its way, nothing of the session is
  processed again (`CleanedSessionServes`, `CleanedSessionStalls`).
- Shutdown's "final flush of any remaining messages" does nothing while another flush runs
  (`ShutdownDrainsIffNoFlushRuns`).
- "The same instance set always gives the same home": with one sort for all it is true, because the
  names are sorted first (`OneSortOneHome`). By the contract of `sort.Slice` alone, which leaves the
  order of equal hashes open (another build may order them differently), it is true if and only if
  the nearest points have one owner (`HomeIsDeterminedIffNearestOwnersAgree`).
- "Redis failure lets requests pass": a failed EXPIRE does the opposite, and for good
  (`StuckIffAnExpireFailed`, `FailedExpireBlocksForGood`).
- "Every change path invalidates the member set": true (`EveryChangeInvalidates`), but a rebuild
  that read before a change can write after the invalidation (`RemovedMemberCanStayCached`); when
  the answer is then right and when wrong is exact (`WriteBackIsRightIff`, `AnsweredWronglyIff`).
- `addMember` is called idempotent; an owner who enters the own group loses the owner's role
  (`OwnerRoleIffNeverEntered`).
- The bus's consumer group starts at the end of the stream: what was published to an instance before
  its first start is never delivered (`EveryEntryIsAccountedFor`).
- The bus redelivers what failed, but only the 100 oldest pending entries get a turn
  (`RetriedIffAmongOldest`, `StarvedForGood`).

## Model

| member | source | states |
|---|---|---|
| `SessionQueues.SessionQueue.ProcessEnvelope` | internal/service/chat/session_router.go:235-298 | the reorder loop, with failing and panicking attempts, computes `Receive`: the whole new state, the answers sent and the item overwritten in the buffer |
| `SessionQueues.SessionQueue.FinishQueuedEnvelope` | internal/service/chat/session_router.go:300-305 | counted per result channel over all answers so far: the item's own channel has one value more, every other channel, or every one if the item has none, as many as before |
| `SessionQueues.SessionQueue.constructor` | internal/service/chat/session_router.go:184-192 | a new queue expects number 1 and holds nothing |
| `SessionQueues.DrainKeepsOrder` | internal/service/chat/session_router.go:261-297 | draining keeps: processed numbers are 1, 2, .., next - 1; the buffer is strictly ahead; nil answers only behind the frontier |
| `SessionQueues.DrainConserves` | internal/service/chat/session_router.go:261-297 | draining neither loses nor duplicates an item |
| `SessionQueues.ReceiveKeepsOrder` | internal/service/chat/session_router.go:243-297 | every arrival, early, late or expected, keeps the same, and the frontier never moves back |
| `SessionQueues.EveryRunKeepsInv` | internal/service/chat/session_router.go:235-305 | over every arrival sequence and processor: order, and arrivals = answered + buffered + overwritten as multisets |
| `SessionOrder.ProcessedInOrder` | internal/service/chat/session_router.go:235-298 | the processed items carry 1..next-1 in order, each once, and each of them arrived |
| `SessionOrder.GapBlocks` | internal/service/chat/session_router.go:244-250 | a number that never arrives stops all its successors, whatever the processor does |
| `SessionOrder.AnsweredAtMostOnce` | internal/service/chat/session_router.go:72-85 | a waiter's channel gets at most one value, and gets one exactly when its item is neither buffered nor was overwritten |
| `SessionOrder.NilAnswerMeansProcessed` | internal/service/chat/session_router.go:252-284 | a nil answer means some copy of the number was processed, at its place |
| `SessionOrder.DrainReachesFrontier` | internal/service/chat/session_router.go:286-296 | with a succeeding processor the drain stops exactly at the first missing number |
| `SessionOrder.Frontier` | internal/service/chat/session_router.go:243-297 | with a succeeding processor, next - 1 is the largest m with 1..m all arrived and the buffer keys are exactly the later arrivals |
| `SessionOrder.ArrivalOrderIrrelevant` | internal/service/chat/session_router.go:243-297 | the processed envelopes, the frontier and the buffer keys are the same for every order and repetition of arrivals |
| `SessionOrder.ResubmittedBatchCompletes` | internal/service/chat/session_router.go:94-117 | resubmitting a contiguous batch that starts at or below the frontier answers every retry waiter nil and passes the batch, even if every other copy fails, in any arrival order in which no other copy of a number comes after its retry copy |
| `SessionOrder.AwaitAll` | internal/service/chat/session_router.go:105-116 | the waiting loop succeeds if and only if every item of the batch was answered nil before its wait expired |
| `SessionOrder.LaterCopySilencesTheWaiter` | internal/service/chat/session_router.go:244-250 | without that proviso: a later copy overwrites a buffered retry copy, whose waiter then gets no answer in any continuation |
| `Pipeline.StepPresent` | internal/service/chat/hybrid_router.go:525-632 | no step of any goroutine invents a message: only the session counter makes new ones |
| `Pipeline.StepKeepsCells` | internal/service/chat/hybrid_router.go:213-236 | lookup, create-if-still-absent and add are separate steps over counter cells: no step of any goroutine gives a session a second counter, loses a count, or leaves a goroutine holding another counter than its session's |
| `PipelineRuns.EveryRun` | internal/service/chat/hybrid_router.go:324-632 | in every interleaving, of single attempts too, every copy is one that was numbered, every worker is on its way to what its arrivals make of it, and every commit is settled |
| `PipelineRuns.SessionsStayInOrder` | internal/service/chat/hybrid_router.go:525-596 | whatever route, fallback and redelivery each envelope takes, a session's processed envelopes are exactly the first next - 1 envelopes numbered for it, in order, each once |
| `PipelineRuns.NumberedAreNumbered` | internal/service/chat/hybrid_router.go:213-236 | a session's envelopes are numbered 1, 2, 3, .. without gap or repeat while the lookups, creations and adds of any producers interleave freely |
| `PipelineRuns.FullyProcessedIffAllArrived` | internal/service/chat/hybrid_router.go:285-294 | with a succeeding processor a session is fully processed if and only if a copy of each numbered envelope reached its worker and it has no attempt before it |
| `PipelineRuns.LostStaysLost` | internal/service/chat/hybrid_router.go:584-596 | an envelope whose last copy is gone never reappears |
| `PipelineRuns.LostNumberBlocksForever` | internal/service/chat/hybrid_router.go:562-571 | its number then blocks the session in every continuation |
| `PipelineRuns.CleanedSessionServes` | internal/service/chat/session_router.go:307-333 | in any run in which an empty queue is removed: later envelopes carry later numbers, and the new queue attempts anything if and only if a copy of number 1 reaches it |
| `PipelineRuns.CleanedSessionStalls` | internal/service/chat/session_router.go:307-333 | if no copy of the session's first envelope is on a route by then, nothing of the session is processed in any continuation |
| `PipelineRuns.CommittedIsSettled` | internal/service/chat/hybrid_router.go:416-458 | every message ever passed to CommitMessages was dead-lettered or was processed, at its place in the order of its session |
| `PipelineRuns.EveryRunKeepsChannels` | internal/service/chat/session_router.go:94-102 | every result channel is carried by one queued item |
| `PipelineRuns.NoWorkerBlocksOnAnAnswer` | internal/service/chat/session_router.go:300-305 | over a whole run of the system a capacity-1 channel gets at most one value, and none from another session's worker |
| `PipelineProgress.EveryCallCanEnd` | internal/service/chat/hybrid_router.go:546-632 | every goroutine in a send can come to its end, and hands its message over if Kafka is on or the channel has room |
| `PipelineProgress.QueueIsEmptied` | internal/service/chat/session_router.go:198-215 | a worker whose processor succeeds can take everything from its queue, in order, and come back to it |
| `PipelineProgress.CanArrive` | internal/service/chat/hybrid_router.go:285-296 | from every state of every run each copy on a route can reach its worker, and no other copy is lost on the way |
| `PipelineProgress.CanBeProcessed` | internal/service/chat/session_router.go:243-297 | if every envelope numbered for a session was handed over and the processor succeeds, the session can be processed to its last envelope |
| `PipelineProgress.CanBeCommitted` | internal/service/chat/hybrid_router.go:411-458 | every record of such a session can then be committed, without a dead letter |
| `PipelineProgress.WaitEndsIff` | internal/service/chat/session_router.go:105-116 | a wait moves on exactly if the nil answer is there and the context has not ended, and fails exactly if it ended or the answer is an error |
| `PipelineProgress.CanBeDeadLettered` | internal/service/chat/hybrid_router.go:424-448 | a record that cannot be handed over can be dead-lettered and committed, and nothing else changes |
| `HybridRouting.HybridRouter.Send` | internal/service/chat/hybrid_router.go:525-580 | processLocal computes `ProcessLocal`: counter, sticky maps, both routes and the result |
| `HybridRouting.HybridRouter.TrySend` | internal/service/chat/hybrid_router.go:584-596 | sendToChannel: the channel if it has room, else Kafka if it is on, else a refusal; nothing else changes |
| `HybridRouting.HybridRouter.SendEnvelope` | internal/service/chat/hybrid_router.go:598-632 | sendEnvelopeToKafka: marks the session only after a successful write, keeps an existing mark's time |
| `HybridRouting.HybridRouter.CleanupSticky` | internal/service/chat/hybrid_router.go:649-669 | one tick computes the sweep; whom it releases is `SweepReleasesIffOld` |
| `HybridRouting.HybridRouter.RemoveStale` | internal/service/chat/hybrid_router.go:655-667 | the loop over the map, in any order, removes exactly the sessions the sweep removes, from both maps |
| `HybridRouting.SweepReleasesIffOld` | internal/service/chat/hybrid_router.go:657-667 | over every run of calls, by the clocks of the calls: a tick releases a session if and only if it was marked more than five minutes ago |
| `HybridRouting.WhatMarks` | internal/service/chat/hybrid_router.go:552-630 | a session becomes marked if and only if Kafka is on and its own send was in overflow or spilled to Kafka, or the Transmit loop wrote its message |
| `HybridRouting.WhatReleases` | internal/service/chat/hybrid_router.go:635-669 | and is released by a clear and by such a tick alone |
| `HybridRouting.RoutesTaken` | internal/service/chat/hybrid_router.go:546-596 | which route each message takes: Kafka first in overflow or once sticky, else the channel while it has room; when it falls back or spills |
| `HybridRouting.NumbersCountTheSends` | internal/service/chat/hybrid_router.go:525-529 | the n-th send of a session carries number n, over every run of calls |
| `HybridRouting.StickyUntilReleased` | internal/service/chat/hybrid_router.go:546-669 | with atomic calls: both sticky maps have the same keys, a sticky session implies Kafka is on, and nothing of a session goes to the channel after its successful Kafka write before a clear or a sweep releases it |
| `HybridRouting.AcceptedIffHandedOver` | internal/service/chat/hybrid_router.go:525-596 | an accepted send made exactly one successful hand-over and the message is on that route; a refused one made none; the number is used up either way |
| `Stickiness.AtomicCallIsARun` | internal/service/chat/hybrid_router.go:525-632 | an atomic call of the router is ten named steps of one goroutine in a row: same counter, maps, channel, log and events afterwards, no goroutine left over |
| `Stickiness.AtomicCallsAreARun` | internal/service/chat/hybrid_router.go:239-297 | every run of atomic calls, Transmit loop, clears and sweeps included, is a run of the pipeline in a corresponding state |
| `Stickiness.StickyWithOneFlight` | internal/service/chat/hybrid_router.go:546-669 | under every interleaving in which no session has two goroutines in flight and no release falls between a mark and its write, nothing of a session goes to the channel after its Kafka write before it is released |
| `Stickiness.TwoInFlightBreakStickiness` | internal/service/chat/hybrid_router.go:546-560 | two goroutines of one session in flight: a channel send follows a Kafka write |
| `Stickiness.ReleaseDuringWriteBreaksStickiness` | internal/service/chat/hybrid_router.go:552-571 | a clear between mark and write leaves the write unmarked; the next message, sent alone, takes the channel |
| `KafkaConsumption.KafkaConsumer.FetchBatch` | internal/service/chat/hybrid_router.go:378-403 | the fetch loop yields the first up to 200 records and stops early only on an error |
| `KafkaConsumption.KafkaConsumer.RunRound` | internal/service/chat/hybrid_router.go:373-459 | one turn computes `Turn`; what that is in terms of the answers is `AnswersDecide` |
| `KafkaConsumption.KafkaConsumer.Run` | internal/service/chat/hybrid_router.go:344-463 | the loop over any sequence of environment answers computes `Consume` |
| `KafkaConsumption.AnswersDecide` | internal/service/chat/hybrid_router.go:405-458 | in every run, from what was fetched and answered alone: round k commits its batch if and only if it was accepted, or refused for the configured number of times in a row and taken by the dead-letter topic; and what every other round is |
| `KafkaConsumption.RetryCountCountsEmptyReads` | internal/service/chat/hybrid_router.go:378-403 | the retry count goes up with every empty read, starts again at the tenth, and is reset by any record or panic |
| `KafkaConsumption.CommitsAreSettledBatches` | internal/service/chat/hybrid_router.go:421-458 | in every run exactly the accepted and the dead-lettered batches are committed, in order; dead-lettering only after the configured number of failed rounds in a row; a refused dead letter never commits |
| `KafkaConsumption.DeadLetteredAfterItsOwnFailures` | internal/service/chat/hybrid_router.go:424-448 | under a reader that returns to a failed batch every dead-lettered batch itself failed at least the configured number of rounds |
| `KafkaConsumption.DeadLetteredAfterOneTry` | internal/service/chat/hybrid_router.go:424-443 | for any two records: a run in which a batch handed over once is dead-lettered, because an earlier batch failed |
| `KafkaConsumption.DeadLetteredAfterOneFailure` | internal/service/chat/hybrid_router.go:424-448 | under a forward-only reader every dead-lettered batch failed exactly once, whatever number of attempts is configured |
| `KafkaConsumption.HandedOverOnce` | internal/service/chat/hybrid_router.go:378-403 | a forward-only reader hands no record over in two rounds |
| `KafkaConsumption.CommitCoversIffNothingAbandoned` | internal/service/chat/hybrid_router.go:444-458 | for each partition, with batches that mix partitions and any start offsets: everything below its committed offset is settled if and only if no batch with records of it was given up before a later commit of it |
| `KafkaConsumption.AbandonedIsNotSettled` | internal/service/chat/hybrid_router.go:444-448 | a batch that is not retried leaves, in each partition it has records of, an offset that nothing ever settles |
| `KafkaConsumption.WatermarkIsACommit` | internal/service/chat/hybrid_router.go:451-458 | a partition is resumed from the end of its records in some committed batch |
| `ConsumerRefinement.ConsumerFollowsTheLoop` | internal/service/chat/hybrid_router.go:344-463 | in every run of the pipeline the failures counted, the records committed and those dead-lettered are those of a run of the consumer loop |
| `MessageBatch.MessageBatchWriter.EnqueueMessage` | internal/service/chat/message_batch.go:71-96 | Enqueue: buffers with a fresh channel, or after Shutdown inserts and answers at once |
| `MessageBatch.MessageBatchWriter.SwapBuffer` | internal/service/chat/message_batch.go:156-165 | a flush takes the whole buffer unless one is running or there is nothing |
| `MessageBatch.MessageBatchWriter.AttemptInsert` | internal/service/chat/message_batch.go:179-200 | one attempt, which may apply any prefix before failing, computes `TryInsert`; when a flush may give up is `BatchEndedBy` |
| `MessageBatch.MessageBatchWriter.CompleteItems` | internal/service/chat/message_batch.go:203-208 | one answer to each item of the batch, in order, the batch's outcome |
| `MessageBatch.MessageBatchWriter.CreateInBatches` | internal/service/chat/message_batch.go:182 | the insert loop computes insert-ignore over the batch |
| `MessageBatch.MessageBatchWriter.FlushBuffer` | internal/service/chat/message_batch.go:156-201 | an uninterrupted flush with its retry loop computes `Flush` |
| `MessageBatch.FlushAnswersNilIffSomeAttemptWorks` | internal/service/chat/message_batch.go:156-208 | an uninterrupted flush answers every item of the buffer, nil if and only if one of the three attempts works; then all rows are in, otherwise those of a prefix |
| `MessageBatch.BatchEndedBy` | internal/service/chat/message_batch.go:179-200 | in every run a batch was given up only after exactly three failed attempts since its swap, and answered nil only after one that worked |
| `MessageBatch.MessageBatchWriter.Shutdown` | internal/service/chat/message_batch.go:120-136 | closes once and then flushes |
| `MessageBatch.InsertAllKeeps` | internal/service/chat/message_batch.go:182 | insert-ignore keeps every existing row and adds exactly the missing keys |
| `MessageBatch.PrefixThenWhole` | internal/service/chat/message_batch.go:179-200 | a half-applied attempt followed by a whole one is one whole insert |
| `MessageBatch.TwoPrefixes` | internal/service/chat/message_batch.go:179-200 | two half-applied attempts leave the longer of the two |
| `MessageBatch.ReplaysChangeNothing` | internal/service/chat/message_processor.go:155-160 | inserting a history with replays is inserting the first occurrence of each uuid |
| `MessageBatch.EveryRun` | internal/service/chat/message_batch.go:71-208 | under every interleaving: enqueue history = finished batches ++ batch in flight ++ buffer; the counters add up; answers are batch outcomes; a nil answer means the row is there |
| `MessageBatch.OneAnswerPerChannel` | internal/service/chat/message_batch.go:203-208 | each channel gets at most one value, its own batch's outcome; nil means its row is in the table |
| `MessageBatch.TableHoldsFirstOccurrences` | internal/service/chat/message_batch.go:71-208 | failed flushes, half-applied attempts, replays and inserts after Shutdown in any order: once every uuid was answered nil at least once, the table is the one that inserting each first occurrence once would leave, in whatever columns the copies of a uuid agree |
| `MessageBatch.RowIsFirstToLand` | internal/service/chat/message_batch.go:179-200 | copies with different rows: the row of a uuid is that of its first item to reach the table |
| `MessageBatch.FirstEnqueuedUnlessMissed` | internal/service/chat/message_batch.go:179-200 | that is the first item enqueued for the uuid, unless it lies past the applied prefix of a finally failed batch |
| `MessageBatch.FirstEnqueuedUnlessAFlushFails` | internal/service/chat/message_batch.go:156-201 | with no finally failed flush so far the row of a uuid is its first enqueued one as soon as that one is flushed, whatever is still buffered |
| `MessageBatch.WithoutFailuresFirstEnqueuedWin` | internal/service/chat/message_batch.go:156-201 | with no finally failed flush and nothing left to write, the first enqueued row of every uuid, whatever its replays carry |
| `MessageBatch.RowsAreNeverReplaced` | internal/service/chat/message_batch.go:182 | a row stays as it is, whatever is enqueued or flushed later |
| `MessageBatch.ShutdownDrainsIffNoFlushRuns` | internal/service/chat/message_batch.go:120-133 | the final flush empties the buffer if and only if no flush was running or there was nothing to write |
| `MessageBatch.AfterShutdownNothingIsBuffered` | internal/service/chat/message_batch.go:71-96 | after Shutdown of a writer in use nothing enters the buffer any more |
| `MessageBatch.ClosedIffShutDownInUse` | internal/service/chat/message_batch.go:120-136 | a writer is closed if and only if Shutdown was called when something had been written through its buffer |
| `Durability.CommittedIsDurable` | internal/service/chat/message_processor.go:325-340 | in every joint run a committed stored message that was not dead-lettered was given to the writer and processed at its place, has its row if that copy carried a result channel, and is sure of it if and only if some processed copy did |
| `Durability.SureIffACopyWaited` | internal/service/chat/message_processor.go:325-340 | in every joint run: all joint runs with this state of the pipeline have the row if and only if a processed copy of the id carried a result channel |
| `Durability.JointIsARun` | internal/service/chat/message_processor.go:162-205 | pipeline and batch writer together: a joint run, with outcomes computed by persistMessage, is a run of the pipeline |
| `Durability.EveryRunIsJoint` | internal/service/chat/message_processor.go:325-340 | and every run of the pipeline, whatever its processor answers, is that of a joint run |
| `Durability.EveryPlay` | internal/service/chat/message_processor.go:325-340 | in every joint run each stored envelope a worker has processed was given to the writer under its own id, and answered nil if it waited |
| `Durability.UnwaitedRowCanBeLost` | internal/service/chat/message_batch.go:179-200 | if no processed copy of an id waited, the same run of the pipeline is possible with a writer that gave up every row of it and has nothing left to write |
| `Durability.CommitCanRestOnACopyThatNeverWaited` | internal/service/chat/hybrid_router.go:562-575 | for any first message of a session: a joint run in which it is committed, not dead-lettered, has no row, and nothing is left to write |
| `SessionRings.SessionRing.SetInstances` | internal/service/chat/session_ring.go:42-69 | any list gives a sorted ring of exactly the virtual nodes of its non-empty instances, listed sorted and without repeats |
| `SessionRings.SessionRing.Unique` | internal/service/chat/session_ring.go:43-54 | the dedup loop keeps each non-empty instance once |
| `SessionRings.SessionRing.BuildNodes` | internal/service/chat/session_ring.go:57-62 | the two loops list every virtual node of every instance |
| `SessionRings.NodeKeysDiffer` | internal/service/chat/session_ring.go:57-62 | no two virtual nodes, of one instance or two, are hashed from one key |
| `SessionRings.SessionRing.Home` | internal/service/chat/session_ring.go:72-84 | binary search with wrap-around equals the linear scan |
| `SessionRings.SessionRing.constructor` | internal/service/chat/session_ring.go:30-35 | the default for a non-positive replica count; an empty ring |
| `SessionRings.HomeOwns` | internal/service/chat/session_ring.go:79-83 | the home owns a clockwise nearest point on the circle |
| `SessionRings.HomeDependsOnlyOnTheSet` | internal/service/chat/session_ring.go:41-69 | without collisions the home depends only on the set of instances, not on order, repeats or how equal hashes were sorted |
| `SessionRings.RemovalMovesOnlyItsSessions` | internal/service/chat/session_ring.go:42-84 | removing an instance changes the home only of its own sessions |
| `SessionRings.AdditionMovesOnlyToTheNewcomer` | internal/service/chat/session_ring.go:42-84 | adding an instance moves sessions only to it |
| `SessionRings.AnyNearestCanWin` | internal/service/chat/session_ring.go:63 | with a collision some arrangement the sort may produce makes any nearest owner the home |
| `SessionRings.HomeIsDeterminedIffNearestOwnersAgree` | internal/service/chat/session_ring.go:63-83 | all arrangements give one home if and only if the nearest points have one owner |
| `SessionRings.SortedNamesAreDetermined` | internal/service/chat/session_ring.go:43-55 | the sorted repeat-free list of names depends only on the set |
| `SessionRings.OneSortOneHome` | internal/service/chat/session_ring.go:55-84 | so with one sort function the home depends only on the set of instances, collisions or not |
| `Backpressure.BackpressureDetector.CheckDepth` | internal/service/chat/backpressure_detector.go:93-148 | check computes `Check`: mode, both timers, callback |
| `Backpressure.BackpressureDetector.constructor` | internal/service/chat/backpressure_detector.go:33-48 | the low mark is the largest number with low <= 3/4 of the high mark, at least 1, and at most the high mark if and only if that is at least 1; seconds become milliseconds; nothing is on |
| `Backpressure.TimersMeanWhatSamplesSay` | internal/service/chat/backpressure_detector.go:98-142 | each timer is set exactly as the sample history says, and the two are never both set |
| `Backpressure.SwitchesExactlyWhen` | internal/service/chat/backpressure_detector.go:98-137 | overflow turns on if and only if a sample at least `duration` ago was high with none low since and this one is high; off likewise with `cooldown` |
| `Backpressure.CyclesTake` | internal/service/chat/backpressure_detector.go:107-130 | k complete cycles take at least k * (duration + cooldown) |
| `Backpressure.NoFlapping` | internal/service/chat/backpressure_detector.go:98-142 | over any samples mode changes alternate, cycles keep their distance, and the callback runs exactly once per completed cycle |
| `Backpressure.SteadyLoadSettles` | internal/service/chat/backpressure_detector.go:93-148 | whatever came before: a steady load above the high mark for `duration` ends in overflow, one at or below the low mark for `cooldown` ends without, and one in between changes nothing |
| `Distribution.Distributor.Deliver` | internal/service/chat/distributor.go:81-146 | every target is delivered as often as it was given: locally if connected here, in the one batch for its instance if it is connected to another, nowhere else; in target order, none while clustering is off |
| `Distribution.Distributor.Partition` | internal/service/chat/distributor.go:94-107 | the loop splits targets into connected ones and others, in order |
| `Distribution.Distributor.Group` | internal/service/chat/distributor.go:123-128 | the loop groups by located instance: no empty group, target order kept |
| `Distribution.Distributor.PublishAll` | internal/service/chat/distributor.go:129-145 | every group is published once, in whatever order the map is walked |
| `Distribution.TargetsConserved` | internal/service/chat/distributor.go:94-128 | each target is in the bucket of its destination as often as it was given, and in no other |
| `Distribution.WhereTargetsGo` | internal/service/chat/distributor.go:94-128 | the same of the two buckets, in terms of connections and locations alone |
| `Distribution.RemotesAreOthers` | internal/service/chat/distributor.go:97-128 | grouping what is left after the local pass is grouping the original targets |
| `Distribution.NeverToSelf` | internal/service/chat/distributor.go:125-127 | nothing is bound for this instance or for the empty name |
| `Distribution.IterationOrderIrrelevant` | internal/service/chat/distributor.go:129-145 | the published batches are the same multiset for every iteration order |
| `Deduplication.Inbox.DedupSeenBefore` | internal/service/chat/distributor.go:184-205 | computes `Query`, purge included |
| `Deduplication.Inbox.PurgeOld` | internal/service/chat/distributor.go:197-203 | the loop in any map order removes exactly the marks older than the TTL |
| `Deduplication.Inbox.DeliverLocalBatch` | internal/service/chat/distributor.go:167-181 | delivers the targets of a batch not seen within the TTL, in order |
| `Deduplication.QueryAnswersAsFullHistory` | internal/service/chat/distributor.go:184-205 | purging is unobservable: every answer is that of a history never purged |
| `Deduplication.QueryBoundsMemory` | internal/service/chat/distributor.go:195-204 | nothing is forgotten below the limit or within the TTL; beyond the limit only entries within the TTL stay |
| `Deduplication.RedeliveriesAreSpaced` | internal/service/chat/distributor.go:167-205 | under any redelivery two deliveries of one (key, target) pair are at least the TTL apart |
| `Deduplication.DeliveredUnlessRecent` | internal/service/chat/distributor.go:167-205 | a handled target is delivered if and only if the message has no id or was not delivered to the same target within the TTL before |
| `Deduplication.KeysTellPairsApart` | internal/service/chat/distributor.go:188 | joined keys are equal exactly for equal pairs, if ids hold no separator |
| `MessageIds.IdsFitAndHoldNoSeparator` | internal/service/chat/hybrid_router.go:513-522 | whatever the client sends, the id has 17 or 20 characters, holds no separator of the dedup key, and is kept by resolveMessageUUID |
| `MessageIds.SameIdIff` | internal/service/chat/hybrid_router.go:513-522 | with client ids, two messages get one id if and only if the first eight bytes of their hashes agree, at any time and draw; so for sender ids without the separator exactly the retries of one message do, if those bytes tell hashed strings apart |
| `MessageIds.RandomIdsTellDrawsApart` | internal/service/chat/hybrid_router.go:517-519 | without a client id two messages of a day get one id if and only if the draws agree |
| `MessageIds.RandomStringLength` | pkg/util/random/random_int.go:10-16 | every draw has exactly as many digits as asked for |
| `Fanout.FanoutExecutor.SubmitTask` | internal/service/chat/fanout_executor.go:55-65 | a task goes to the end of its group's worker queue, or is dropped and counted when that is full |
| `Fanout.FanoutExecutor.RunWorker` | internal/service/chat/fanout_executor.go:74-83 | a worker takes the head of its own queue |
| `Fanout.GroupOrderIsKept` | internal/service/chat/fanout_executor.go:55-83 | for every group: no other worker ever holds or runs a task of it; executed ++ queued is in submission order; submitted = executed + queued + dropped as multisets; the counter counts the dropped tasks |
| `Fanout.EveryTaskIsCounted` | internal/service/chat/fanout_executor.go:55-83 | over all workers: submitted = executed + queued + drops |
| `Fanout.NothingDroppedBelowCapacity` | internal/service/chat/fanout_executor.go:57-64 | queues never outgrow their capacity, and nothing is dropped while fewer tasks wait than one queue holds |
| `Fanout.EveryTaskGetsItsTurn` | internal/service/chat/fanout_executor.go:74-83 | k turns of a worker execute exactly the k oldest tasks of its queue, in order, and touch no other |
| `Fanout.SubmittedAreTheSubmits` | internal/service/chat/fanout_executor.go:55-65 | the submitted tasks are those of the Submit calls, in order |
| `Fanout.WhoSharesAWorker` | internal/service/chat/fanout_executor.go:67-72 | two groups share a worker if and only if their hashes agree modulo 8 |
| `InstanceBuses.InstanceBus.Process` | internal/service/transport/instance_bus.go:119-139 | the loop over a batch: discard and acknowledge what cannot be read, acknowledge what was handled, keep what failed |
| `InstanceBuses.InstanceBus.ReadUnread` | internal/service/redis/redis_service.go:306-324 | reading new entries computes `Deliver`; that it delivers is `ReadNewProcesses` |
| `InstanceBuses.ReadNewProcesses` | internal/service/transport/instance_bus.go:106-115 | a read of new entries gives each of the next 100 undelivered entries of the stream to process |
| `InstanceBuses.InstanceBus.RunTurn` | internal/service/transport/instance_bus.go:96-116 | one turn: the oldest 100 pending, then the next 100 new ones, either read possibly failing |
| `InstanceBuses.InstanceBus.Run` | internal/service/transport/instance_bus.go:89-117 | makes the group if there is none, at the end of the stream; then any number of turns computes `TakeTurns` and keeps the invariant |
| `InstanceBuses.EveryEntryIsAccountedFor` | internal/service/transport/instance_bus.go:96-138 | in every run an entry published after the group was made is in exactly one place: unread, pending, acknowledged, or trimmed unread; an earlier one is never processed |
| `InstanceBuses.AckedWasHandled` | internal/service/transport/instance_bus.go:132-137 | at least once: a readable entry is acknowledged only after a successful handler call, or after it had been trimmed from the stream |
| `InstanceBuses.EveryRunIsHonest` | internal/service/transport/instance_bus.go:119-139 | in every run the handler is given exactly the readable entries, what failed is not acknowledged, and the rest is if the store does it |
| `InstanceBuses.EveryEntryGetsItsTurn` | internal/service/transport/instance_bus.go:96-116 | n turns with working reads and no publishing give the next n * 100 undelivered entries to process, whatever the handler does |
| `InstanceBuses.StreamIsWhatWasPublished` | internal/service/redis/redis_service.go:286-301 | the stream is what was published, in order, and the group starts where the stream ended when it was first made |
| `InstanceBuses.TurnsPublish` | internal/service/transport/instance_bus.go:96-116 | a turn whose read of new entries fails delivers none, and one whose reads both fail gives nothing to process |
| `InstanceBuses.RepeatsOnlyUnacked` | internal/service/transport/instance_bus.go:101-104 | the handler sees an entry again only if it was not acknowledged |
| `InstanceBuses.EveryRunIsInOrder` | internal/service/transport/instance_bus.go:106-113 | entries are first processed in stream order; only retries come out of order |
| `InstanceBuses.HealthyRetryClears` | internal/service/transport/instance_bus.go:101-104 | while handler and store work, a turn settles the oldest 100 pending entries and no others |
| `InstanceBuses.RetriedIffAmongOldest` | internal/service/transport/instance_bus.go:101-104 | a pending entry gets another turn if and only if it is among the 100 oldest |
| `InstanceBuses.StarvedForGood` | internal/service/transport/instance_bus.go:96-115 | 100 entries that cannot be handled keep every later pending entry from the handler, in every continuation in which trimming does not reach the oldest of them |
| `InstanceBuses.TrimmingUnblocks` | internal/service/redis/redis_service.go:290-301 | the first trim beyond it discards and acknowledges the trimmed ones in the next retry; that many later entries move up, and one gets a turn if and only if it is then among the 100 oldest |
| `InstanceBuses.LostOnlyBehindABacklog` | internal/service/redis/redis_service.go:290-301 | an entry is trimmed unread only if at least maxLen newer ones were published while it was unread |
| `RateLimiting.RateLimiter.Incr` | internal/https_server/middleware/ratelimit.go:36 | counts up, and starts a new window on an expired key |
| `RateLimiting.RateLimiter.Handle` | internal/https_server/middleware/ratelimit.go:33-58 | one request without interleaving: admitted, blocked, or passed because the store failed |
| `RateLimiting.AtMostTwiceTheLimit` | internal/https_server/middleware/ratelimit.go:32-59 | any half-open interval of the window's length admits at most 2 * limit - 1 requests, and each window at most limit, with INCR and EXPIRE interleaving freely |
| `RateLimiting.WindowEndsOnTime` | internal/https_server/middleware/ratelimit.go:36-47 | in every run a window ends exactly its length after its EXPIRE: a request from then on opens the next and passes, an earlier one passes if and only if fewer than limit came before |
| `RateLimiting.FirstRequestPasses` | internal/https_server/middleware/ratelimit.go:36-47 | the very first request opens the first window and passes |
| `RateLimiting.BlocksOnlyBeyondTheLimit` | internal/https_server/middleware/ratelimit.go:48-57 | the open window has admitted exactly its first `limit` requests, and requests = admitted + blocked |
| `RateLimiting.BoundIsTight` | internal/https_server/middleware/ratelimit.go:42-48 | for every limit and every window longer than one clock unit, a run that meets the bound |
| `RateLimiting.WithoutExpiryTheKeyBlocks` | internal/https_server/middleware/ratelimit.go:42-47 | after one failed EXPIRE exactly the rest of one limit passes, ever |
| `RateLimiting.StuckIffAnExpireFailed` | internal/https_server/middleware/ratelimit.go:42-47 | in every run the key is without an expiry for good if and only if some EXPIRE failed |
| `RateLimiting.FailedExpireBlocksForGood` | internal/https_server/middleware/ratelimit.go:42-57 | and in every continuation only what was left of one limit passes |
| `GroupMembership.AddMemberWrites` | internal/service/gorm/group_member_service.go:40-98 | an accepted addMember writes one row and leaves every other as it was; the written row was active, quit, or is new |
| `GroupMembership.RefusesExactlyTheKicked` | internal/service/gorm/group_member_service.go:67-73 | addMember refuses if and only if the user is in the group's set of removed members |
| `GroupMembership.ChangeMovesMembers` | internal/service/gorm/group_info_service.go:276-812 | the soft-deleting table behaves as two plain sets per group: each accepted call makes of the active and of the removed members exactly what it means, each refused call leaves them |
| `GroupMembership.WhoGoes` | internal/service/gorm/group_info_service.go:268-812 | in every state of every history a member stops being one exactly by leaving (not the owner), by the owner's removal that names them, or by the end of the group |
| `GroupMembership.WhoComesIn` | internal/service/gorm/group_info_service.go:552-615 | and someone becomes a member exactly by creating the group, entering one that is open, or a passed application, unless removed before |
| `GroupMembership.WhoIsShutOut` | internal/service/gorm/group_info_service.go:747-796 | exactly the members the owner removes are shut out |
| `GroupMembership.WhoseApplicationStands` | internal/service/gorm/user_contact_service.go:540-573 | when an application is made and when it is gone |
| `GroupMembership.WhoSetsTheAddMode` | internal/service/gorm/group_info_service.go:650-666 | the add mode is changed by the owner of a live group alone |
| `GroupMembership.WhoMakesGroups` | internal/service/gorm/group_info_service.go:76-123 | a new group is live, its creator's, with the chosen mode; nothing else makes one |
| `GroupMembership.RetireAllRetires` | internal/service/gorm/group_info_service.go:770-793 | removal changes exactly the active rows of the named members, and moves none |
| `GroupMembership.RowsStay` | internal/service/gorm/group_member_service.go:102-115 | no call removes or moves a row, and a removed member's row never changes |
| `GroupMembership.EveryHistory` | internal/service/gorm/group_member_service.go:40-98 | over every sequence of calls: one row per (group, user); an active row is normal and in a live group; the owner's row is active; applications only for live groups |
| `GroupMembership.KickedForGood` | internal/service/gorm/group_member_service.go:70-73 | once removed, never an active member again, whatever follows |
| `GroupMembership.GroupsStay` | internal/service/gorm/group_info_service.go:331-440 | a group keeps its owner, and dies exactly by its owner's dismissal or an administrator's deletion |
| `GroupMembership.OwnerStaysActive` | internal/service/gorm/group_info_service.go:276-278 | the owner is an active member as long as the group lives |
| `GroupMembership.DeadGroupsAreEmpty` | internal/service/gorm/group_info_service.go:357-366 | a dissolved group has no active member, then and later |
| `GroupMembership.OwnerRoleIffNeverEntered` | internal/service/gorm/group_member_service.go:50-63 | the owner's row has the owner's role if and only if no accepted call entered the owner as a member |
| `GroupMembership.OwnerCanLoseTheRole` | internal/service/gorm/group_info_service.go:561-564 | two calls after which a live group's owner is an ordinary member |
| `GroupMembership.EveryChangeInvalidates` | internal/service/chat/group_member_query.go:63-66 | a call deletes a group's cached set if and only if it was accepted and concerns the group; every other group's active members stay |
| `GroupMembership.EveryRunKeepsCache` | internal/service/chat/group_member_query.go:28-61 | under every interleaving, for each group on its own: unless a rebuild of it is written back after a change since its read that has already deleted the cached set, every cached set not about to be deleted is exact |
| `GroupMembership.MembersAreExactUnlessLate` | internal/service/chat/group_member_query.go:31-61 | the members answered are then the active ones |
| `GroupMembership.WriteBackIsRightIff` | internal/service/chat/group_member_query.go:42-59 | a rebuild into a missing entry makes the answer right if and only if it read nobody or the changes since its read, replayed on what it read, lead back to it |
| `GroupMembership.CachedIffReadBefore` | internal/service/chat/group_member_query.go:51-66 | a user is in a cached set if and only if a rebuild that read them as a member was written back since the last deletion |
| `GroupMembership.AnsweredWronglyIff` | internal/service/chat/group_member_query.go:31-66 | in every run: exactly when the answer is wrong about a user |
| `GroupMembership.RemovedMemberCanStayCached` | internal/service/chat/group_member_query.go:42-66 | from any state: the interleaving that leaves a removed member among those answered |
| `GroupMembership.OnlyWritesMoveTheTable` | internal/service/chat/group_member_query.go:28-66 | no rebuild, deletion or expiry of a cached set touches the table |
| `GroupMembership.EveryRunCachesSomebody` | internal/service/chat/group_member_query.go:51-59 | a cached set is never empty |
| `GroupMembership.GroupService.AddMember` | internal/service/gorm/group_member_service.go:40-98 | the method's branches compute `WithMember` |
| `GroupMembership.GroupService.CreateGroup` | internal/service/gorm/group_info_service.go:76-123 | the table after the call, what is accepted, the one cached set deleted; the invariant and the exactness of the cache stay |
| `GroupMembership.GroupService.EnterGroupDirectly` | internal/service/gorm/group_info_service.go:552-615 | the same, with its add-mode check |
| `GroupMembership.GroupService.PassContactApply` | internal/service/gorm/user_contact_service.go:540-573 | the same, for a group application |
| `GroupMembership.GroupService.LeaveGroup` | internal/service/gorm/group_info_service.go:268-328 | the same, refused to the owner |
| `GroupMembership.GroupService.Expel` | internal/service/gorm/group_info_service.go:770-796 | the loop of the transaction retires every target and drops its application |
| `GroupMembership.GroupService.RemoveGroupMembers` | internal/service/gorm/group_info_service.go:747-812 | the same: only for the owner, refused if the owner is a target (`WhoGoes`, `WhoIsShutOut`) |
| `GroupMembership.GroupService.DismissGroup` | internal/service/gorm/group_info_service.go:331-431 | the same, only by the owner |
| `GroupMembership.GroupService.DeleteGroups` | internal/service/gorm/group_info_service.go:434-523 | the loop buries every listed group and then every cached set is gone |
| `GroupMembership.GroupService.GetActiveGroupMemberIds` | internal/service/chat/group_member_query.go:31-61 | whether the cache hits, misses or fails, the answer is the active members, and a written set is exact |

## Left out

- JSON, GORM, Redis, Kafka and WebSocket libraries: a parsed envelope is a value, the message table
  is a map from uuid to row, Kafka is a log any record of which may be read at any time, Redis is
  maps and a stream. Malformed JSON is refused before a number is assigned and is not modelled.
- Counter widths: sequence numbers and metrics are unbounded; uint64 and int64 wrap-around is not modelled.
- CRC-32, FNV-1a and SHA-256 are arbitrary functions; in the pipeline a message id is an input.
- Clocks: one reading per check of the detector and per dedup query; sleeps, backoff delays and tickers only decide when a step happens, so steps may happen at any time.
- Process restarts: counters, queues and batches live in memory; order is claimed for one process and one lifetime of a session queue. Idle cleanup is a step from any state of a run; its five minutes of inactivity are not timed, so it may come at any time a queue is empty and its worker is between two items. A worker that has been inside one attempt for five minutes, and then runs beside its successor, is not modelled.
- The map of session queues: the pipeline keeps each worker as a value under its session, so two goroutines creating the same queue and a queue closed between lookup and enqueue appear only as a failed enqueue.
- Queue capacities of session queues: an enqueue may fail at any time, which covers a full queue.
- `EnqueueMessageAndWait` is the batch call with one message and has no model of its own.
- `forwardSessionToHome` and its local fallback: order is claimed inside one instance.
- SessionRings.HomeDependsOnlyOnTheSet: assumes that no two instances share a virtual-node hash; the exact condition is `HomeIsDeterminedIffNearestOwnersAgree`.
- HybridRouting.StickyUntilReleased: holds for calls taken as atomic; `StickyWithOneFlight` has the conditions under interleaving.
- KafkaConsumption.CommitCoversIffNothingAbandoned: for a reader that, within a lifetime of the consumer, does not go back by itself after a failed round.
- MessageBatch.TableHoldsFirstOccurrences: says nothing of columns in which the copies of a uuid differ (CreatedAt is stamped anew on every attempt, and a client may send other content under one client_msg_id); `RowIsFirstToLand` and `FirstEnqueuedUnlessMissed` do, but leave out a uuid inserted on its own after Shutdown.
- `Flush` and the batch size trigger only decide when a flush starts; a flush may start at any time.
- Durability.CommittedIsDurable: which message kinds are stored (audio and video signalling mostly is not) is a parameter.
- Distribution.Distributor.Deliver: whether a publish or a local enqueue succeeds, and a client leaving between lookup and enqueue, are not modelled.
- Fanout.GroupOrderIsKept: before `Close`; the hash is taken as non-negative, as on a 64-bit platform.
- RateLimiting.RateLimiter.Handle: INCR and EXPIRE without another request in between; the theorems use the two as separate steps.
- GroupMembership.EveryHistory: the database part of a call is one step, and no call fails half-way; `DismissGroup` and `DeleteGroups` run several statements without a transaction. Group identifiers are random and never repeat.
- Disabled groups, contact rows, session rows and the other Redis lists of the group service: they do not touch membership. An application to a disabled group is accepted by the model.
- The bus handler's own effects (`handleBusMessage`) are an arbitrary success or failure; presence, heartbeat and instance refresh are plumbing.
- `server.go`, `kafka_server.go`, `client.go`, controllers, configuration, email, files and the front end: connection handling and plumbing with no ordering state of their own.
