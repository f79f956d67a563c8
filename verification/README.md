# Verification model of analytics-core

A Dafny model of the parts of analytics-core in which events must not be lost, duplicated or
misread: the Kafka delivery protocol, the two-checkpoint storage protocol, the typed property
index with the query builder on top of it, the property catalog, and the Redis Stream provider.
`dafny verify dfyconfig.toml` checks the whole project.

Code that works by changing state is modelled by classes and loops (`PartitionOrderedCommitter`,
`CompletionGate`, `Processor`, `Database`, `PropertyBatchWriter`, `ConsumptionProtector`,
`StreamConsumer`, the catalog `Table`, the builder methods). Each is proved against a
specification function or predicate, and the properties are proved about those. Concurrency is
modelled by step relations in which any number of actors interleave and any step may fail:
`KeyGuards` (one event key, one SQL statement or append per step), `KafkaDelivery` (one partition
across sessions), `WorkerPool` (one atomic operation per step) and `EndToEnd`, which composes the
consumer with the guarded writers.

## How the files hang together

- `OrderedCommit`, `OrderedCommitRuns`: the committer class and what whole runs of it mark.
- `MessageProcessing`: completion gate, retry loop and dead-letter loop; their steps are steps of
  a `KafkaDelivery` task.
- `KafkaDelivery`: fetches, completions, cancellations, aborts, crashes and rebalances over a log
  with a committed position.
- `CommitKeys`, `Protector`, `WorkerPool`: committer registry, pause and resume, bounded pool.
- `KeyGuards`, `KeyRuns`, `GuardedWriter`: the write protocol of one key under interleaving, what
  can still happen to a key, and the writers as straight-line code, proved to be one worker of that protocol.
- `EndToEnd`, `History`, `DurableQueries`: from committed offsets to durable rows, to the appends
  a run has made, and to query answers. `KeyReuse`: what becomes of two envelopes under one key.
- `Events`, `PropertyWriter`, `TableRouting`, `PropertyIndex`: flattening, batching, routing and
  the agreement of the index with the raw property maps.
- `Warehouse`: the tables as the writers fill them.
- `EventQuery`, `QueryCompilation`, `QueryBuilder`, `QueryAnswers`, `QueryPlans`, `Paging`: the
  emitted statement as conditions with positional arguments, its meaning, and its results.
- `PropertyCatalog`, `CatalogTable`: batch fold, upsert and reads of the catalog.
- `RedisStream`: the consumer loop over pending and fresh entries.
- `Prelude`, `Ordering`, `Text`: shared types, sorting of map keys, trimming.

Lemmas to which Dafny would add an induction hypothesis of its own carry `{:induction false}`, so
that the only induction in the project is the one written in the proofs.

## Environment assumptions

- Kafka offsets of a partition are fetched in increasing order from the committed position,
  generation ids increase, and a Bus has one subscription.
- A ClickHouse append that reports an error has written nothing. Every other statement may take
  effect and still report an error, or be the last thing its worker does.
- `MaxAttempts` is at least one for the Kafka provider.
- GORM joins Where clauses with AND and binds arguments in clause order.
- Strings are compared bytewise. Numeric conversion and the table-name hash are arbitrary
  functions.

## What is false, and when the code does keep it

- Marks can get stuck behind a gap in registered offsets: with 1 and 3 fetched around a missing 2
  and both completed, 3 is never marked (`GapLeavesCompletedUnmarked`). `AllMarkedIffNoPendingGap`:
  once all registered offsets have completed, all are marked exactly if none was registered across
  a gap while earlier ones were held. The session's position then stays at or below the gap until
  the next rebalance (`KafkaDelivery.GapHoldsPosition`).
- Two overlapping deliveries can append the same event row twice without any error
  (`OverlappingDeliveriesDuplicate`). No further row can appear exactly when the checkpoint says
  inserted and no worker is about to reclaim, append or roll back (`NoMoreRowsIffClosed`,
  `AtMostOneRowIffClosed`). Rows are always conserved (`RowsConserved`), and serialized deliveries
  have an exact count (`SerializedRowsExact`).
- An acknowledged event can be missing, and property filters can disagree with it, if its key was
  reused with other content. `ReuseMixes`: for any two accepted envelopes with properties under one
  key some run acknowledges both without any error and holds the row of one beside the properties
  of the other; `ReusedKeyLosesContent` is a concrete pair, and `RepairByOtherEnvelope` shows it for
  deliveries that never overlap. An event is answered right exactly if its own row is stored and
  the batches of its key agree with it (`AnsweredRightIffRecorded`, `FaithfulIffCopiesAgree`). That
  always holds when no key is reused (`UniqueKeysAlwaysRecorded`), and for two records under one
  key exactly when they are the same (`RecordedIffNotReused`).
- Filter names are trimmed and stored names are not, so some properties answer no filter:
  exactly those whose name is empty or has white space at its ends (`DecidesIffReachable`). The
  collect endpoint rejects such names (collect/request.go:44 and 268-277), so they only arrive in
  envelopes that another producer puts on the bus.
- The tie-breaking sort columns do not make paging deterministic in general: of two events that
  differ only in their id, two pages can show one twice and the other never (`TwinsMayRepeat`).
  `PagingStableIffDistinctKeys` says exactly when they do.
- The comment in `redisstream.go` that pending work is always drained first holds, but draining
  ends exactly if every pending entry decodes and eventually settles (`DrainsIffNotStuck`). An
  entry that does not decode ends every `Subscribe` that reaches it and is never dead-lettered or
  acknowledged, whatever the limit (`PoisonBlocks`); the Kafka provider dead-letters such records
  (eventbus/kafka/bus.go:419-425). Without an attempt limit or a dead-letter stream an entry whose
  handler keeps failing has the same effect (`NoLimitSticks`).
- The pool's queue usage ratio can exceed one: it stays at most one in every run exactly if nothing
  ever submits to the pool (`RatioBoundedIffNoClaims`). The least bound on the queued counter of a
  used pool is its capacity plus its claims plus its workers (`QueuedBoundIsTight`).
- `splitCommitKey` does not invert keys with an empty topic or a negative partition
  (`SplitInvertsKey` is an equivalence).

## Model

| member | source | states |
|---|---|---|
| EndToEnd.CommittedIsDurableOrDeadLettered | eventbus/kafka/bus.go:415-467 | in every reachable state of consumer and guarded writers, each log offset below the committed position is dead-lettered, or has at least one event row, exactly one property batch if it has properties, and a catalog entry covering each of its rows |
| EndToEnd.BatchIsTheEventsRows | storage/property_indexing_writer.go:43-94 | if the log does not reuse a key for other content, the one batch stored for a durable event holds exactly the rows flattened from it |
| EndToEnd.RunKeepsInv | ingestion/processor.go:48-53 | the joint invariant of delivery, handler calls, write protocol and catalog holds in every run |
| EndToEnd.StepKeepsInv | storage/property_cataloging_writer.go:36-70 | every step of any task, writer, crash or rebalance keeps that invariant |
| EndToEnd.WrittenIsDurable | storage/property_cataloging_writer.go:36-70 | a handler call that returned nil left its event durable |
| DurableQueries.CommittedEventsAreAnswered | storage/clickhouse/query_builder.go:268-425 | in every reachable state, a committed event that was not dead-lettered and whose key was not reused for other content is in the answer of a valid query if and only if its own fields and property maps satisfy it, on any tables that hold what the run appended |
| DurableQueries.AnsweredRightIffRecorded | storage/clickhouse/query_builder.go:268-425 | under a policy that admits a property filter over two nanoseconds, every valid query finds a routable event exactly when its own content satisfies it, on all tables that hold given appends, if and only if its row is among the appends and the batches under its key hold its own reachable values |
| KeyReuse.UniqueKeysAlwaysRecorded | storage/property_indexing_writer.go:43-94 | if no key is reused, every committed event that was not dead-lettered has its own row stored and its own values indexed, in every state of every run |
| KeyReuse.ReuseMixes | storage/property_indexing_writer.go:55-81 | for any two accepted envelopes with properties and the same key, some run commits both without any error or dead letter and has stored exactly the row of one and the batch of the other |
| KeyReuse.RecordedIffNotReused | storage/property_indexing_writer.go:43-94 | with two such records in the log, all committed events are recorded in all runs if and only if the two envelopes are the same |
| KeyReuse.ReusedKeyLosesContent | storage/clickhouse/batch_writer.go:104-111 | a concrete pair that differs in one property: both are acknowledged, the stored row of the first disagrees with the indexed properties, and the second is not stored |
| DurableQueries.TablesExist | storage/clickhouse/table_router.go:60-80 | for any recorded appends there are tables that hold exactly them, each row in the table of its own key |
| DurableQueries.AcceptedEnvelopes | storage/property_cataloging_writer.go:36-70 | an envelope is accepted by the composed writer if and only if none of its four ids is blank and every property has a name, a representable value and a time to record it at |
| History.EveryRunIsTraced | storage/property_indexing_writer.go:43-94 | every run of the composed system has a record of its event appends and property batches with the envelopes they were written for |
| History.TracedRunKeepsInv | storage/clickhouse/batch_writer.go:146-180 | in every state the rows and batches of each key are exactly the recorded appends for it, and each append was made for an accepted log record of that key |
| Warehouse.Tables.AppendEvent | storage/clickhouse/batch_writer.go:146-237 | fails exactly if the key has no route, a property map cannot be encoded or the table is down; otherwise the row is in the table of its key and the tables still hold exactly what was appended |
| Warehouse.Tables.AppendProperties | storage/clickhouse/property_writer.go:51-87 | succeeds exactly if the event flattens and its rows can be sent; the batch is then indexed as a whole, otherwise nothing changes |
| OrderedCommit.PartitionOrderedCommitter.Register | eventbus/kafka/ordered_commit.go:34-64 | a new generation leaves exactly the offset registered, with the callback given now, and makes it the lower bound; a repeat changes nothing; any other offset is added with its callback and nothing else held changes; the rest of the state is that of the specified registration |
| OrderedCommit.FreshRegistration | eventbus/kafka/ordered_commit.go:38-53 | after the first registration of a generation only that offset is held, not done and with its own callback, whatever was held for another one, and nothing of the old counters is left |
| OrderedCommitRuns.ReportedGapIsLargest | eventbus/kafka/ordered_commit.go:57-62 | in a run of one generation that always holds something, the gap reported is the largest step between consecutive registered offsets |
| OrderedCommit.PartitionOrderedCommitter.Complete | eventbus/kafka/ordered_commit.go:67-101 | the new state and the callbacks run are those of the specified completion |
| OrderedCommit.PartitionOrderedCommitter.FlushContiguous | eventbus/kafka/ordered_commit.go:84-97 | the flush loop computes the specified flush and its callbacks in order |
| OrderedCommitRuns.AbortedGenerationNeverMarks | eventbus/kafka/ordered_commit.go:104-115 | in any run, once a generation has been aborted and is not registered again, nothing of it is held and its late completions run no callback and change nothing |
| OrderedCommitRuns.HighWaterNeverAffectsMarks | eventbus/kafka/ordered_commit.go:183-189 | high-water observations, wherever they occur in a run, change nothing about what is held or marked |
| OrderedCommit.PartitionOrderedCommitter.Report | eventbus/kafka/ordered_commit.go:192-209 | the counters reported are the numbers of held and of done offsets, and the oldest pending offset bounds all pending ones and is not done |
| OrderedCommit.RegisterKeepsInv | eventbus/kafka/ordered_commit.go:34-64 | registration in increasing order keeps the committer invariant |
| OrderedCommit.CompleteKeepsInv | eventbus/kafka/ordered_commit.go:67-101 | every completion keeps the invariant: initialized iff something is held, keys at least nextOffset, doneCount exact, head never done |
| OrderedCommit.FlushRemovesContiguousRange | eventbus/kafka/ordered_commit.go:84-97 | a flush removes exactly the completed range from nextOffset up to the first offset that is missing or not done |
| OrderedCommit.FlushMarksInOrder | eventbus/kafka/ordered_commit.go:84-97 | exactly the removed offsets have their callbacks run, each once, in increasing order |
| OrderedCommit.CompletionReleasesPrefix | eventbus/kafka/ordered_commit.go:67-101 | one completion releases a range of completed offsets from nextOffset, leaves everything above held, and changes no other offset |
| OrderedCommit.StaleCompletionIgnored | eventbus/kafka/ordered_commit.go:71-77 | completions of another generation change nothing and run nothing |
| OrderedCommitRuns.RunKeepsInv | eventbus/kafka/ordered_commit.go:34-115 | the invariant holds after every run over any number of generations |
| OrderedCommitRuns.MarkedIsCompletedPrefix | eventbus/kafka/ordered_commit.go:34-101 | with gaps or without, the marked offsets are a strictly increasing prefix of the registered ones, all completed, and exactly the rest is held |
| OrderedCommitRuns.ContiguousRunsMarkLongestPrefix | eventbus/kafka/ordered_commit.go:34-101 | with contiguous registration the marked sequence is the longest completed prefix, for every interleaving |
| OrderedCommitRuns.GapFreeMarksLongestPrefix | eventbus/kafka/ordered_commit.go:34-101 | the same whenever no gap opens above held offsets |
| OrderedCommitRuns.AllMarkedIffNoPendingGap | eventbus/kafka/ordered_commit.go:34-101 | when all registered offsets have completed, all are marked if and only if none was registered across a gap under held offsets |
| OrderedCommitRuns.GapLeavesCompletedUnmarked | eventbus/kafka/ordered_commit.go:84-97 | a concrete run: offsets 1 and 3 are registered and both complete, and only 1 is marked |
| MessageProcessing.CompletionGate.TaskDone | eventbus/kafka/completion_gate.go:39-50 | the last task completes the offset, at most once |
| MessageProcessing.CompletionGate.NoAsyncTaskCompleteNow | eventbus/kafka/completion_gate.go:53-60 | completes the offset at most once, and only with no task outstanding |
| MessageProcessing.CompletionGate.Complete | eventbus/kafka/completion_gate.go:63-72 | one-shot completion with exact tracker counters |
| MessageProcessing.Processor.CallUntilDecided | eventbus/kafka/bus.go:427-466 | the i-th result is that of the i-th scripted round, every round but the last went on, at most MaxAttempts calls are made; handled, exhausted and dropped are told exactly by the last round; failures equal retries plus exhausted messages |
| MessageProcessing.Processor.DeadLetterUntilDone | eventbus/kafka/bus.go:483-534 | publishes once a round until the first success or until the session ends, and gives up exactly if the last round was cancelled or its sleep cut short |
| MessageProcessing.Processor.ProcessConsumerMessage | eventbus/kafka/bus.go:415-467 | for every sequence of outcomes: results and publishes are those of the rounds consumed, the message is dropped exactly if its last round was cut, the offset is completed exactly when the handler succeeded or the dead-letter write did, failures equal retries plus exhausted messages, and the steps are those of a task of the delivery machine |
| MessageProcessing.Processor.Decide | eventbus/kafka/bus.go:418-466 | a message is dead-lettered exactly if it is malformed or its last allowed attempt failed |
| KafkaDelivery.CommittedIsSettled | eventbus/kafka/bus.go:378-412 | over any run, every log offset below the committed or marked position had a handler return nil or a dead-letter record written |
| KafkaDelivery.UnmarkedIsFetchedAgain | eventbus/kafka/bus.go:378-412 | every offset unmarked at a rebalance lies ahead of the new session, which fetches it once it moves past |
| KafkaDelivery.UnsettledStaysAhead | eventbus/kafka/ordered_commit.go:104-115 | an offset that is not settled is never behind a session's start, and while the claim is open it is held and not done |
| KafkaDelivery.ReleaseMovesPast | eventbus/kafka/bus.go:393-395 | a completion moves the position of the session past every offset it releases |
| KafkaDelivery.FetchedIsHeldOrMarked | eventbus/kafka/bus.go:378-412 | while a claim is open, every offset the session has fetched is still held or below the marked position; with nothing held, all it has passed are |
| KafkaDelivery.FlushedIsNotFetchedAgain | eventbus/kafka/bus.go:378-412 | what was marked when the position was committed is fetched by no later session |
| KafkaDelivery.FinishedSessionIsMarked | eventbus/kafka/bus.go:378-412 | when all tasks of a session have finished and no unregistered offset is in the way, everything it has fetched is marked |
| KafkaDelivery.FetchesNext | eventbus/kafka/bus.go:378-392 | a session can fetch exactly while its claim is open and the log reaches past its cursor, and what it fetches is the least offset there |
| KafkaDelivery.GapHoldsPosition | eventbus/kafka/ordered_commit.go:84-97 | once a session has fetched across a gap in the log while earlier offsets were held, its marked and committed positions stay at or below the gap until the next rebalance |
| KafkaDelivery.HeldAfterCompletionIffGap | eventbus/kafka/ordered_commit.go:84-101 | when everything a session holds has completed, something is still held if and only if an unregistered offset is in its way |
| KafkaDelivery.StepKeepsInv | eventbus/kafka/bus.go:378-467 | every fetch, task step, flush, close, rebalance and crash keeps the delivery invariant, part of which is that every offset fetched by an open claim is held or marked |
| KafkaDelivery.TaskStepSettles | eventbus/kafka/bus.go:440-459 | only a handler success or a written dead letter settles an offset, and a gate is released only for a settled one |
| KafkaDelivery.AttemptsBounded | eventbus/kafka/bus.go:427-466 | in every reachable state attempts are within the limit, and a decodable message is dead-lettered only after its last attempt |
| CommitKeys.SplitCommitKey | eventbus/kafka/protector.go:164-180 | succeeds exactly on keys with a nonempty topic before the last colon and digits after it, and returns that topic and that number modulo 2^32 |
| CommitKeys.SplitInvertsKey | eventbus/kafka/protector.go:164-180 | splitting inverts the formatted key exactly for nonempty topics, colons included, and non-negative int32 partitions |
| CommitKeys.KeysAreDistinct | eventbus/kafka/ordered_commit.go:140-148 | distinct topic-partitions have distinct keys |
| CommitKeys.OrderedCommitManager.Get | eventbus/kafka/ordered_commit.go:140-148 | returns the registered committer or a fresh empty one, never that of another topic-partition |
| Protector.PausedPartitions | eventbus/kafka/protector.go:142-152 | lists exactly the partitions denoted by the tracked keys |
| Protector.HasHardPressure | eventbus/kafka/protector.go:126-139 | reports pressure exactly if some signal reaches its threshold |
| Protector.RegistryKeysDenoteThemselves | eventbus/kafka/protector.go:142-152 | for registry keys the listed partitions are the registered ones |
| Protector.ConsumptionProtector.Observe | eventbus/kafka/protector.go:58-80 | pauses and resumes alternate; under pressure everything tracked is held back once, without pressure nothing is |
| Protector.ConsumptionProtector.Reconcile | eventbus/kafka/protector.go:83-99 | after a rebalance dropped pauses, what the group holds back agrees with the protector again |
| WorkerPool.QueuedIsExact | eventbus/kafka/worker_pool.go:74-97 | the queued counter is exactly waiting submitters plus channel length plus picked but uncounted tasks, so never negative |
| WorkerPool.BackpressureBound | eventbus/kafka/bus.go:393-409 | registered tasks neither done nor lost number at most workers plus queue size plus claims, and nothing is lost while not cancelled, not closed and without a panic |
| WorkerPool.OnePlace | eventbus/kafka/worker_pool.go:138-159 | every registered task is at exactly one place: one claim, one channel slot, one worker, or over |
| WorkerPool.AcceptedAreAccounted | eventbus/kafka/worker_pool.go:100-110 | accepted tasks are in the channel, at a worker or completed; with all workers stopped, in the channel or completed |
| WorkerPool.LateTasksAreRefused | eventbus/kafka/worker_pool.go:74-80 | a task submitted after the pool was closed is never queued and never run, in any continuation |
| WorkerPool.WithdrawalIsFinal | eventbus/kafka/worker_pool.go:86-97 | a submission that cancellation or shutdown has won is never queued and never run afterwards |
| WorkerPool.ClaimBlocksIff | eventbus/kafka/worker_pool.go:86-97 | a claim is blocked if and only if it has left, or waits for a full channel while the session lives and the pool is not shut down |
| WorkerPool.RejectedClaimsLeave | eventbus/kafka/bus.go:404-409 | a claim whose submission was rejected fetches nothing more |
| WorkerPool.RatioBoundedIffNoClaims | eventbus/kafka/worker_pool.go:112-137 | for every capacity, number of claims and number of workers: the usage ratio stays at most one in all runs if and only if there are no claims |
| WorkerPool.QueuedBoundIsTight | eventbus/kafka/worker_pool.go:74-97 | a used pool never queues more than a given number in any run if and only if that number is at least capacity plus claims plus workers |
| KeyGuards.AtMostOneBatch | storage/mysql/property_indexing_status_guard.go:75-164 | for any number of interleaving workers with crashes and lost replies: at most one batch, at most one claim holder, failed means none, inserted means exactly one |
| KeyGuards.SuccessIsDurable | storage/property_indexing_writer.go:43-94 | a nil-error write implies a row whose commit took effect and, with properties, exactly one batch under an inserted checkpoint |
| KeyRuns.AmbiguousForever | storage/mysql/property_indexing_status_guard.go:107-125 | from a processing checkpoint without holder, in every continuation: it stays that way, no batch is added, and no delivery with properties succeeds |
| KeyGuards.StepKeepsPropertyInv | storage/mysql/property_indexing_status_guard.go:143-225 | every statement of every worker keeps the property protocol's invariant, so a stale read of failed cannot claim twice |
| KeyGuards.StepKeepsEventInv | storage/mysql/ingestion_status_guard.go:106-249 | every statement of every worker keeps the event protocol's invariant |
| KeyGuards.RowsConserved | storage/mysql/ingestion_status_guard.go:174-249 | rows never exceed the attempt counter, an inserted status has a row, and each row's commit took effect, was lost or is pending |
| KeyGuards.SerializedRowsExact | storage/clickhouse/batch_writer.go:96-127 | for serialized deliveries rows equal the appends whose commit did not take effect plus one if the status is inserted |
| KeyGuards.SerializedSuccessIsCommitted | storage/clickhouse/batch_writer.go:121-127 | for serialized deliveries a write that returned without an error leaves the event checkpoint inserted, and the property checkpoint too if there are properties |
| KeyRuns.OverlappingDeliveriesDuplicate | storage/mysql/ingestion_status_guard.go:139-157 | a concrete run in which two overlapping deliveries append two rows although every statement succeeds |
| KeyRuns.NoMoreRowsIffClosed | storage/mysql/ingestion_status_guard.go:139-187 | from any state, no continuation adds an event row if and only if the checkpoint says inserted and no worker is about to reclaim, append or roll back |
| KeyRuns.AtMostOneRowIffClosed | storage/mysql/ingestion_status_guard.go:139-187 | from any state that keeps the invariant, the key never has more than one event row if and only if it has at most one now and is closed in that sense |
| KeyRuns.ClosedRunKeepsRows | storage/mysql/ingestion_status_guard.go:139-187 | in any run a key that was closed once keeps its number of rows to the end |
| KeyRuns.RepairByOtherEnvelope | storage/property_indexing_writer.go:55-93 | under a reused key, deliveries that never overlap can end with the row of one envelope and the property batch of another: the second repairs the failed batch of the first with its own rows |
| GuardedWriter.Database.StartEventWrite | storage/mysql/ingestion_status_guard.go:106-158 | the code's statements and branches are those of a worker of the protocol |
| GuardedWriter.Database.WriteEventRow | storage/clickhouse/batch_writer.go:96-127 | claim, append, commit or roll back, as that worker does; succeeds exactly if every statement replied without an error, and the store is then the old one with the row written and its checkpoint inserted; properties are untouched and at most one row is added in any case |
| GuardedWriter.Database.StartPropertyWrite | storage/mysql/property_indexing_status_guard.go:75-127 | insert, read and compare-and-set reclaim, as that worker does; without an error absent and failed rows are claimed, inserted ones are passed over and processing ones refused |
| GuardedWriter.Database.WriteClaimedProperties | storage/property_indexing_writer.go:78-94 | succeeds exactly if append and commit reply without an error, and then adds the one batch and its inserted checkpoint; the event side is untouched |
| GuardedWriter.Database.WriteIndexedEvent | storage/property_indexing_writer.go:43-103 | event stage then property stage, as that worker does; without an error it succeeds unless a checkpoint blocks it, and a success leaves exactly the row and the batch written |
| GuardedWriter.Database.WriteEvent | storage/property_cataloging_writer.go:36-70 | the whole call is one uninterrupted worker; it succeeds exactly if every statement replied without an error and no checkpoint was in the way, and both checkpoints are then inserted |
| GuardedWriter.AloneIsMachineRun | storage/property_indexing_writer.go:43-94 | running the code alone is a run of the interleaving machine by one worker |
| GuardedWriter.AnyErrorFails | storage/property_cataloging_writer.go:36-70 | whichever statement reports an error, the call does not succeed |
| GuardedWriter.FailedAppendRollsBack | storage/clickhouse/batch_writer.go:112-120 | a claimed append that fails is rolled back: nothing is added, the checkpoint says failed and the call reports an error; the same for a property batch |
| GuardedWriter.FailedCommitIsKept | storage/property_indexing_writer.go:84-93 | a commit that reports an error fails the call without a roll back: the row or batch stays, and the checkpoint says processing exactly if the commit did not take effect |
| GuardedWriter.RedeliveryRepairsProperties | storage/property_indexing_writer.go:55-93 | a redelivery after a failed property batch adds the one missing batch and no event row |
| GuardedWriter.RedeliveryOfWrittenEventIsNoOp | storage/property_indexing_writer.go:57-79 | a redelivery of a fully written event succeeds and changes nothing |
| Events.FlattenPropertyMap | storage/property.go:155-177 | the loop over sorted keys yields one row per key in order or the first failure, whatever the map order |
| Events.FlattenEventProperties | storage/property.go:110-138 | event rows then user rows, or the first failure |
| Events.FlattenSucceeds | storage/property.go:179-248 | flattening succeeds exactly when every value of both maps is a representable scalar |
| Events.FlattenFailsFirst | storage/property.go:110-177 | the error names the first value that cannot be represented, event scope before user scope and names in order, and tells a number from an unsupported value |
| Events.FlattenIsOwnRows | storage/property.go:110-177 | a row is produced if and only if it is the row of one of the event's own properties |
| Events.FlattenIsOrdered | storage/property.go:105-137 | event scope first and names strictly increasing in each scope, so no selector repeats |
| PropertyCatalog.KeyOrder | storage/property_catalog.go:120-137 | the key comparison is a strict total order |
| PropertyCatalog.CollectEntries | storage/property_catalog.go:67-96 | the fold holds, for each key, exactly the earliest and latest observed time, or reports the first invalid row |
| PropertyCatalog.BuildPropertyCatalogEntries | storage/property_catalog.go:59-108 | one entry per distinct key, strictly sorted, each with the exact window; fails exactly if some row is invalid |
| PropertyCatalog.EntryMeans | storage/property_catalog.go:218-229 | the window of an entry runs from the earliest to the latest time at which a row of its key was seen, which is its event time, or its receive time if it has none |
| PropertyCatalog.CondenseUnique | storage/property_catalog.go:59-108 | the result depends only on which rows are present, not on their order, repeats or map traversal |
| PropertyCatalog.BatchWidensTable | storage/mysql/property_catalog.go:82-105 | upserting a built batch leaves the exact minimum and maximum over old and new observations |
| PropertyCatalog.CatalogConverges | storage/mysql/property_catalog.go:82-105 | any two sequences of built batches with the same observations, in any order and with any repeats, end in the same catalog |
| PropertyCatalog.SplitBatchesAgree | storage/property_catalog.go:59-108 | upserting build(A) then build(B) equals upserting build(A followed by B), on every table |
| CatalogTable.Table.UpsertPropertyCatalogEntries | storage/mysql/property_catalog.go:63-106 | the first invalid entry decides the error and leaves the table unchanged; otherwise all entries are upserted |
| CatalogTable.Table.ReadRows | storage/mysql/property_catalog.go:166-181 | succeeds exactly if every row asked for is valid, and then returns the stored rows unchanged |
| CatalogTable.Table.ListPropertyCatalogEntries | storage/mysql/property_catalog.go:109-146 | the selected rows in key order; what a limit cuts off comes after everything returned; fails only on an invalid query or an invalid selected row |
| TableRouting.PropertyTablesFollowEventTables | storage/clickhouse/schema.go:80-89 | property tables coincide exactly when event tables do |
| TableRouting.TablesSeparate | storage/clickhouse/table_router.go:60-85 | with a safe prefix and safe hashes of one width, two keys share an event table if and only if all three of their hashes are equal |
| TableRouting.RoutedTablesAreSafe | storage/clickhouse/schema.go:80-89 | under the same conditions every routed table has a safe name and so a property table named after it |
| PropertyWriter.GroupRecords | storage/clickhouse/property_writer.go:59-74 | groups hold each table's records in order; an invalid or unroutable record fails before anything is sent |
| PropertyWriter.PropertyBatchWriter.WriteEventProperties | storage/clickhouse/property_writer.go:51-87 | exactly the tables that were sent received exactly their group; success, with every record counted, exactly if no target is down |
| PropertyWriter.OneSourceIsAtomic | storage/clickhouse/property_writer.go:76-86 | rows of one routing key are written all or not at all |
| PropertyIndex.WriteExtendsIndex | storage/clickhouse/property_writer.go:51-137 | a write of one event's rows adds its batch to the index or leaves the index alone |
| PropertyIndex.IndexSeesOwnCopies | storage/clickhouse/query_builder.go:386-425 | through a shared table, with any hash, a filter finds an event exactly when a batch written for its own key satisfies it by its raw maps |
| PropertyIndex.FaithfulIffCopiesAgree | storage/clickhouse/query_builder.go:386-425 | filters answer from the event's own maps if and only if the batches of its key hold the same reachable values |
| PropertyIndex.OwnBatchIsFaithful | storage/property_indexing_writer.go:78-93 | one batch, or equal ones, written from the event's maps makes the index faithful for it |
| PropertyIndex.DecidesIffReachable | storage/clickhouse/query_builder.go:605-616 | for every event, a stored property decides the answer of some filter if and only if its name is not empty and equals its trimmed form |
| PropertyIndex.ReducedAnswersSame | storage/clickhouse/query_builder.go:605-616 | forgetting every other property of an event changes the answer of no filter |
| Text.TrimSpaceCuts | storage/clickhouse/query_builder.go:605-616 | trimming cuts white space and nothing else off both ends, until neither end is white space |
| EventQuery.WhereSelects | storage/clickhouse/query_builder.go:293-306 | one more Where call is one more conjunct that consumes exactly its own arguments |
| QueryCompilation.TupleInMatches | storage/clickhouse/query_builder.go:399-425 | the tuple-IN predicate with its six or seven arguments asks for an index row of this very event that satisfies the filter |
| QueryCompilation.CompilationPreservesMeaning | storage/clickhouse/query_builder.go:268-425 | on every database: as many arguments as placeholders, and the statement selects a row exactly when the query read directly does |
| QueryBuilder.ApplyEventFilters | storage/clickhouse/query_builder.go:350-369 | succeeds exactly if every filter is valid; otherwise reports the first fault |
| QueryBuilder.BuildPropertyFilterPredicate | storage/clickhouse/query_builder.go:386-446 | the predicate and its arguments, or the error of the first check that fails |
| QueryBuilder.ApplyPropertyFilters | storage/clickhouse/query_builder.go:371-384 | one clause per filter, or the first filter's error |
| QueryBuilder.PropertyFilterMeans | storage/clickhouse/query_builder.go:386-446 | a property filter is accepted if and only if its scope is known, its name is not blank, its trimmed selector is granted by the policy or by the query, and it compares a typed value or asks for a null |
| QueryBuilder.BuildFilteredEventsScope | storage/clickhouse/query_builder.go:268-338 | a query is accepted exactly if it is valid; the accepted statement reads the routed table, is well bound and means the query |
| QueryBuilder.EvidenceCountsClauses | storage/clickhouse/query_builder.go:523-541 | scalar plus property filter counts plus one equal the emitted Where clauses |
| QueryAnswers.AnswerIsWanted | storage/clickhouse/table_router.go:60-85 | on tables filled by routed writers, the rows selected are exactly the stored events that satisfy the query, in storage order, even if tenants share tables |
| QueryPlans.StatementAnswersQuery | storage/clickhouse/query_builder.go:268-425 | the statement of a valid query answers it from the events' own property maps |
| QueryPlans.BuildEventCountQuery | storage/clickhouse/query_builder.go:185-200 | accepted exactly if valid; same statement as the list; evidence counts its clauses |
| QueryPlans.BuildEventsQuery | storage/clickhouse/query_builder.go:209-234 | accepted exactly if query and sort are valid; the limit is the one asked for, the default without one, and never above the maximum; the evidence counts the clauses and tells the bounds, the whole seconds between them, the property table use and the sort of the statement |
| QueryPlans.BuildRealtimeQuery | storage/clickhouse/query_builder.go:252-266 | selects exactly the source's events since the given time, latest first, with the limit asked for, the default without one, and never more than the maximum |
| QueryPlans.CountAndListAgree | storage/clickhouse/query_builder.go:185-249 | the count is the number of rows the list matches before paging, and a page has min(limit, max(0, count - offset)) rows |
| QueryPlans.EventsOrderTies | storage/clickhouse/query_builder.go:543-565 | every accepted sort is an order that ties rows exactly when they share event time, receive time and, when sorting by it, name |
| QueryPlans.EventsOrderMeans | storage/clickhouse/query_builder.go:543-565 | for every accepted sort, one event comes before another if and only if it precedes it by the chosen column in the chosen direction, or ties there and is later in event time, or ties in both and was received later |
| QueryPlans.PagingStableIffDistinctKeys | storage/clickhouse/query_builder.go:555-563 | the result order is determined exactly when no two different matched rows share those columns |
| QueryPlans.TwinsMayRepeat | storage/clickhouse/query_builder.go:555-563 | two events that differ only in their id may come in either order under every accepted sort, so consecutive pages can show one twice and the other never |
| Paging.PagesTile | storage/clickhouse/query_builder.go:226-229 | consecutive pages of one result repeat and skip nothing |
| RedisStream.StreamConsumer.XReadGroup | eventbus/redisstream/redisstream.go:113-125 | history redelivers the oldest pending entries, as many as the count allows; fresh reads take new messages over as first deliveries; a refused call changes nothing, and the fault reported is the one of the call |
| RedisStream.StreamConsumer.Process | eventbus/redisstream/redisstream.go:129-146 | an entry that does not decode stops before any effect; otherwise the attempt fails exactly if one of its calls does, and without that handles the entry once and removes it exactly if the attempt settles it |
| RedisStream.StreamConsumer.HandleFailure | eventbus/redisstream/redisstream.go:188-202 | a failed delivery ends the entry exactly if there are a limit and a dead-letter stream and the deliveries have reached the limit: it is then dead-lettered and after that acknowledged, otherwise nothing happens; fails exactly if a call does |
| RedisStream.StreamConsumer.XAck | eventbus/redisstream/redisstream.go:143-145 | callable only after a success or a dead letter of the entry; succeeds exactly if the call does, and removes that entry and nothing else unless it is refused |
| RedisStream.StreamConsumer.Consume | eventbus/redisstream/redisstream.go:110-149 | fails only on a Redis error or an entry that does not decode; a history batch that succeeds leaves exactly the unsettled entries with exactly the expected handler calls, dead letters and acknowledgements; every message stays accounted for under any faults |
| RedisStream.StreamConsumer.Subscribe | eventbus/redisstream/redisstream.go:88-106 | fresh reads happen only after the own pending list was seen empty; without Redis errors this is so exactly if fewer than the given number of batches empty it, at the latest after the outstanding work; the loop fails only on a Redis error or an entry that does not decode |
| RedisStream.RoundWorks | eventbus/redisstream/redisstream.go:127-148 | the measure on pending entries and their remaining attempts falls by at least one per delivery |
| RedisStream.LimitUnsticks | eventbus/redisstream/redisstream.go:188-202 | with an attempt limit and a dead-letter stream a pending list is stuck if and only if some entry does not decode |
| RedisStream.FailedDeliveryEnds | eventbus/redisstream/redisstream.go:188-202 | a failed delivery is dead-lettered and acknowledged if and only if a limit and a dead-letter stream are set and its number is at least the limit |
| RedisStream.DrainsWithinAttemptsLeft | eventbus/redisstream/redisstream.go:188-202 | with a limit and a dead-letter stream, a list of entries that decode and have attempts left is empty after as many batches as attempts are left, whatever the handler does |
| RedisStream.NoLimitSticks | eventbus/redisstream/redisstream.go:192-194 | without one of them a pending list is stuck if and only if some entry does not decode or its handler fails at every attempt to come |
| RedisStream.DrainsIffNotStuck | eventbus/redisstream/redisstream.go:88-101 | without Redis errors, draining empties the pending list if and only if every entry decodes and eventually settles |
| RedisStream.DrainsWithinWork | eventbus/redisstream/redisstream.go:88-101 | and it does so within as many batches as there is outstanding work |
| RedisStream.PoisonBlocks | eventbus/redisstream/redisstream.go:130-135 | one entry that does not decode keeps the list from being emptied, under every limit and every handler |

## Left out

- JSON encoding of envelopes and dead letters (whether a property map can be encoded is a parameter), HTTP, TLS and SASL options, DDL text, client libraries: plumbing.
- The collect package: per-field checks. It accepts numbers spelled NaN or Inf that flattening rejects; nothing here relies on collect.
- Wall-clock time, backoff durations, `updated_at`, error texts and goroutine counts: a sleep is a choice between going on and being cancelled.
- int64 overflow of offsets and counters.
- DateTime64(3) precision: times are exact instants, so rows that ClickHouse would round together count as different.
- The sign of a floating-point zero, and float32 widening, which is part of the numeric conversion parameter.
- Consumer group creation, other consumers of a Redis group, and entries that are claimed across consumers.
- The per-property list in the query evidence, which copies the filters' shapes.
- The public statistics projections and the lag they compute.
- Several partitions at once: partitions share the pool, modelled in `WorkerPool`, and the registry, modelled in `CommitKeys`; the delivery machine follows one of them over a fixed log.
- The parallel pressure signals of the protector come as one snapshot value; how often it observes is left to the caller.
- The writers without a guard, which the source calls suitable for demos only.
- GuardedWriter.Database.WriteEvent: the statements of one key only; two keys never share a checkpoint row.
- WorkerPool.BackpressureBound: counts messages of the current claims; a task that panics in the provider's own code is counted as lost, as its offset stays uncompleted.
