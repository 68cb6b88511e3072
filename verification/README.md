# Omnishard exporter: model and proofs

A Dafny 4.11 model of the sharded, batching, retrying span exporter in
`exporter/omnishard`, of the server side of its protocol, and of the OpenCensus
trace stream receiver in `receiver/opencensusreceiver/octrace`.

Spans enter through `EncodeSpans`, wait in a bounded queue, and are taken by
workers. A worker hashes the trace ID, finds the shard that owns the hash, and
hands the span to that shard's encoder, which collects spans until a size
threshold or a tick and then emits one record. Senders carry records to the
server, which accepts a record only if its shard is part of the server's
current configuration. Anything turned away (configuration mismatch, throttling,
a retryable failure, a stopped encoder) goes to a bounded retry queue and
through the encoder again. Meanwhile the server may change its configuration, the client may
replace all its shard encoders, and the exporter may shut down.

## Layout

| file | contents |
|---|---|
| `Basics`, `HashKeys` | sums, permutations; 128-bit hash keys and their big-endian bytes |
| `ShardingConfig`, `EvenPartition` | parsing, in-place sorting and checking a configuration; lookup; the even partition |
| `Spans`, `ShardEncoding` | the span size limit; the shard encoder as critical sections and as an object |
| `ShardEncoderLocking` | the shard encoder as threads that interleave between lock, flag, unlock and callback actions |
| `Server`, `Exporting`, `Encoding`, `ConfigMailbox` | the mock server, exporter, client and encoder objects and their specification functions |
| `Pipeline` | the whole exporter and server as one state machine; a run is a list of steps |
| `PipelineRouting` | invariants of every reachable state; what a thread may touch |
| `PipelineAccounting` | conservation, WaitGroup accounting, at-most-once, deliveries were recorded |
| `PipelineHistory`, `PipelineDrops` | records are in the right shard of the configuration of their time; when spans are forgotten; why they are dropped |
| `PipelineOrder` | the queues are first in, first out |
| `PipelineBounds` | sizes of records over whole runs |
| `PipelineProgress`, `PipelineDrain`, `PipelineOutcome` | deadlock freedom; emptying by a rank; every schedule empties, and what is then delivered |
| `PipelineConfiguration`, `PipelineShutdown`, `PipelineStopFlush` | configuration changes and shutdown over runs; the flush and the stop of the encoders |
| `PipelineConvergence`, `PipelineRecovery`, `PipelineCatchUp`, `PipelineNotice` | empty or dead from any running state; which configurations end delivery; recovery; when a new configuration is noticed |
| `PipelineDelivery`, `PipelineLimits` | runs put together step by step; promises that fail for some server, with their exact conditions |
| `OcTrace` | the stream fold of the OpenCensus receiver and its limit on streams |

Code that changes state step by step is a class or an imperative method proved
against a specification function; the properties are lemmas about those
functions and about runs of the state machines. In `Pipeline` a critical
section of a shard encoder is one step: `ShardEncoderLocking.StepRefinesSection`
proves that the interleaved, lock-level encoder refines exactly those sections, although
the stop flag is written without the lock. Everything else (the stopping check, the
WaitGroup, the queues, callbacks after unlocking, each RPC stage, each
goroutine's start and end) interleaves freely.

## Assumptions

- MD5 (RFC 1321), protobuf marshalling and gzip are any deterministic
  functions; marshalling and compression may fail. A marshal size is a
  mathematical integer; the encoder's `uint` sum wraps at 2^64 in the model.
- A missing byte string and an empty one are the same, as the server compares them.
- Go's mutex, condition variable, channels, WaitGroup and atomics work as documented.
- Ticks, timeouts, connection failures, the interleaving and the server's
  replies are arbitrary choices. The server's policy is a parameter: `Settings.mayReply`
  says which replies it may give to a request that it has recorded.
- A span's `id` names one occurrence handed to the exporter, so counting an
  `id` counts that occurrence.

## Where the code differs from what it says of itself

- An invalid configuration is logged as ignored (exporter/omnishard/encoder.go:312-316),
  but the old shard encoders have been stopped by then and none is started
  (`PipelineConfiguration.ApplyingReplacesEncoders`). An accepted configuration without shards, such as
  the mock server's first one (exporter/omnishard/mock_server.go:144-150), has the same effect. Either
  can end delivery for good: what is already in a flush callback, a queued request or a call is still
  sent, and a mismatch among these can still bring another configuration, but after
  that no request is made, and only a mismatch would bring one. Spans then go round the retry queue
  for ever, or are dropped for want of a shard. `PipelineRecovery.JudgementIsDeadlyExactly` says when one
  judgement is final, `PipelineRecovery.UnusableFirstEndsDelivery` and
  `PipelineLimits.UnusableConfigurationEndsDelivery` give runs, and
  `PipelineRecovery.NeverDeadExactlyIfUsable` and
  `PipelineCatchUp.DeliveryIsNeverLostExactlyIfUsable` say which configurations are safe: exactly
  those that are accepted and have a shard.
- The exporter is told of a new configuration only when a shard of its own is missing from it. One
  that merely adds shards goes unnoticed (`PipelineNotice.NewConfigurationIsNoticedExactly`,
  `PipelineNotice.GrowthGoesUnnoticed`).
- During graceful stopping no new spans are to be accepted
  (exporter/omnishard/encoder.go:228-231), but a caller past the check can enqueue after the
  drain wait returned. `PipelineShutdown.DrainIsFinalExactly` gives the exact condition, and
  `PipelineShutdown.BatchStrandedAfterShutdown` a run where it fails.
- The WaitGroup is described as counting batches in the queue
  (exporter/omnishard/encoder.go:72-73); it also counts blocked callers and batches in a worker's hands,
  which is what makes `PipelineAccounting.ZeroMeansDrained` true.
- At-most-once recording depends on the server: it holds exactly if the server
  never asks for a retry of something it recorded (`PipelineLimits.AtMostOnceExactlyIfHonest`).
  The mock server can be told to do so through `nextResponseCode`.
- Spans vanish without being counted in two places, kept in the model as
  `forgotten` (`PipelineHistory.ThreadForgets`). An unknown result code matches no case of
  `OnSendResponse`: before shutdown nothing vanishes exactly if the server uses known codes
  (`PipelineLimits.NothingForgottenExactlyIfCodesKnown`). The retry goroutine ignores the
  error of `EncodeSpans` once the encoder is stopping, with any server
  (`PipelineLimits.RefusedRetryIsForgotten`).
- A nil configuration passed to `SetConfig` erases a pending request. A configuration that was not
  taken is lost exactly when another call follows it or the processor is stopped
  (`PipelineConfiguration.ConfigurationIsLostExactly`), and nil erases one in some run
  exactly if the server may send a mismatch without a configuration
  (`PipelineLimits.NothingErasedExactlyIfNilNever`).
- A stream that ends before its first message is answered with the end-of-stream
  error, whereas the same end after a message is a success (`OcTrace.EndIsErrorBeforeFirstMessage`).

## Model

| member | source | states |
|---|---|---|
| HashKeys.BytesRoundTrip | exporter/omnishard/encoder_test.go:52-56 | writing a key as its shortest big-endian bytes and reading it back gives the key |
| HashKeys.SetBytesRoundTrip | exporter/omnishard/sharding_config.go:65-66 | reading and rewriting bytes restores them exactly when they have no leading zero |
| HashKeys.SameKeySameBytesExactly | exporter/omnishard/mock_server.go:93-101 | byte strings for the same key are equal exactly when they have the same length, so leading zeros are all that can differ |
| HashKeys.DigestInKeySpace | exporter/omnishard/sharding_config.go:95-98 | every digest is a key of at most 2^128 - 1 |
| HashKeys.FirstByteWeighsMost | exporter/omnishard/sharding_config.go:95-98 | the first byte is the most significant one, weighing 256 to the number of bytes after it, also when it is zero |
| HashKeys.CalcMaxHashKey | exporter/omnishard/sharding_config.go:100-108 | the loop over 0xff bytes yields a key that no digest exceeds |
| ShardingConfig.SortShards | exporter/omnishard/sharding_config.go:50-77 | in-place sorting by Less and Swap gives an ordered permutation, ties in any order |
| ShardingConfig.AdjacentCheckIsComplete | exporter/omnishard/sharding_config.go:79-85 | on a sorted list, comparing neighbours decides whether any two ranges share a key |
| ShardingConfig.CheckNeighbours | exporter/omnishard/sharding_config.go:79-85 | the loop returns exactly whether all neighbours are free of overlap |
| ShardingConfig.NewConfigAcceptsExactly | exporter/omnishard/sharding_config.go:58-88 | accepted if and only if each range has start <= end and no key lies in two ranges; the result is a strictly ascending permutation; which error is returned |
| ShardingConfig.OrderOfDefinitionsIsIrrelevant | exporter/omnishard/sharding_config.go:59-87 | permuting the definitions changes neither verdict nor shard list |
| ShardingConfig.AnySortGivesTheSameConfig | exporter/omnishard/sharding_config.go:77-87 | whatever permutation a correct sort produces, verdict and list are the same, so instability does not matter |
| ShardingConfig.AscendingIsUnique | exporter/omnishard/sharding_config.go:77-87 | a multiset of shards has at most one arrangement without overlaps |
| ShardingConfig.NewShardingInMemConfig | exporter/omnishard/sharding_config.go:58-88 | the parse, sort and check loops accept exactly the acceptable configurations and return their ascending permutation |
| ShardingConfig.FindShardFinds | exporter/omnishard/encoder.go:451-464 | the scan returns the first shard that contains the key, and nothing only if none does |
| ShardingConfig.OwnerIsUnique | exporter/omnishard/encoder.go:451-464 | in a published list the scan finds shard i if and only if i contains the key |
| ShardingConfig.KeyIsLookedUpByDigest | exporter/omnishard/sharding_config.go:90-98 | a partition key is looked up by the value of all bytes of its digest: the first shard whose range holds it, or none if none does |
| ShardingConfig.ScanEqualsBinarySearch | exporter/omnishard/encoder.go:456-463 | the binary search proposed in the code gives the same answer as the scan for every key |
| ShardingConfig.ServerComparesExactly | exporter/omnishard/mock_server.go:82-101 | the server's comparison of ids and bytes agrees with the client's numbers up to leading zeros, and entirely for minimal bytes |
| EvenPartition.CreateTestShardConfig | exporter/omnishard/encoder_test.go:35-69 | the builder loop produces the even partition and ends on the largest key, so its final check passes |
| EvenPartition.EvenConfigAccepted | exporter/omnishard/encoder_test.go:35-69 | for n shards the result is accepted if and only if n <= 2^128, and is already in order |
| EvenPartition.EveryKeyHasOneShard | exporter/omnishard/encoder_test.go:38-39 | no gaps and no overlaps: every partition key belongs to exactly one shard, the one the scan finds, and the range of its definition holds the digest |
| EvenPartition.PartitionIsEven | exporter/omnishard/encoder_test.go:35-69 | any two shards differ by at most one key, and no two have the same id |
| Spans.TryEncodeIsStable | exporter/omnishard/shard_encoder.go:227-272 | identity and trace ID survive; a span that passes fits the limit and passes again unchanged with the same size; a span that fits is never cut |
| Spans.SizeLimitExactly | exporter/omnishard/shard_encoder.go:227-272 | a span is accepted if and only if it is within the limit, or can be marshalled and its cut is; the cut has the three tags, with the size before it, and no logs; what comes back in each case |
| ShardEncoding.AccumulateKeepsInv | exporter/omnishard/shard_encoder.go:285-290 | appending keeps every pending span within the limit and the counter equal to their total size modulo 2^64 |
| ShardEncoding.FlushReportsPending | exporter/omnishard/shard_encoder.go:162-225 | a flush empties the batch and reports exactly it, once: as spans of a stopped encoder if and only if the flag was set, else as a record if and only if marshalling and compression succeed, else as impossible to encode; a record agrees with its spans and shard |
| ShardEncoding.EncodeAccountsForEverySpan | exporter/omnishard/shard_encoder.go:141-160 | reported spans followed by pending ones are the old pending ones followed by the new one; a refused span is reported alone, with the code for the limit or for the stop, and the batch is untouched; the batch is reported when the counter reaches the record size |
| ShardEncoding.ReportIsUnique | exporter/omnishard/shard_encoder.go:177-220 | for each batch, shard and flag there is only one callback that reports it |
| ShardEncoding.FlushesAtThresholdExactly | exporter/omnishard/shard_encoder.go:285-295 | while the sum does not wrap, a call flushes if and only if the sizes of the batch, the new span included, reach maxRecordSize |
| ShardEncoding.ShardEncoder.Stop | exporter/omnishard/shard_encoder.go:134-139 | sets the flag and closes the channel if nobody has, and leaves the batch alone |
| ShardEncoding.ShardEncoder.Emit | exporter/omnishard/shard_encoder.go:179-220 | each exit of a flush clears the batch and makes the one callback that reports it for the flag |
| ShardEncoding.ShardEncoder.Flush | exporter/omnishard/shard_encoder.go:164-225 | new state and callbacks are those of the atomic flush, on each of its exits: nothing without a batch, else the one callback that reports it |
| ShardEncoding.ShardEncoder.TryEncodeSpan | exporter/omnishard/shard_encoder.go:231-272 | enforces the size limit on the span object in place: left alone, cut as described, or rejected and then reported |
| ShardEncoding.ShardEncoder.AccumulateEncodedSpan | exporter/omnishard/shard_encoder.go:274-296 | appends or refuses, flushes at the threshold; between calls the batch is below the record limit and the counter is exact |
| ShardEncoding.ShardEncoder.Encode | exporter/omnishard/shard_encoder.go:141-160 | whole call: in-place cut, new batch and callbacks as specified, and as described for each outcome, also when the object is already pending |
| ShardEncoderLocking.StepRefinesSection | exporter/omnishard/shard_encoder.go:164-296 | every interleaved action is one atomic section or invisible, and returns that section's result: refinement of the atomic encoder by the locked one |
| ShardEncoderLocking.LockProtectsBatch | exporter/omnishard/shard_encoder.go:85-93 | while one thread holds the lock another can at most set the stop flag |
| ShardEncoderLocking.RunKeepsAccounted | exporter/omnishard/shard_encoder.go:128-133 | in every run each offered span is pending, in one thread's hands, or reported, and in only one of them |
| ShardEncoderLocking.NothingStrandedAfterFlusherReturns | exporter/omnishard/shard_encoder.go:274-336 | once the flusher has returned, nothing is pending then or after any further steps, and every offered span was reported once or is held by a caller about to report it |
| ShardEncoderLocking.BatchesPartitionHistory | exporter/omnishard/shard_encoder.go:208-218 | spans appended in lock order are the flushed batches in lock order followed by the pending list |
| ShardEncoderLocking.EveryFlushIsReportedOnce | exporter/omnishard/shard_encoder.go:164-225 | each flushed batch is the spans of one flush callback, made or due, as often as it was flushed; records agree with their batch and shard; spans come back as those of a stopped encoder only after a stop, and as impossible to encode only if they are; likewise for the callbacks of Encode |
| ShardEncoderLocking.FlushGoesByFlagRead | exporter/omnishard/shard_encoder.go:164-225 | in every run a flush reads the stop flag with the lock held, and its callback is the one for that flag even if the encoder is stopped in between |
| ShardEncoderLocking.AppendFlushesExactly | exporter/omnishard/shard_encoder.go:285-295 | in every run an append leads to a flush if and only if the sizes of the new batch reach maxRecordSize |
| ShardEncoderLocking.BatchSizesAreBounded | exporter/omnishard/shard_encoder.go:286-295 | with W callers every batch stays below maxRecordSize + W * maxAllowedSizePerSpan, tighter with fewer pending flushes, and the unsigned sum never wraps if that fits |
| Server.MockServer.Export | exporter/omnishard/mock_server.go:47-80 | records a request exactly when headers and availability allow and its shard is in the configuration; the reply in every case |
| Server.MockServer.ShardIsPart | exporter/omnishard/mock_server.go:82-91 | the scan returns whether some definition has the same id and range bytes |
| Exporting.ProcessFailAccounts | exporter/omnishard/exporter.go:225-236 | spans of a stopped encoder are retried unless the queue is full, others are dropped; none is lost, duplicated or taken for delivered |
| Exporting.ReplyAccounts | exporter/omnishard/exporter.go:240-290 | after any reply the spans are in exactly one place, settled unless a retry is asked for and there is room, delivered exactly on success |
| Exporting.OutcomesExactly | exporter/omnishard/exporter.go:213-290 | field by field, what each reply, each failure code and a full retry queue make of a batch |
| Exporting.RetriedExactlyIfThrottled | exporter/omnishard/client_unary.go:179-193 | with room in the queue a failed call grows it by its batch if and only if some detail asks for a positive delay, and is otherwise counted as dropped |
| Exporting.Exporter.Resend | exporter/omnishard/exporter.go:213-221 | never blocks: queues the batch, or counts it as dropped when the queue is full; the queue stays within its size |
| Exporting.Exporter.SpanProcessFailed | exporter/omnishard/exporter.go:225-236 | for either failure code the batch ends in the one place, and with the one drop code, that it calls for, and nothing else changes |
| Exporting.Exporter.SendResponded | exporter/omnishard/exporter.go:240-271 | for each result code the batch ends in the one place that it calls for, and nothing else changes; a mismatch hands over the configuration |
| Exporting.Exporter.SendFailed | exporter/omnishard/exporter.go:275-290 | the new state is that of the specification for either failure code |
| Exporting.ClientUnary.Connect | exporter/omnishard/client_unary.go:73-120 | a successful dial creates the empty queue with its capacity and callbacks; a failed one changes nothing |
| Exporting.ClientUnary.Send | exporter/omnishard/client_unary.go:144-157 | queues the record for its shard with its original spans, or reports that the queue is full |
| Exporting.ClientUnary.HandleReply | exporter/omnishard/client_unary.go:171-196 | exactly one callback per request: an error is retried if and only if some detail is a positive delay in seconds or nanoseconds, an answer is handled by its code; a mismatch hands over its configuration |
| Exporting.ClientUnary.SendRequest | exporter/omnishard/client_unary.go:171-197 | a call of the mock server and the handling of its reply: unavailable means retried, bad headers dropped, a mismatch retried with the configuration handed over, otherwise recorded and settled by the code |
| ConfigMailbox.SetConfigKeepsInv | exporter/omnishard/encoder.go:192-200 | overwriting a request keeps coalescing and never leaves the processor asleep |
| ConfigMailbox.CheckKeepsInv | exporter/omnishard/encoder.go:286-309 | what is taken is always the newest configuration set; the processor sleeps only with nothing to do |
| ConfigMailbox.StopKeepsInv | exporter/omnishard/encoder.go:252-256 | flagging the stop before signalling it loses no wakeup |
| Encoding.BatchAccountsForEverySpan | exporter/omnishard/encoder.go:427-449 | processing a batch leaves each of its spans pending in an encoder or reported, once for each time it stands in the batch, and touches others only by reporting them |
| Encoding.FirstOwnerTakesSpan | exporter/omnishard/encoder.go:427-445 | the first encoder whose range holds the digest encodes the span and no other encoder changes; without one it is reported as impossible to encode and left alone |
| Encoding.Encoder.SetConfig | exporter/omnishard/encoder.go:192-200 | the mailbox afterwards, its invariant kept |
| Encoding.Encoder.CheckConfigChange | exporter/omnishard/encoder.go:286-309 | one turn of the wait loop: sleep, exit or take, as specified |
| Encoding.Encoder.EncodeSpans | exporter/omnishard/encoder.go:209-224 | refused when stopping, else counted and queued if there is room |
| Encoding.Encoder.GetShardEncoder | exporter/omnishard/encoder.go:451-464 | the scan returns the encoder of the first shard whose range holds the digest, or none if there is none |
| Encoding.Encoder.ProcessSpan | exporter/omnishard/encoder.go:431-445 | only the owner's encoder changes, by one whole call of Encode; without an owner the span is reported; spans pending anywhere are not rewritten |
| Encoding.Encoder.ProcessSpanBatch | exporter/omnishard/encoder.go:427-449 | encoders, span objects and callbacks after the batch are those of the specification, also for repeated or already pending objects, and the WaitGroup goes down by one |
| Encoding.Encoder.StopShardEncoders | exporter/omnishard/encoder.go:344-351 | every encoder of the list is stopped and otherwise unchanged |
| Encoding.Encoder.StartShardEncoders | exporter/omnishard/encoder.go:355-383 | the list becomes one fresh, empty and started encoder per shard, in order |
| PipelineRouting.RunKeepsInv | exporter/omnishard/encoder.go:209-464 | in every reachable state spans sit with the shard that owns them, replaced encoders are stopped, queues are within bounds and the mailbox invariant holds |
| PipelineRouting.FoundShardOwnsSpan | exporter/omnishard/encoder.go:451-464 | in every reachable state at most one encoder of the current list has the span's digest in its range, and the scan finds it |
| PipelineRouting.NewShardsKnowOrigin | exporter/omnishard/sharding_config.go:61-75 | each shard remembers the definition of the configuration that it was parsed from |
| PipelineRouting.SendContractAndRetriesFit | exporter/omnishard/client_unary.go:135-144 | every queued request meets the contract of Send, and every span waiting for retry will pass the size check unchanged |
| PipelineRouting.ReturnedFlusherLeavesNothing | exporter/omnishard/shard_encoder.go:324-336 | over whole runs an encoder whose flusher returned is stopped and empty |
| PipelineHistory.RecordsWereAdmittedWhileCurrent | exporter/omnishard/mock_server.go:61-79 | every recorded request was compared, at a step of the run, with the configuration that was the server's current one then |
| PipelineHistory.RecordsAreInTheRightShard | exporter/omnishard/mock_server.go:61-91 | in every run each recorded request names a definition whose range holds the digest of each of its spans; it was in the server's configuration when the request was admitted and no other definition there holds them; count, key and data agree |
| PipelineAccounting.SpansAreConserved | exporter/omnishard/exporter.go:194-290 | in every run, shutdown included, the spans taken in are the disjoint sum of those queued, pending, in requests, waiting for retry, delivered, dropped, forgotten and in some goroutine's hands |
| PipelineHistory.ThreadForgets | exporter/omnishard/exporter.go:194-271 | a step forgets spans exactly in two places: a retried batch refused while stopping, and a reply with an unknown code |
| PipelineHistory.NothingIsForgottenBeforeStopping | exporter/omnishard/exporter.go:240-271 | before the encoder is stopping, with a server whose codes the client knows, nothing is ever forgotten |
| PipelineHistory.SpansAreAccountedForBeforeStopping | exporter/omnishard/exporter.go:194-290 | under those conditions every span taken in is in the pipeline, delivered, or dropped and counted |
| PipelineDrops.EveryDropHasCause | exporter/omnishard/exporter.go:213-290 | in every run each batch counted as dropped was dropped at a step with the cause of its code: 10000 batches waiting, a refusal by the server, a failed call without a delay, or spans for which an earlier step found no owner, a cut over the limit, or a failing marshal or compression |
| PipelineOrder.QueuesAreFirstInFirstOut | exporter/omnishard/encoder.go:209-224 | in every run what entered the input, client and retry queues is what left them followed by what waits, in order |
| PipelineBounds.RecordsAreBounded | exporter/omnishard/shard_encoder.go:286-295 | in every run each request queued or recorded is smaller than maxRecordSize + numWorkers * maxAllowedSizePerSpan, and no size counter wraps |
| PipelineAccounting.WaitGroupCountsBatches | exporter/omnishard/encoder.go:209-224 | the WaitGroup always equals blocked callers plus queued batches plus batches in workers' hands |
| PipelineAccounting.ZeroMeansDrained | exporter/omnishard/encoder.go:237-241 | when it is zero the queue is empty, no worker is inside a batch, and each span taken in is pending in an encoder, has been reported by one, or belongs to a batch not yet counted |
| PipelineAccounting.NoSpanIsRecordedTwice | exporter/omnishard/exporter.go:225-290 | with a server that asks for retries only of what it did not record, no run records a span more often than it was taken in |
| PipelineAccounting.DeliveredSpansWereRecorded | exporter/omnishard/exporter.go:245-247 | whatever the server answers, each delivered occurrence has a recording of its own |
| PipelineProgress.RunStaffed | exporter/omnishard/encoder.go:333-375 | in every run each encoder has one flusher, and workers, senders and the retry goroutine are there in full once started |
| PipelineProgress.UnfinishedWorkCanProceed | exporter/omnishard/exporter.go:213-221 | deadlock freedom: before shutdown, after a first valid configuration, unfinished work means that some thread with work can act or awaits a reply |
| PipelineProgress.UnsettledSpanCanProceed | exporter/omnishard/exporter.go:194-221 | the same for any span taken in and not yet settled |
| PipelineDrain.ThreadSinks | exporter/omnishard/encoder.go:411-449 | while the live encoders serve current shards no smooth step raises the rank, and each step that moves work lowers it, whatever stale work is left |
| PipelineDrain.MovingStepsAreBounded | exporter/omnishard/shard_encoder.go:164-225 | the phase lasts, and any run of it moves work at most as often as the rank it starts with |
| PipelineDrain.PipelineDrains | exporter/omnishard/exporter.go:240-271 | in any run of the phase work moves at most Rank times, nothing is forgotten, and while something is unsettled some thread with work can act or awaits a reply |
| PipelineDrain.PipelineEmpties | exporter/omnishard/exporter.go:194-271 | from any such state, with stale work left over, at most 2 * Rank steps empty the pipeline: every span is delivered, or dropped and counted, and none is forgotten on the way |
| PipelineOutcome.EveryScheduleEmpties | exporter/omnishard/exporter.go:194-271 | every schedule of the phase that no step, nor a tick and the step after it, can carry on moving work has emptied the pipeline: nothing left, everything settled, nothing forgotten, after at most Rank moves |
| PipelineOutcome.PipelineDelivers | exporter/omnishard/exporter.go:225-290 | with a server that may report success, at most 2 * Rank steps deliver every unsettled span, except those that no live encoder owns, whose cut is over the limit, or whose batch cannot be marshalled or compressed, those that found 10000 batches waiting, and batches whose failure or refusal was already in hand; every drop has its cause in the run |
| PipelineConvergence.ConvergesOrDies | exporter/omnishard/encoder.go:283-331 | from any running state, with an acceptable current configuration, the exporter and server by themselves reach a state that is empty, with live encoders or with exactly those of the current configuration, or one that is dead for good; if that configuration has a shard the two exclude each other |
| PipelineRecovery.JudgementIsDeadlyExactly | exporter/omnishard/encoder.go:311-326 | whenever an up exporter is about to apply a configuration, doing so leaves it dead for good if and only if it is rejected or has no shard, and no request, callback, call or pending request to change is under way |
| PipelineRecovery.UnusableFirstEndsDelivery | exporter/omnishard/exporter.go:138-167 | for every rejected or empty first configuration a run in which the exporter is up, the server has moved on to any other one, and nothing is recorded or delivered in any continuation; with the empty one the exporter is even running |
| PipelineRecovery.NeverDeadExactlyIfUsable | exporter/omnishard/encoder.go:311-326 | for a set of configurations that the server may be given, no run with configurations from it reaches an exporter that is up and dead for good if and only if each of them is accepted and has a shard |
| PipelineRecovery.RunningMeansAccepted | exporter/omnishard/encoder.go:311-326 | in every run workers have been started only if some configuration of the server is accepted |
| PipelineRecovery.Recovers | exporter/omnishard/encoder.go:283-331 | with accepted, non-empty configurations, from any running state the exporter and server by themselves reach an empty state with live encoders, never a dead one |
| PipelineCatchUp.CatchesUp | exporter/omnishard/exporter.go:258-268 | one span for a live shard that is missing from the server's current configuration leads to an empty state whose live encoders are exactly one for each of its shards, in order |
| PipelineCatchUp.DeliveryIsNeverLostExactlyIfUsable | exporter/omnishard/encoder.go:283-331 | for a set of configurations that the server may be given, the exporter can, from every state of every run in which it is up, still deliver another span with the configuration as it stands, if and only if each of them is accepted and has a shard |
| PipelineNotice.NewConfigurationIsNoticedExactly | exporter/omnishard/mock_server.go:61-67 | an exporter at rest is handed a configuration in some continuation if and only if one of its live shards is missing from the server's current one, whoever calls it |
| PipelineNotice.GrowthGoesUnnoticed | exporter/omnishard/mock_server.go:82-91 | for every configuration that has all definitions of the exporter's, a run after which the exporter keeps its old encoders in every continuation |
| PipelineConfiguration.NoWakeupIsLost | exporter/omnishard/encoder.go:283-331 | in every run configurations are taken in call order and the newest wins; with a request or stop outstanding the processor can act, is gone, or is about to be signalled |
| PipelineConfiguration.ConfigurationIsLostExactly | exporter/omnishard/encoder.go:192-200 | a configuration not taken so far is never taken in any continuation if and only if another call came after it or the processor was told to stop |
| PipelineConfiguration.ApplyingReplacesEncoders | exporter/omnishard/encoder.go:311-326 | all old encoders are stopped before a configuration is judged; accepted, exactly its shards get new empty encoders; rejected, no encoder is live |
| PipelineConfiguration.ConfigurationsAreNeverNil | exporter/omnishard/exporter.go:260-263 | if mismatches carry a configuration, SetConfig is never called with nil |
| PipelineConfiguration.DeadForGood | exporter/omnishard/encoder.go:340-351 | with no live encoder and nothing under way that could bring a configuration, nothing is recorded or delivered in any continuation, whoever calls and whatever the server does |
| PipelineConfiguration.ConfigurationsComeFromServer | exporter/omnishard/mock_server.go:61-67 | if mismatches are reported before recording, every configuration handed to the encoder is one the server has had, never nil, and each shard encoder ever started serves a shard of one of them |
| PipelineShutdown.ShutdownSignalsInOrder | exporter/omnishard/exporter.go:126-136 | in every run each signal of Shutdown and of the encoder's Stop is raised exactly when its turn has passed, and the encoders that the stopping loop has passed are stopped |
| PipelineStopFlush.StopFlushesEveryEncoder | exporter/omnishard/encoder.go:243-280 | in every run, once Stop is past its flush, each batch that was pending in a current encoder when the flush began has been taken and reported by a flush of that encoder since, and no goroutine of it is still flushing or reporting |
| PipelineStopFlush.StopStopsEveryEncoder | exporter/omnishard/encoder.go:249-250 | in every run, once Stop is past its stopping loop, every encoder there was when it began is stopped |
| PipelineStopFlush.StopWaitsExactly | exporter/omnishard/encoder.go:237-247 | Stop goes on before the flush if and only if it has timed out, or the queue is empty and no worker or counted caller holds a batch; after it, if and only if all goroutines of the flush are done |
| PipelineStopFlush.ShutdownSendsWhatIsPending | exporter/omnishard/encoder.go:243-250 | for any deliverable span a run in which it waits in its encoder when Shutdown begins and is queued as a record before the encoders are stopped |
| PipelineShutdown.DrainIsFinalExactly | exporter/omnishard/encoder.go:209-241 | after the drain wait saw zero the queue stays empty in every continuation if and only if no caller stands between the stopping check and the count |
| PipelineShutdown.BatchStrandedAfterShutdown | exporter/omnishard/encoder.go:209-263 | for any settings a run in which Shutdown has finished and a batch accepted without an error is left in the queue |
| PipelineDelivery.BootUp | exporter/omnishard/exporter.go:138-167 | with an acceptable configuration startup leads to a running exporter with one live, empty encoder per shard and its threads ready |
| PipelineLimits.RetryAfterRecordingDuplicates | exporter/omnishard/mock_server.go:69-77 | a run in which a span taken in once is recorded twice, for any server that may ask for a retry after recording |
| PipelineLimits.AtMostOnceExactlyIfHonest | exporter/omnishard/exporter.go:245-268 | at-most-once holds over all runs if and only if no reply to a recorded request asks for a retry |
| PipelineLimits.UnknownCodeForgets | exporter/omnishard/exporter.go:245-268 | a run that forgets a span before any shutdown, for any server that may answer with an unknown code |
| PipelineLimits.NothingForgottenExactlyIfCodesKnown | exporter/omnishard/exporter.go:245-268 | before stopping nothing is forgotten in any run if and only if the server answers recorded requests with known codes |
| PipelineLimits.RefusedRetryIsForgotten | exporter/omnishard/exporter.go:201-202 | for any server a run in which a throttled span is offered again while stopping and lost |
| PipelineLimits.NilMismatchErases | exporter/omnishard/encoder.go:192-200 | a run in which a nil mismatch erases a configuration that an earlier one had set |
| PipelineLimits.NothingErasedExactlyIfNilNever | exporter/omnishard/exporter.go:260-263 | no run erases a configuration by nil if and only if every mismatch after recording carries a configuration |
| PipelineLimits.UnusableConfigurationEndsDelivery | exporter/omnishard/encoder.go:311-316 | from live encoders a run judges any rejected or empty configuration that lacks the owner of some deliverable span; afterwards, with the server back at the old one and the exporter running, nothing is recorded or delivered in any continuation |
| PipelineLimits.RejectedConfigurationEndsDelivery | exporter/omnishard/encoder.go:311-316 | a rejected and an empty configuration of this kind exist for whatever can be delivered |
| OcTrace.LastNodeIsNewest | receiver/opencensusreceiver/octrace/opencensus.go:155-158 | the carried Node is the newest one set, however many messages ago |
| OcTrace.LastResourceIsNewest | receiver/opencensusreceiver/octrace/opencensus.go:160-164 | the same for the Resource |
| OcTrace.BatchesAreFromMessages | receiver/opencensusreceiver/octrace/opencensus.go:150-177 | each batch has a Node and is one message's own non-empty spans with the Node and Resource carried up to it |
| OcTrace.DeliveredIsPrefix | receiver/opencensusreceiver/octrace/opencensus.go:129-136 | deliveries are a prefix of the batches; the consumer accepted all but possibly the last, and delivery stops exactly at its first refusal |
| OcTrace.DeliveriesAreWellFormed | receiver/opencensusreceiver/octrace/opencensus.go:113-136 | whatever the stream and the consumer, no delivery lacks a Node or spans |
| OcTrace.EndIsErrorBeforeFirstMessage | receiver/opencensusreceiver/octrace/opencensus.go:113-147 | the end of the stream is the end-of-stream error if and only if no message came, and a success if and only if one with a Node came first and no refusal is passed on |
| OcTrace.FirstErrorExactly | receiver/opencensusreceiver/octrace/opencensus.go:129-136 | the error of a stream is that of the first batch the consumer turns down, and none if it takes them all |
| OcTrace.StreamResultExactly | receiver/opencensusreceiver/octrace/opencensus.go:113-147 | the result in every case: end or error before the first message, a first message without a Node, a refusal with and without back pressure, end or error after messages that were all accepted |
| OcTrace.Receiver.SendToNextConsumer | receiver/opencensusreceiver/octrace/opencensus.go:179-219 | empty batches are skipped, others handed over and the consumer's answer returned |
| OcTrace.Receiver.ProcessReceivedMsg | receiver/opencensusreceiver/octrace/opencensus.go:150-177 | the carried values and the delivery of one message |
| OcTrace.Receiver.ForwardMessages | receiver/opencensusreceiver/octrace/opencensus.go:124-147 | the loop delivers exactly the specified prefix and returns the first refusal |
| OcTrace.Receiver.ExportStream | receiver/opencensusreceiver/octrace/opencensus.go:113-147 | deliveries and result of a whole stream: first-message rule, back pressure, end of stream and receive errors |
| OcTrace.Receiver.Export | receiver/opencensusreceiver/octrace/opencensus.go:100-147 | the gate, the stream and the deferred decrement of one call |
| OcTrace.Receiver.ExportOne | receiver/opencensusreceiver/octrace/opencensus.go:77-96 | a Node is required; otherwise like a one-message stream |
| OcTrace.StreamsNeverExceedMax | receiver/opencensusreceiver/octrace/opencensus.go:101-108 | for any interleaving of calls the counter is the number of calls between increment and decrement, and streams past the gate never exceed the maximum |
| OcTrace.TurnedAwayExactly | receiver/opencensusreceiver/octrace/opencensus.go:101-108 | in every run a call counts itself among those inside, and is turned away if and only if that count exceeds the maximum |
| OcTrace.MaxStreamsFit | receiver/opencensusreceiver/octrace/opencensus.go:101-108 | a run with as many streams inside as the maximum allows |

## Left out

- ShardEncoding.ShardEncoder.Encode: one caller at a time; any number of callers are covered by ShardEncoderLocking and Pipeline, where spans are values and the in-place cut is a change of the span in one thread's hands, as conservation proves no other place holds it.
- Encoding.Encoder.EncodeSpans: does not block; a caller that waits for room is a thread of Pipeline.
- Encoding.Encoder.ProcessSpanBatch: one worker at a time; several workers are threads of Pipeline.
- Exporting.ClientUnary.Send: returns instead of blocking on a full queue; a blocked sender is a thread of Pipeline.
- Exporting.ClientUnary.Connect: the senders it starts are threads of Pipeline; dialling is a choice of the environment.
- Exporting.ClientUnary.HandleReply: a RetryInfo without a delay, on which the source would fail, is not modelled.
- EvenPartition.CreateTestShardConfig: requires at least one shard; with none the source fails on its final check.
- ShardingConfig.SortShards: Go's sort algorithm is replaced by another in-place sort over the same Less and Swap; only order and permutation are used.
- PipelineDrain.PipelineEmpties: constructs the steps that empty the pipeline; that the scheduler takes them is not modelled.
- PipelineConvergence.ConvergesOrDies: with a rejected or empty configuration in the server's past it does not say for every state which of the two ends can be reached; JudgementIsDeadlyExactly says it for a state about to judge, and Recovers, with all of them usable, leaves only the good end.
- The endless goroutine loops (processQueuedSpans, processConfigChanges, flushPeriodically, processSendRequests, processRetryQueue) are steps of the state machine, not methods.
- After encoder.Stop or Exporter.Shutdown nothing is claimed to be stopped or empty beyond DrainIsFinalExactly, StopFlushesEveryEncoder and StopStopsEveryEncoder: configuration changes and callers can race with them, and start encoders or append spans after the flush.
- newEncoder's replacement of zero options by defaults: Settings are the options afterwards.
- connectAndGetConfig may succeed or fail at any point; cancellation by the done channel is one way to fail.
- gRPC dialling, headers, TLS, HTTP serving; the compressed magic header; the translation of OpenCensus spans to Jaeger.
- hooks.go and telemetry.go: only the dropped spans by reason are kept.
- Real time: flush interval, drain timeout and retry delays.
- Factories, configuration files, memorymonitor, telemetryextension, opencensusexporter, version, ptime and generated code.
