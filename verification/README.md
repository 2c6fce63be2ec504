# Verified models of the telemetry pipeline

Telemetry enters through the endpoint, is grouped by the batcher, and is anchored on chain by the
blockchain anchor; between them lie Kafka topics, a Redis nonce store and a Substrate node. What the
pipeline promises holds under every interleaving, failure and crash, so each service is modelled
twice over:

- as a **state machine** whose steps are the stretches of code between two awaits. An event carries
  the outcome of the await it resumes (a failing send may have landed any of its messages, a failing
  commit may have landed, a crash may come anywhere); an event the state does not allow changes
  nothing. Safety is proved over all runs.
- as a **class** whose methods are the program's own code, each proved to do to the state what the
  machine does, so what holds of the machine's runs holds of the code.

| file | what it models |
|---|---|
| `Common.dfy` | options, bytes, injectivity, the pigeonhole principle |
| `PayloadBuilder.dfy` | `fitBatch`: recursive halving over an arbitrary compressor |
| `BatchId.dfy` | batch fingerprints |
| `BatchFlusher.dfy` | the single-flight buffer |
| `Batcher.dfy` | the batcher as a machine over Kafka |
| `BatcherSafety.dfy`, `BatcherCounters.dfy` | no loss, conservation, soundness of what is published; counters |
| `BatcherContents.dfy` | what is published and rejected, in terms of the records that were read |
| `BatcherSchedule.dfy` | when a flush starts, when nothing is scheduled, and how a stop ends |
| `BatcherProgress.dfy`, `BatcherPinned.dfy` | when a flush succeeds, and when it never does |
| `BatcherRetry.dfy`, `BatcherIdentity.dfy` | what a retry publishes, also after a drain that failed, and which identifiers survive it |
| `BatcherService.dfy` | the batcher's run loop and flush handler, and the service through any history |
| `Anchor.dfy`, `AnchorSafety.dfy`, `AnchorOnce.dfy` | the anchor as a machine over Kafka and one on-chain cell; nothing missing; exactly once |
| `AnchorService.dfy` | the anchor's loop, one message after the other |
| `AnchorLimits.dfy`, `AnchorReplays.dfy` | where the anchor's guarantees end: the exact conditions, and the runs that fail without them |
| `Pipeline.dfy` | batcher and anchor joined by the topic between them |
| `NonceStore.dfy`, `Endpoint.dfy`, `EndpointService.dfy` | nonce keys and claims; many instances against one store; the request handler |
| `LruCache.dfy`, `CpsAuth.dfy` | the bounded cache; the parent walk and the cached, coalesced authenticator |
| `Connectivity.dfy` | debounced pausing |
| `Heartbeat.dfy` | the heartbeat script and the metrics report |

`dafny verify dfyconfig.toml` checks the whole project.

## What is assumed

- Hashes, serialization and compression are arbitrary functions. A lemma that needs a hash to be
  collision-free says `Injective`.
- Kafka hands out each partition in increasing offset order, and a restarted consumer resumes from
  the committed offsets. The `consume` calls name no start mode; the resumption is what the comments
  of both services rely on (services/blockchain-anchor/src/index.ts:571-577).
- A send or commit that a crash interrupts lands before the restart or not at all.
- When a flush settles, those awaiting it resume in the same step, as microtasks do.
- Timers fire at or after their deadline.
- The chain has no forks. `getAnchoredPayload` reads the best head
  (services/blockchain-anchor/src/index.ts:94), whose extrinsics a reorganisation may retract; in the
  model what was written stays in `history`, and a read shows its last value.
- `reportsFailure` says that the chain's metadata names `ExtrinsicFailed`; without it the anchor
  takes a failed extrinsic for a successful one (services/blockchain-anchor/src/index.ts:250-254).
  The lemmas about the anchor ask that a run's failures are noticed: always so if it is set, and
  otherwise for the runs in which no extrinsic fails unnoticed. `AnchorLimits` shows that it is
  needed.
- A record below a committed offset of the anchor has its payload on chain "at some time": the cell
  holds one value, and `history` is every value it has held.

## Where the code and its documentation differ

- services/blockchain-anchor/README.md:33 describes a byte-for-byte comparison with the on-chain
  payload. The code compares its blake2 hash with the record's `payloadHash`
  (services/blockchain-anchor/src/index.ts:126-132), and so does the model; with a collision-free
  hash and honest records the two agree (`AnchorSafety.HashesCompareBytes`).
- services/batcher/src/index.ts:100-105 says that a retried batch keeps its id. A failed batch is
  re-attached in front of newer items, and the id is computed for each sub-batch of the fit
  (services/batcher/src/index.ts:254-255). A sub-batch keeps its id exactly if halving the merged
  batch comes to the same segment again (`BatcherIdentity.IdSurvivesTheRetryExactly`); a batch that
  fits whole, exactly if the front of the merged batch is halved down to it
  (`BatcherIdentity.WholeBatchKeepsItsIdExactly`). That is so if no valid record came, and may be so
  if one did (`BatcherIdentity.IdSurvivesASplit`); `BatcherRetry.RetryChangesTheId` is a run in which
  it is not.
- services/batcher/src/index.ts:246-253 says that publishing landed sub-batches again is a no-op for
  the anchor. The anchor compares with the last value of the cell only, so what a failed attempt has
  landed ahead of its retry is without effect exactly if it repeats what the cell showed before, and
  then the first payload of the retry (`Pipeline.RetryIsAnchoredAgain`); if everything had landed and
  nothing new came, exactly if the sub-batches all have the same payload
  (`AnchorReplays.AgainOnlyIfAllTheSame`).
- services/batcher/src/index.ts:620-621 says that a graceful shutdown leaves no buffered work
  uncommitted. `stop` closes the consumer first (services/batcher/src/index.ts:668-672), so the
  commit of the drain may fail; `BatcherRetry.FailedDrainIsReadAgain` says what a restart then reads
  again, and `BatcherSafety.DrainLeavesNothing` is about a drain whose commit succeeds.
- services/batcher/README.md:30-32 says that a full buffer is flushed, and a partial one by the timer.
  A flush request that comes while another runs joins that one
  (services/batcher/src/batch-flusher.ts:76-80) and arms no timer when it succeeds
  (services/batcher/src/index.ts:469-481), so what came meanwhile waits for the next record, even if the
  buffer is full. `BatcherSchedule.StrandsExactlyAfterAJoin` says exactly when,
  `BatcherSchedule.ARecordIsStranded` is such a run for every two records that parse.
- services/batcher/src/payload-builder.ts:64-74 calls `oversized` the events that do not fit on
  their own. A segment may fit although one of its events alone does not; `fitBatch` then publishes
  it (`PayloadBuilder.SegmentMayHideItsEvents`). `PayloadBuilder.OversizedIsExactUnlessHidden` says
  exactly when the description holds.

## Model

| member | source | states |
|---|---|---|
| PayloadBuilder.FitBatchPartitions | services/batcher/src/payload-builder.ts:115-165 | the input is cut into contiguous segments in order, each one fitted batch or one oversized event, whose concatenation is the input; the outcome lists exactly those; each payload is the compression of its own segment, within the limit, with its sizes and hash; each oversized event alone exceeds the limit |
| PayloadBuilder.FitBatchKeepsEveryEvent | services/batcher/src/payload-builder.ts:112-113 | every event is in a payload or reported oversized, and nothing else is |
| PayloadBuilder.FitBatchInBytes | services/batcher/src/payload-builder.ts:87-153 | each published payload compresses the serialized envelopes of its own events, in order, within the limit, with its sizes and hash; each rejected event's envelope alone compresses to more than the limit |
| PayloadBuilder.WholeExactlyIfItFits | services/batcher/src/payload-builder.ts:125-153 | a batch is published as a whole exactly if it is not empty and its compressed envelopes are within the limit |
| PayloadBuilder.OversizedIsExact | services/batcher/src/payload-builder.ts:125-164 | the report is exactly the events that do not fit alone, in input order, if and only if no payload carries one of them |
| PayloadBuilder.OversizedIsExactUnlessHidden | services/batcher/src/payload-builder.ts:125-164 | the same, decided on the input: if and only if no segment of the halving fits although one of its events alone does not |
| PayloadBuilder.SegmentMayHideItsEvents | services/batcher/src/payload-builder.ts:64-75 | for every limit, every serializer and any two events that it tells from their batch, there is a lossless (injective) compressor with which the two fit together, neither fits alone, and the report is empty |
| PayloadBuilder.OversizedIsExactWhenPartsFit | services/batcher/src/payload-builder.ts:125-164 | it is exact for every input when all sub-segments of fitting segments fit |
| PayloadBuilder.FitBatchCost | services/batcher/src/payload-builder.ts:155-164 | for n >= 1: depth at most ceil(log2 n), at most 2n-1 calls, at most n*(ceil(log2 n)+1) events serialized; the counted recursion returns the same outcome |
| PayloadBuilder.CeilLog2IsLeast | services/batcher/src/payload-builder.ts:155 | the logarithm in the bound is the least exponent whose power of two reaches n |
| BatchId.SortedFormIsUnique | services/batcher/src/index.ts:109 | two sorted arrangements of the same strings are equal |
| BatchId.RenderInjective | services/batcher/src/index.ts:108 | the decimal `partition:offset` rendering determines both numbers |
| BatchId.JoinInjective | services/batcher/src/index.ts:110 | joining by a separator that occurs in no part can be undone |
| BatchId.SortedAsStrings | services/batcher/src/index.ts:106-112 | the parts are sorted as strings and joined by a bar: offset 10 before offset 9 |
| BatchId.FingerprintIdentifiesSources | services/batcher/src/index.ts:106-112 | equal fingerprints exactly for equal multisets of (partition, offset), in any order |
| BatchId.BatchIdIdentifiesSources | services/batcher/src/index.ts:106-112 | the same for the digest, if it is collision-free |
| BatchId.MoreSourcesChangeTheId | services/batcher/src/index.ts:106-112 | the id of one batch and that of the same batch with further records are equal exactly if there are none; what this means for retries is in `BatcherIdentity` |
| BatchFlushing.RunConserves | services/batcher/src/batch-flusher.ts:63-106 | under every interleaving of adds, flush requests and outcomes: handled ++ in flight ++ pending is the sequence of added items; at most one handler runs, never on an empty batch |
| BatchFlushing.BatchFlusher.Add | services/batcher/src/batch-flusher.ts:67-69 | appends to the pending items |
| BatchFlushing.BatchFlusher.Size | services/batcher/src/batch-flusher.ts:70-72 | counts the pending items only |
| BatchFlushing.BatchFlusher.IsFlushing | services/batcher/src/batch-flusher.ts:73-75 | whether a handler runs |
| BatchFlushing.BatchFlusher.Flush | services/batcher/src/batch-flusher.ts:76-105 | joins the running flush, does nothing on an empty buffer, else detaches all pending items before the handler starts |
| BatchFlushing.BatchFlusher.Settle | services/batcher/src/batch-flusher.ts:92-101 | on success the batch is handled; on failure it is pending again, ahead of what came meanwhile |
| BatcherSafety.NoRecordIsLost | services/batcher/src/index.ts:408-466 | in every reachable state each authorized or unparseable record below a committed offset is in a batched message or in the DLQ |
| BatcherSafety.CommittedNeverDecreases | services/batcher/src/index.ts:435-444 | no committed offset moves back, over any continuation of any run, restarts included |
| BatcherSafety.BufferIsConserved | services/batcher/src/batch-flusher.ts:63-106 | in every reachable state of the service the buffer holds, in order, all that was added and not handled |
| BatcherSafety.DrainLeavesNothing | services/batcher/src/index.ts:613-635 | if the drain's last flush succeeds everything added is handled, nothing is pending, and each partition's commit is the highest offset added |
| BatcherSafety.PublishedMessagesAreSound | services/batcher/src/index.ts:254-286 | every message ever landed is a fitted batch as the payload builder yields it, within the limit |
| BatcherContents.WhatIsWrittenIsRead | services/batcher/src/index.ts:565-607 | in every reachable state each published payload is the compression of the serialized envelopes of the authorized records that its events name by partition and offset, in order; each dead letter has the raw bytes, partition and offset of a record that does not parse, whose sensor id does not format, or whose envelope alone exceeds the limit |
| BatcherContents.PublishedIdsNameTheirEvents | services/batcher/src/index.ts:106-112 | each published id is the digest of the fingerprint of its own events' partitions and offsets |
| BatcherContents.PublishedInReadingOrder | services/batcher/src/index.ts:254-286 | within each published payload the events of a partition stand in the order of their records, none twice |
| BatcherContents.RecordsAreDelivered | services/batcher/src/index.ts:408-466 | each authorized or unparseable record below a committed offset has its raw bytes in the DLQ, or its envelope in a published payload |
| BatcherSchedule.FlushesExactlyWhenFull | services/batcher/src/index.ts:500-506 | a record that is not skipped has the buffer flushed exactly if it then holds batchSize items or more, else the lag asked for |
| BatcherSchedule.LagDecides | services/batcher/src/index.ts:507-527 | a lag of batchSize or more has the buffer flushed, a smaller one a timer set for what is pending |
| BatcherSchedule.TimerDecides | services/batcher/src/index.ts:483-496 | a timer fires once; if something is pending a flush runs |
| BatcherSchedule.StrandsExactlyAfterAJoin | services/batcher/src/index.ts:469-481 | in every reachable state, items come to wait without a timer or a flush exactly when a running flush succeeds over pending items without a timer |
| BatcherSchedule.StrandedUntilTheNextRecord | services/batcher/src/index.ts:469-527 | there they stay until a record that is not skipped, a stop, the end of the stream or a crash |
| BatcherSchedule.ARecordIsStranded | services/batcher/src/index.ts:483-496 | for every two records that parse there is a run without failures in which the second one is left so |
| BatcherSchedule.StartResumes | services/batcher/src/index.ts:381-400 | a start of a process that is down reads from the committed offsets with an empty buffer |
| BatcherSchedule.StopLeavesTheLoop | services/batcher/src/index.ts:531-535 | after a stop the next message is not taken; the loop drains with its buffer as it was |
| BatcherSchedule.StopEndsQuietly | services/batcher/src/index.ts:613-635 | from there on, over every run, no message is taken, no timer set, and once the drain is over no flush runs |
| BatcherSafety.RunIsGood | services/batcher/src/index.ts:405-636 | the invariant behind these, over all runs: what each await of the handler finds durable, committed offsets between handled and in-flight, records read before they are committed |
| BatcherSafety.StepKeeps | services/batcher/src/index.ts:405-636 | one step keeps that invariant and lowers no committed offset |
| BatcherSafety.CommitKeeps | services/batcher/src/index.ts:435-444 | a commit that lands for any subset of the partitions keeps the invariant |
| BatcherCounters.CountersAddUp | services/batcher/src/index.ts:225-303 | consumed counts the valid items added; every valid item handled is counted as batched or oversized |
| BatcherCounters.FitAddsUp | services/batcher/src/index.ts:288-290 | the events of the fitted batches and the oversized ones number the events fitted |
| BatcherProgress.FlushAdvances | services/batcher/src/index.ts:424-444 | from any state with a detached batch whose sensor ids format, over every run without a crash in which the awaits of this flush succeed, in any company of consumer, timer and topic events and however messages are placed: the batch is handled, or still in flight with each answer having brought it nearer; five answers always suffice |
| BatcherProgress.SuccessfulFlushCommits | services/batcher/src/index.ts:432-444 | from any reachable state such a flush has its batch handled next and every item of it below its partition's committed offset |
| BatcherProgress.SmoothFlushSucceeds | services/batcher/src/index.ts:424-444 | such a run always exists: it handles the batch and commits its highest offset for each partition in it |
| BatcherProgress.SendsPublish | services/batcher/src/index.ts:224-303 | when no send fails the whole fit is published before the commit, in order, and the counters for batches, events, splits and oversized events move by exactly what was fitted |
| BatcherProgress.FailuresAreCounted | services/batcher/src/index.ts:224-309 | a failed fit, oversized send or batched send counts as a failure to produce; a failed poison send or commit does not |
| BatcherPinned.UnformattableIsNeverHandled | services/batcher/src/index.ts:207-209 | by no schedule is a batch handled that holds a valid record whose sensor id does not format |
| BatcherPinned.PartitionIsPinned | services/batcher/src/index.ts:207-209 | in every reachable state no committed offset has passed an authorized record whose sensor id does not format, across restarts |
| BatcherRetry.RetryChangesTheId | services/batcher/src/index.ts:100-105 | for every two records that fit together: a run in which the first is published, its commit fails, the second is delivered meanwhile, and the next flush publishes both under another id |
| BatcherRetry.SameFitOnlyWithoutNewItems | services/batcher/src/index.ts:424-430 | a retry fits its batch as before exactly if it took in no further valid items |
| BatcherRetry.RetryStartsOver | services/batcher/src/index.ts:463-496 | a send that fails after any of its messages have landed, or a commit that fails, has the batch detached again with what came meanwhile, by the drain or by the re-armed timer, with the messages that landed published and nothing committed |
| BatcherRetry.RetriesUnlessEnding | services/batcher/src/index.ts:469-481 | in every reachable state only a stop or the drain's own flush keep a failed flush from being retried |
| BatcherRetry.RetryPublishesAgain | services/batcher/src/index.ts:246-253 | a retry that succeeds publishes the fit of the batch and what came meanwhile behind whatever the failed attempt has landed, be it any part of a send or all of it before a failed commit |
| BatcherRetry.FailedDrainIsReadAgain | services/batcher/src/index.ts:613-672 | when the commit of the drain's flush fails its batch is published or in the DLQ already; a restart reads again, of the records read before, only records of that batch, and exactly those above the committed offset of a partition for which the commit did not land |
| BatcherIdentity.IdSurvivesTheRetryExactly | services/batcher/src/index.ts:254-255 | in every reachable state, a message of a batch has its id among those of the batch merged with later items exactly if the halving of all valid items comes to the same segment; then the message itself is repeated |
| BatcherIdentity.WholeBatchKeepsItsIdExactly | services/batcher/src/index.ts:100-112 | a batch that fits whole keeps its id exactly if repeated halving of the merged batch's front comes to its length and no longer prefix on the way fits |
| BatcherIdentity.IdSurvivesASplit | services/batcher/src/index.ts:254-255 | two items that do not fit together: the message of the first is repeated, and if the second does not fit alone so is the whole list |
| BatcherIdentity.SegmentIsPublishedExactly | services/batcher/src/payload-builder.ts:131-164 | over distinct sources, a fit publishes the sources of a segment as one batch exactly if the halving comes to that very segment |
| BatcherIdentity.AddedOnce | services/batcher/src/index.ts:565-578 | in every reachable state the valid items of a process stem from distinct (partition, offset) pairs |
| BatcherService.OffsetsByPartition | services/batcher/src/index.ts:411-417 | the map has exactly the partitions of the batch, each with its highest offset |
| BatcherService.Operate | services/batcher/src/index.ts:381-636 | the service's code, driven through any history from first deployment, each crash followed by a new process over what Kafka has kept, reaches the state of the machine's run, so no record below a committed offset is lost |
| BatcherService.BatcherService.Handle | services/batcher/src/index.ts:405-636 | the code that any one event has run does what the machine's step does |
| BatcherService.BatcherService.constructor | services/batcher/src/index.ts:364-376 | a process that has not started over untouched topics |
| BatcherService.BatcherService.Restart | services/batcher/src/index.ts:398-409 | a new process over given Kafka state: it resumes from the committed offsets with an empty buffer and zero counters |
| BatcherService.BatcherService.Start | services/batcher/src/index.ts:381-400 | starts reading, with any earlier request to stop forgotten; skipped if started |
| BatcherService.BatcherService.Buffer | services/batcher/src/index.ts:537-608 | what a record adds to the buffer and to the consumed counter, and whether it is relevant |
| BatcherService.BatcherService.Release | services/batcher/src/index.ts:476-480 | the outcome goes to the buffer; after a failure the timer is re-armed if a flushBatch waits, the service runs and something is pending |
| BatcherService.BatcherService.CountProduced | services/batcher/src/index.ts:288-299 | the loop adds the number of batches and of their events |
| AnchorSafety.NothingCommittedIsMissing | services/blockchain-anchor/src/index.ts:457-577 | over any partitions and any failures that are noticed, failing chain reads included: each batched record below a committed offset has been the on-chain payload, or is in the DLQ if too large |
| AnchorSafety.ReportedFailuresAreNoticed | services/blockchain-anchor/src/index.ts:250-281 | if the metadata names ExtrinsicFailed, every run notices its failures |
| AnchorLimits.UnnoticedFailureLosesThePayload | services/blockchain-anchor/src/index.ts:250-254 | without it, a run commits past a record whose extrinsic failed and whose payload was never on chain |
| AnchorLimits.SafeExactlyWhenFailuresAreReported | services/blockchain-anchor/src/index.ts:250-281 | over all honest topics and all runs nothing committed is missing, if and only if the metadata names ExtrinsicFailed |
| AnchorSafety.HashesCompareBytes | services/blockchain-anchor/src/index.ts:116-132 | with a collision-free digest, the comparison with a record's honest hash is the comparison with its payload |
| AnchorSafety.StepKeeps | services/blockchain-anchor/src/index.ts:399-579 | one step that notices its failure keeps the invariant and lowers no committed offset |
| AnchorSafety.CountersAddUp | services/blockchain-anchor/src/index.ts:345-351 | over any life of a service object, stops and further starts included: consumed is anchored + skipped + rejected, plus the one being worked on, plus at most as many as failed |
| AnchorSafety.RunIsFromTopic | services/blockchain-anchor/src/index.ts:399-579 | over every run, only in-limit payloads of the topic are ever written to the cell or may yet be, and only oversized records, with their own positions, are in the DLQ |
| AnchorSafety.SettlesWhatWasLeft | services/blockchain-anchor/src/index.ts:564-577 | a submission left to the chain is settled once, by its own payload |
| AnchorSafety.WritesAreCounted | services/blockchain-anchor/src/index.ts:529-568 | while a service object lives, writes and submissions that may still be written are at most those counted as anchored or failed |
| AnchorSafety.AnchoredWasWritten | services/blockchain-anchor/src/index.ts:529-537 | since the counters were at zero, the chain has written at least as many values as are counted as anchored, if failures are noticed |
| AnchorOnce.ExactlyOnce | services/blockchain-anchor/src/index.ts:399-579 | one partition, one writer, successful reads, failures noticed, submissions settled before the next start: the history of the cell is always a prefix of the initial value followed by the in-limit payloads, adjacent repeats collapsed; all of it once everything is committed |
| AnchorOnce.HistoryFollowsTopic | services/blockchain-anchor/src/index.ts:399-579 | the same up to adjacent repeats when chain reads may fail |
| AnchorLimits.TwoPartitionsAnchorTwice | services/blockchain-anchor/src/index.ts:513-516 | on every topic whose first two partitions start with different in-limit payloads a and b, a crash before the first commit has a, b, a written, although reads succeed and starts are settled |
| AnchorLimits.OnceExactlyOnOnePartition | services/blockchain-anchor/src/index.ts:399-579 | over all topics of n partitions and all such schedules no payload is written more often than it occurs, if and only if n is at most one |
| AnchorReplays.UnsettledSubmissionsAreHarmlessOnlyForOneChange | services/blockchain-anchor/src/index.ts:564-577 | for every topic of one partition: with submissions that may outlive their process the history follows the topic in every run with successful reads, if and only if the topic changes the cell at most once |
| AnchorReplays.LateSubmissionBreaksOrder | services/blockchain-anchor/src/index.ts:564-577 | if a record brings a payload that is overwritten later, there is such a run that breaks the order |
| AnchorReplays.FailingReadsAreHarmlessOnlyIfNothingIsWritten | services/blockchain-anchor/src/index.ts:107-113 | for every topic of one partition: when reads may fail the literal history is a prefix of the collapsed topic in every run with settled starts, if and only if nothing in the topic is within the limit |
| AnchorReplays.FailingReadsRepeat | services/blockchain-anchor/src/index.ts:107-113 | otherwise there is a run that writes the same payload twice in a row |
| AnchorReplays.SmoothRun | services/blockchain-anchor/src/index.ts:399-579 | a running service can work the partition off up to any offset, and shows its payloads in order |
| AnchorLimits.AnchorNextWrites | services/blockchain-anchor/src/index.ts:508-545 | without failures the next payload is read, submitted and confirmed, and is appended to the history |
| AnchorService.ResolvesExactlyWhenFinalized | services/blockchain-anchor/src/index.ts:220-307 | the promise resolves exactly when the first decisive status is a finalization that was applied, or whose failure the metadata cannot name |
| AnchorService.PassIsRun | services/blockchain-anchor/src/index.ts:399-579 | one pass of the loop, over every outcome of its awaits, is a run of the machine |
| AnchorService.PassIsSpecified | services/blockchain-anchor/src/index.ts:399-579 | what one pass does to cursor, commit, DLQ, cell, open submissions, counters and the loop, for each kind of record and each outcome |
| AnchorService.BytesEqual | services/blockchain-anchor/src/index.ts:134-144 | true exactly for equal byte strings |
| AnchorService.AnchorService.constructor | services/blockchain-anchor/src/index.ts:338-351 | a stopped service with zero counters |
| AnchorService.AnchorService.Start | services/blockchain-anchor/src/index.ts:356-397 | resumes from the committed offsets, with the counters of the service going on; skipped if running |
| AnchorService.AnchorService.GetAnchoredPayload | services/blockchain-anchor/src/index.ts:85-114 | the cell's value; a failed read looks like an empty cell |
| AnchorService.AnchorService.PublishOversizedToDlq | services/blockchain-anchor/src/index.ts:154-183 | the record and its position reach the DLQ if the send landed |
| AnchorService.AnchorService.SendSetPayloadExtrinsic | services/blockchain-anchor/src/index.ts:191-308 | the outcome is that of the promise over the stream of status updates; the payload is written if applied, left in limbo if undecided |
| AnchorService.AnchorService.Commit | services/blockchain-anchor/src/index.ts:549-558 | one past the record's offset; a failure ends the loop, counted inside the try block |
| AnchorService.AnchorService.AnchorBatch | services/blockchain-anchor/src/index.ts:500-578 | read, compare, submit unless anchored, commit; anything thrown is counted and ends the loop |
| AnchorService.AnchorService.RejectOversized | services/blockchain-anchor/src/index.ts:457-490 | counted, forwarded to the DLQ, and committed past only once that is confirmed |
| AnchorService.AnchorService.ProcessMessage | services/blockchain-anchor/src/index.ts:399-579 | one pass of the loop in full |
| AnchorService.AnchorService.ConsumeStream | services/blockchain-anchor/src/index.ts:399-584 | the loop over any stream of deliveries, until a stop or a failure, is a run of the machine |
| Pipeline.TopicIsShared | services/batcher/src/index.ts:280-285 | the anchor's topic is what the batcher has landed, and all of it is sound |
| Pipeline.TopicIsHonest | services/batcher/src/index.ts:257-265 | every record the batcher publishes carries the digest of its payload |
| Pipeline.AnchorIsSafe | services/blockchain-anchor/src/index.ts:457-577 | the anchor's invariant on whatever the batcher publishes, if failures are noticed: each record below its committed offset has been on chain or is in the DLQ |
| Pipeline.OversizeBranchIsDead | services/blockchain-anchor/src/index.ts:449-490 | if the batcher's limit is at most the anchor's, the oversize branch is never taken, whatever the digests and the chain |
| Pipeline.EveryRecordReachesTheChain | services/batcher/src/index.ts:408-466 | each authorized or unparseable record below the batcher's committed offset has its raw bytes in the DLQ, or is authorized and has its envelope among those of a published message; once the anchor has committed past that message, their compressed serialization has been on chain, if failures are noticed |
| Pipeline.AnchorCatchesUp | services/blockchain-anchor/src/index.ts:399-579 | whatever the batcher has published on one partition, the anchor can put on chain, in order |
| Pipeline.RetryIsAnchoredAgain | services/batcher/src/index.ts:246-253 | after any run on one partition of the batched topic, a flush that fails with any of its messages landed and whose retry succeeds has a run in which all of it is anchored; the cell goes through the values it would have without the failed attempt exactly if what landed repeats the value before it and then the first payload of the retry |
| AnchorReplays.VanishesExactlyIfAbsorbed | services/blockchain-anchor/src/index.ts:116-132 | for any history and any values after them, values anchored in between leave the collapsed history as it was exactly if they repeat the value before and then the first value after |
| AnchorReplays.AgainOnlyIfAllTheSame | services/batcher/src/index.ts:249-253 | anchoring a list of payloads a second time leaves the collapsed history as it was exactly if they are all the same |
| NonceStore.LengthPrefixed | packages/infra/src/nonce-store.ts:97-101 | four big-endian length bytes, then the bytes; a length of 2^32 or more throws |
| NonceStore.BigEndianInjective | packages/infra/src/nonce-store.ts:98-99 | lengths that fit are told apart by their bytes |
| NonceStore.PreimageInjective | packages/infra/src/nonce-store.ts:113-117 | the hash input determines sensor and nonce |
| NonceStore.KeysMeetExactlyOnEqualPairs | packages/infra/src/nonce-store.ts:108-119 | with a collision-free hash, two claims under one prefix contend for a key exactly when sensor and nonce are equal |
| NonceStore.PrefixesKeepApart | packages/infra/src/nonce-store.ts:108-119 | with digests of one length, keys meet exactly if prefix, sensor and nonce are all equal |
| NonceStore.PreimageLayout | packages/infra/src/nonce-store.ts:97-117 | where tag, lengths, sensor and nonce lie in the hash input |
| NonceStore.RedisNonceStore.Claim | packages/infra/src/nonce-store.ts:135-155 | claimed if the key was free or expired, duplicate if held, unavailable if the reply was lost; the key is set for the TTL exactly if the command ran on a free key |
| Endpoint.EnvelopeClaimedAtMostOnce | packages/infra/src/nonce-store.ts:47-95 | with an accepted TTL, over all instances and all time: a second claim of the same envelope is never within the margin of its check, whatever other requests did |
| Endpoint.NonceLengthTellsPartsApart | packages/core/src/utils.ts:49-53 | two well-sized envelopes under one signature agree in sensor, and agree in nonce and message exactly if their nonces are equally long |
| Endpoint.SignatureFitsAnotherEnvelope | packages/core/src/utils.ts:49-53 | a signature fits a second well-sized envelope exactly if the nonce or the message can give a byte to the other |
| Endpoint.SignatureClaimedAtMostSeventeenTimes | packages/core/src/utils.ts:72-79 | claims under one signature, each timely for its own envelope, number at most 17, one for each nonce length |
| Endpoint.MarginIsTight | packages/infra/src/nonce-store.ts:26-54 | with the smallest accepted TTL and a delay of exactly the margin the same envelope is claimed twice |
| Endpoint.AttemptsAreTtlApart | services/endpoint/src/index.ts:286-334 | for one (sensor, nonce) pair, any two publish attempts rest on claims at least one TTL apart |
| Endpoint.ClaimLosesExactlyWhileClaimed | packages/infra/src/nonce-store.ts:135-155 | over every run, with a collision-free hash, a claim that runs loses exactly if a claim of the same sensor and nonce is less than a TTL old, and otherwise wins |
| Endpoint.ConflictMeansClaimed | services/endpoint/src/index.ts:313-331 | over every run, whoever is answered 409 had its claim run while one of its own sensor and nonce was less than a TTL old |
| Endpoint.AnswersHaveTheirCause | services/endpoint/src/index.ts:198-348 | for each status, the one or few ways in which a request comes to be answered with it, and that the answer stays |
| Endpoint.PublishNeedsClaim | services/endpoint/src/index.ts:289-334 | each publish attempt rests on the one claim that its own request won |
| EndpointService.HandlerIsRun | services/endpoint/src/index.ts:198-348 | the handler's answer and its effect on the store are those of a run of the machine |
| EndpointService.StatusIsSpecified | services/endpoint/src/index.ts:198-348 | over any history of the store, the status of a request from its envelope, clock, registry, reply and Kafka outcome, in the order of the checks; 409 exactly if a claim of its sensor and nonce is less than a TTL old when its own runs |
| EndpointService.CountersMatchAnswers | services/endpoint/src/index.ts:113-119 | accepted + rejected is the number of requests; each counter is the number of requests that came out its way, and the answers with its status |
| EndpointService.EndpointInstance.constructor | services/endpoint/src/index.ts:107-119 | an instance with zero counters on a shared store |
| EndpointService.EndpointInstance.PublishRejectedEvent | services/endpoint/src/index.ts:223-249 | publishes one rejected event and tracks it as pending |
| EndpointService.EndpointInstance.RejectedPublishSettles | services/endpoint/src/index.ts:246-248 | a settled publish is no longer pending |
| EndpointService.EndpointInstance.MayClose | services/endpoint/src/index.ts:183-186 | closing goes on exactly when none is pending |
| EndpointService.EndpointInstance.HandleTelemetry | services/endpoint/src/index.ts:198-348 | status, counters, rejected event and store after each of the seven ways out, in the order of the checks |
| LruCaching.RunKeepsValid | services/cps-auth/src/lru-cache.ts:45-72 | after any operations the size is at most maxSize and the order lists each key once |
| LruCaching.OrderIsLastTouches | services/cps-auth/src/lru-cache.ts:45-72 | the stored order is always the order of last touches |
| LruCaching.TouchedKeyIsRetained | services/cps-auth/src/lru-cache.ts:59-72 | a key touched last keeps its entry through any operations on other keys that touch fewer than maxSize of them |
| LruCaching.TouchedKeyStillHits | services/cps-auth/src/lru-cache.ts:45-72 | so its lookup gives at any time what it would have given right after the touch |
| LruCaching.SetValueIsFoundUntilItExpires | services/cps-auth/src/lru-cache.ts:45-72 | a value is found before its time to live is over and not from then on, whatever is done with other keys as long as fewer than maxSize of them are touched |
| LruCaching.GetRemovesWhatItDoesNotFind | services/cps-auth/src/lru-cache.ts:45-57 | a lookup keeps what it finds, as the newest, and removes what it finds expired |
| LruCaching.HitReturnsLastSet | services/cps-auth/src/lru-cache.ts:45-72 | a stored entry is the one last set for its key |
| LruCaching.LruCache.constructor | services/cps-auth/src/lru-cache.ts:31-38 | an empty cache |
| LruCaching.LruCache.Size | services/cps-auth/src/lru-cache.ts:40-42 | the number of stored keys |
| LruCaching.LruCache.Get | services/cps-auth/src/lru-cache.ts:45-57 | the live value, moved to the end; an expired entry is removed |
| LruCaching.LruCache.Set | services/cps-auth/src/lru-cache.ts:60-72 | the entry moves to the end and the oldest is evicted on overflow |
| LruCaching.LruCache.Delete | services/cps-auth/src/lru-cache.ts:51-54 | removes the key from entries and order |
| CpsWalk.IsRootDescendant | services/cps-auth/src/cps-auth.ts:176-198 | on a fixed chain, true exactly if the root is between 1 and 1024 parent links above the sensor's node |
| CpsWalk.SmallChainIsDecided | services/cps-auth/src/cps-auth.ts:29-33 | on a chain of at most as many nodes as the cap this is unbounded reachability |
| CpsWalk.OneLinkTooFar | services/cps-auth/src/cps-auth.ts:184-197 | a sensor 1025 links below the root descends from it and is not authorized |
| CpsWalk.CapIsExact | services/cps-auth/src/cps-auth.ts:29-33 | below the root of a straight chain a sensor is authorized exactly at 1 to 1024 links |
| CpsWalk.TreeRootsAreAccepted | services/cps-auth/src/cps-auth.ts:54-74 | startup accepts exactly an account whose node exists with nothing above it, as that node, and else names the parent it found |
| CpsWalk.AcceptedRootIsNotADescendant | services/cps-auth/src/cps-auth.ts:54-74 | a root that passes validation is a tree root, so its own identity is refused |
| CpsAuthenticator.AgreesWithTheWalk | services/cps-auth/src/cps-auth.ts:134-174 | on a fixed, non-failing chain every answer, cached or coalesced, equals the walk's, for every interleaving of calls |
| CpsAuthenticator.AnswersAreBacked | services/cps-auth/src/cps-auth.ts:134-174 | on any chain a grant comes from a completed lookup that granted, a cached denial from one that denied less than the negative TTL ago |
| CpsAuthenticator.FailuresAreNeverStored | services/cps-auth/src/cps-auth.ts:155-174 | a stored verdict is that of a lookup that resolved |
| CpsAuthenticator.ResolvedVerdictIsServed | services/cps-auth/src/cps-auth.ts:134-174 | over every run, a resolved verdict answers the next call of its key from the cache, with no lookup started, if it granted or is younger than the negative TTL and fewer other keys than the cache holds were used meanwhile |
| CpsAuthenticator.OneLookupPerKey | services/cps-auth/src/cps-auth.ts:145-152 | each key has at most one lookup started and not completed |
| CpsAuthenticator.EveryCallIsAnsweredOnce | services/cps-auth/src/cps-auth.ts:134-153 | for each key, its answers and its waiting callers number its calls, and callers wait only for a lookup of their key that is in flight |
| CpsAuthenticator.CpsAuth.constructor | services/cps-auth/src/cps-auth.ts:90-96 | an empty cache, nothing in flight, the TTL in milliseconds |
| CpsAuthenticator.CpsAuth.Authenticate | services/cps-auth/src/cps-auth.ts:134-153 | a hit, a join of the pending promise, or a new lookup |
| CpsAuthenticator.CpsAuth.FinishLookup | services/cps-auth/src/cps-auth.ts:155-174 | a grant is stored for good, a denial with the TTL, a failure not at all |
| CpsAuthenticator.CpsAuth.Forget | services/cps-auth/src/cps-auth.ts:147-149 | the settled promise is dropped |
| Connectivity.ChangesExactlyWhenJustified | services/pubsub-broadcaster/src/connectivity.ts:89-117 | a timer firing changes the state exactly if it polls a count on the other side of the minimum, below it to pause and not below it to resume, an earlier notify and every one since saw such a count, nothing was stopped or fired, and the interval has passed |
| Connectivity.PausedExactlyAfterALowPoll | services/pubsub-broadcaster/src/connectivity.ts:56-115 | consumption is paused exactly if the poll of the last change was below the minimum; before any change, exactly if a minimum is configured |
| Connectivity.ChangesAreSpaced | services/pubsub-broadcaster/src/connectivity.ts:105-115 | any two applied changes are at least one interval apart |
| Connectivity.LastingSideIsApplied | services/pubsub-broadcaster/src/connectivity.ts:89-117 | a side that lasts until a timer fires an interval later is applied |
| Connectivity.PendingTimerIsArmed | services/pubsub-broadcaster/src/connectivity.ts:100-107 | timer and pending side agree, and a pending timer was armed by a notify of its side one interval before its deadline |
| Connectivity.CountersFollowChanges | services/pubsub-broadcaster/src/connectivity.ts:75-87 | pauses and resumes together number the changes, and their difference is that from the initial state |
| Connectivity.ConnectivityMonitor.constructor | services/pubsub-broadcaster/src/connectivity.ts:56-65 | paused if a minimum is configured |
| Connectivity.ConnectivityMonitor.ClearPending | services/pubsub-broadcaster/src/connectivity.ts:67-73 | cancels the timer and forgets the side |
| Connectivity.ConnectivityMonitor.ApplyState | services/pubsub-broadcaster/src/connectivity.ts:75-87 | applies and counts a change, ignores a repetition |
| Connectivity.ConnectivityMonitor.Notify | services/pubsub-broadcaster/src/connectivity.ts:89-117 | cancels, keeps waiting, or re-arms for the other side |
| Connectivity.ConnectivityMonitor.TimerCallback | services/pubsub-broadcaster/src/connectivity.ts:107-115 | polls again and applies only a side that persists |
| Connectivity.ConnectivityMonitor.Stop | services/pubsub-broadcaster/src/connectivity.ts:127-129 | cancels what is pending |
| Heartbeat.FoldIsSpecified | services/heartbeat-tracker/src/index.ts:117-150 | firstSeen is the first timestamp processed, lastSeen the maximum, onlineSince the start of the last streak, which is unique; they are in order |
| Heartbeat.LastSeenIgnoresOrder | services/heartbeat-tracker/src/index.ts:139-147 | lastSeen is the same for any order of arrival |
| Heartbeat.ReplayChangesNothing | services/heartbeat-tracker/src/index.ts:139-149 | replaying any events already processed, or older ones, changes nothing |
| Heartbeat.RedeliveryChangesNothing | services/heartbeat-tracker/src/index.ts:124-149 | in the store, a heartbeat changes nothing exactly if one at least as late was processed since the sensor was tracked |
| Heartbeat.StoreIsFold | services/heartbeat-tracker/src/index.ts:117-150 | over any history of heartbeats and metrics calls, set and hashes hold the same sensors, and each hash is the fold of its heartbeats since the sensor was last pruned |
| Heartbeat.StaleIsExact | services/heartbeat-tracker/src/index.ts:284-293 | a metrics call prunes exactly the listed sensors not seen for longer than the retention window |
| Heartbeat.ReportIsSound | services/heartbeat-tracker/src/index.ts:237-351 | every report over every history: one detail per remaining sensor, which tells from its heartbeats since it was last pruned the first, the latest, whether that is within the online window, the time since the start of the last streak if it is, and the time since the latest; online count, uptimes by id, maximum and average are those of the details |
| Heartbeat.KeptExactlyWithinRetention | services/heartbeat-tracker/src/index.ts:284-321 | over every history a metrics call keeps exactly the sensors with a heartbeat within the retention window |
| Heartbeat.NoOnlineSensorIsPruned | services/heartbeat-tracker/src/index.ts:279-293 | no history prunes an online sensor if and only if the online window is at most the retention window |
| Heartbeat.HeartbeatTrackerState.constructor | services/heartbeat-tracker/src/index.ts:191-198 | nothing tracked |
| Heartbeat.HeartbeatTrackerState.RecordAuthorizedSensor | services/heartbeat-tracker/src/index.ts:117-150 | the script's effect on set and hash, and a reply that tells what is now in force |
| Heartbeat.HeartbeatTrackerState.CreateMetrics | services/heartbeat-tracker/src/index.ts:237-351 | the loop's report and the pruned store |
| Heartbeat.HeartbeatTrackerState.Prune | services/heartbeat-tracker/src/index.ts:316-321 | removes the stale sensors from set and hashes |

## Left out

- HTTP servers, rate limiting, health and readiness routes, the status page, logging, configuration, TLS, tokens, libp2p and the command-line sensor: plumbing.
- Protobuf, zstd, Ed25519, SS58, SHA-256, blake2, Redis and Kafka themselves: only the contracts above.
- Kafka rebalances: one consumer owns its partitions while it runs.
- Null records and records of another event type are skipped by both services by design, and the anchor commits past records it cannot parse; the no-loss statements exclude them.
- `whitelist`, `open-auth`, `shutdown.ts`, `rejection-codes.ts` and the byte helpers: nothing hard to state.
- The `x-request-id`, trace ids, event ids and headers that travel with a record beyond its source position and reason.
- A registry that throws: the shipped ones answer or deny (services/cps-auth/src/cps-auth.ts:168-173), so the handler model has no such way out.
- A delay or failure inside `getLag`: a failed lag query reads as zero in the source and is an ordinary event here.
- Heartbeat.HeartbeatTrackerState.CreateMetrics: takes the whole call as one step and the listing of the set as an argument; a heartbeat between the two Redis calls that prune a sensor would leave its hash without its set member.
- Heartbeat: numbers are integers; Lua's conversion of numbers to text and back is exact for timestamps and not modelled.
- CpsAuthenticator.CpsAuth.Authenticate: the sensor id itself is the key, not its hexadecimal form, which is one-to-one.
- CpsWalk.IsRootDescendant: reads one snapshot of the chain; over a chain that changes during a walk only the statements about completed lookups hold.
- LruCaching.LruCache.constructor: a maxSize that is not positive throws in the source and is a precondition here.
- NonceStore.RedisNonceStore.Claim: lengths of 2^32 bytes or more, which make the source throw, are excluded by its precondition; `NonceStore.LengthPrefixed` has that branch.
- AnchorService.AnchorService.ConsumeStream: runs uninterleaved with the chain settling older submissions and the topic growing; the machine in `Anchor` has those interleavings.
- EndpointService.EndpointInstance.HandleTelemetry: runs one request at a time; requests and instances interleave in `Endpoint`.
- A batcher that is stopped and started again as the same object: each start is that of a new process.
- Kafka's own handling of a commit beyond the end of a partition, or of one from a member that left the group, is not modelled.
