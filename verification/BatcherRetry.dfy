/**
 * What a retry publishes. A batch whose send or commit failed is re-attached in front of
 * newer items, so the next flush publishes it again, alone or together with them.
 */
module BatcherRetry {
  import opened Common
  import opened PayloadBuilder
  import opened BatchFlushing
  import opened Batcher
  import opened BatcherProgress
  import BatcherCounters
  import BatcherSafety
  import BatchId

  /** A retry fits the batch as before exactly if it took in no further valid items. */
  lemma SameFitOnlyWithoutNewItems(c: Config, batch: seq<Item>, more: seq<Item>)
    ensures Fitting(c, batch + more) == Fitting(c, batch) <==> ValidOf(more) == []
  {
    BatcherCounters.ValidOfConcat(batch, more);
    BatcherCounters.FitAddsUp(ValidOf(batch + more), c.maxPayloadBytes, ItemCodec(c));
    BatcherCounters.FitAddsUp(ValidOf(batch), c.maxPayloadBytes, ItemCodec(c));
    if ValidOf(more) == [] {
      assert ValidOf(batch) + [] == ValidOf(batch);
    }
    hide FitBatch, SumEvents, ValidOf;
  }

  lemma SourcesConcat(a: seq<Item>, b: seq<Item>)
    ensures SourcesOf(a + b) == SourcesOf(a) + SourcesOf(b)
  {
  }

  /** How the first attempt fails: its send, of which any messages may have landed, or its commit. */
  datatype Failure = SendFails(landed: seq<BatchedMessage>) | CommitFails

  ghost predicate Possible(c: Config, batch: seq<Item>, failure: Failure) {
    var messages := ToMessages(c, Fitting(c, batch).batches);
    failure.SendFails? ==> messages != [] && forall m <- failure.landed :: m in messages
  }

  /** What the first attempt publishes. */
  function Landed(c: Config, batch: seq<Item>, failure: Failure): seq<BatchedMessage> {
    match failure
    case SendFails(landed) => landed
    case CommitFails => ToMessages(c, Fitting(c, batch).batches)
  }

  function Attempt(c: Config, batch: seq<Item>, failure: Failure): seq<Event> {
    match failure
    case SendFails(landed) => BeforeTheSend(c, batch) + [BatchedSendDone(false, PlaceAll(landed))]
    case CommitFails => Sends(c, batch) + [CommitDone(false, {})]
  }

  /** The drain goes on with its own flush; a flushBatch that waits arms the timer, unless the service stops. */
  predicate Retries(k: Control) {
    k.loop.DrainJoin? || (!k.stopping && (k.loop.AwaitFlush? || k.timerWaiting))
  }

  function Wakes(k: Control): seq<Event> {
    if k.loop.DrainJoin? then [] else [TimerFires]
  }

  /** In a reachable state only a stop or the drain's own flush keep a failed flush from being retried. */
  lemma RetriesUnlessEnding(c: Config, log: seq<seq<Record>>, batchedPartitions: nat, es: seq<Event>)
    ensures var s := After(c, log, batchedPartitions, es);
      s.data.flusher.inFlight.Some? && !s.control.stopping && !s.control.loop.DrainFlush? ==> Retries(s.control)
  {
    BatcherSafety.RunIsGood(c, log, batchedPartitions, es);
  }

  /** A batch that failed and is in flight again, together with the newer items behind it. */
  function Redetached(f: Flusher<Item>): Flusher<Item> {
    f.(inFlight := Some(f.Flying() + f.pending), pending := [], started := f.started + 1, settled := f.settled + 1)
  }

  /** The failed flush settles: its batch is detached again, together with the newer items behind it. */
  lemma FailureStartsOver(c: Config, s: State)
    requires s.data.flusher.inFlight.Some? && s.data.flusher.Flying() != [] && Retries(s.control)
    ensures var s1 := Run(c, SettleAndResume(s, false), Wakes(s.control));
      s1.data == s.data.(handler := PoisonSend, flusher := Redetached(s.data.flusher)) && s1.control.metrics == s.control.metrics
  {
    RunOne(c, SettleAndResume(s, false), TimerFires);
  }

  lemma FailedSend(c: Config, s: State, landed: seq<BatchedMessage>)
    requires s.data.handler.BatchedSend? && s.data.batched != []
    requires forall m <- landed :: m in ToMessages(c, Fitting(c, s.data.flusher.Flying()).batches)
    ensures Step(c, s, BatchedSendDone(false, PlaceAll(landed))) == ProduceFails(s.(data := s.data.(batched := AppendTo(s.data.batched, landed))))
  {
    PlaceAllAppends(s.data.batched, landed);
    forall pl <- PlaceAll(landed) ensures pl.partition < |s.data.batched| && pl.message in landed {}
    hide Place, AppendTo, ProduceFails, Fitting;
  }

  lemma FailedCommit(c: Config, s: State)
    requires s.data.handler.CommitOffsets?
    ensures Step(c, s, CommitDone(false, {})) == SettleAndResume(s, false)
  {
    assert CommitInto(s.data.committed, s.data.flusher.Flying(), {}) == s.data.committed;
    hide SettleAndResume;
  }

  /** The first attempt ends with the flush settling as failed, its messages published as far as they landed, a failed send counted. */
  lemma AttemptFails(c: Config, s: State, failure: Failure) returns (s1: State)
    requires s.data.handler.PoisonSend? && s.data.flusher.inFlight.Some?
    requires Formats(c, s.data.flusher.Flying()) && s.data.batched != [] && Possible(c, s.data.flusher.Flying(), failure)
    ensures var batch := s.data.flusher.Flying();
      && At(s, s1.data.handler, AppendTo(s.data.batched, Landed(c, batch, failure)), s1)
      && Run(c, s, Attempt(c, batch, failure)) == SettleAndResume(s1, false)
      && s1.control.metrics.produceFailure == s.control.metrics.produceFailure + (if failure.SendFails? then 1 else 0)
  {
    hide Sends, BeforeTheSend, Fitting, AppendTo, ToMessages, SettleAndResume, Formats, Step;
    var batch := s.data.flusher.Flying();
    match failure
    case SendFails(landed) =>
      var s0 := Run(c, s, BeforeTheSend(c, batch));
      var last := BatchedSendDone(false, PlaceAll(landed));
      assert Fitting(c, batch).batches != [] by { NoMessages(c); }
      SendIsReached(c, s);
      FailedSend(c, s0, landed);
      var m := s0.control.metrics;
      s1 := State(s0.data.(batched := AppendTo(s0.data.batched, landed)), s0.control.(metrics := m.(produceFailure := m.produceFailure + 1)));
      RunOne(c, s0, last);
      RunConcat(c, s, BeforeTheSend(c, batch), [last]);
    case CommitFails =>
      s1 := Run(c, s, Sends(c, batch));
      SendsPublish(c, s);
      FailedCommit(c, s1);
      RunOne(c, s1, CommitDone(false, {}));
      RunConcat(c, s, Sends(c, batch), [CommitDone(false, {})]);
  }

  lemma NoMessages(c: Config)
    ensures ToMessages(c, []) == []
  {
  }

  /** The attempt fails and the flush starts over. */
  function FailAndRetry(c: Config, k: Control, batch: seq<Item>, failure: Failure): seq<Event> {
    Attempt(c, batch, failure) + Wakes(k)
  }

  lemma RetryStartsOver(c: Config, s: State, failure: Failure)
    requires s.data.handler.PoisonSend? && s.data.flusher.inFlight.Some? && s.data.flusher.Flying() != [] && Retries(s.control)
    requires Formats(c, s.data.flusher.Flying()) && s.data.batched != [] && Possible(c, s.data.flusher.Flying(), failure)
    ensures var batch := s.data.flusher.Flying();
      var s1 := Run(c, s, FailAndRetry(c, s.control, batch, failure));
      && s1.data.flusher == Redetached(s.data.flusher)
      && s1.data.handler.PoisonSend?
      && s1.data.batched == AppendTo(s.data.batched, Landed(c, batch, failure))
      && s1.data.committed == s.data.committed && s1.data.log == s.data.log
      && s1.control.metrics.produceFailure == s.control.metrics.produceFailure + (if failure.SendFails? then 1 else 0)
  {
    hide Run, Attempt, AppendTo, Landed, Formats, Possible, SettleAndResume;
    var batch := s.data.flusher.Flying();
    var failed := AttemptFails(c, s, failure);
    FailureStartsOver(c, failed);
    RunConcat(c, s, Attempt(c, batch, failure), Wakes(s.control));
  }

  /** The retry succeeds. */
  function Retry(c: Config, k: Control, batch: seq<Item>, retried: seq<Item>, failure: Failure): seq<Event> {
    FailAndRetry(c, k, batch, failure) + (Sends(c, retried) + [CommitDone(true, PartitionsOf(retried))])
  }

  /** A retry publishes the fit of the batch and what came meanwhile, behind whatever the failed attempt has landed. */
  lemma RetryPublishesAgain(c: Config, s: State, failure: Failure)
    requires s.data.handler.PoisonSend? && s.data.flusher.inFlight.Some? && s.data.flusher.Flying() != [] && Retries(s.control)
    requires s.data.batched != [] && Possible(c, s.data.flusher.Flying(), failure)
    requires Formats(c, s.data.flusher.Flying()) && Formats(c, s.data.flusher.Flying() + s.data.flusher.pending)
    ensures var batch := s.data.flusher.Flying();
      var retried := batch + s.data.flusher.pending;
      Run(c, s, Retry(c, s.control, batch, retried, failure)).data.batched
        == AppendTo(s.data.batched, Landed(c, batch, failure) + ToMessages(c, Fitting(c, retried).batches))
  {
    hide Run, Sends, Fitting, ToMessages, FailAndRetry, Formats, Landed, Possible, Retries;
    var batch := s.data.flusher.Flying();
    var retried := batch + s.data.flusher.pending;
    var landed, messages := Landed(c, batch, failure), ToMessages(c, Fitting(c, retried).batches);
    RetryStartsOver(c, s, failure);
    var s1 := Run(c, s, FailAndRetry(c, s.control, batch, failure));
    PublishesBoth(c, s1, retried);
    RunConcat(c, s, FailAndRetry(c, s.control, batch, failure), Sends(c, retried) + [CommitDone(true, PartitionsOf(retried))]);
    assert s.data.batched[0] + landed + messages == s.data.batched[0] + (landed + messages);
  }

  // ---------------------------------------------------------------------------
  // A retry under another identifier
  // ---------------------------------------------------------------------------

  /** The record at (0, offset) as it enters the buffer. */
  function ItemAt(r: Record, offset: nat): Item
    requires r.Authorized?
  {
    Item(Valid(r.envelope, r.sensorId), 0, offset + 1, r.raw)
  }

  /** The timer has started the flush, and the loop asks for the lag. */
  const DETACHED := Control(LagCheck, false, false, true, ZERO_METRICS)

  /** The first record is detached by the timer, the second is delivered meanwhile. */
  function DetachThenRead(): seq<Event> {
    [Start, Deliver(0)] + [Lag(0), TimerFires] + [Deliver(0)]
  }

  ghost predicate TwoRecords(c: Config, x: Record, y: Record) {
    && x.Authorized? && y.Authorized? && c.formats(x.sensorId) && c.formats(y.sensorId)
    && c.batchSize >= 2
  }

  lemma FirstIsBuffered(c: Config, x: Record, y: Record)
    requires TwoRecords(c, x, y)
    ensures var s := After(c, [[x, y]], 1, [Start, Deliver(0)]);
      && s.data == Init([[x, y]], 1).data.(cursor := [1], flusher := Empty<Item>().Add(ItemAt(x, 0)))
      && s.control.loop.LagCheck? && !s.control.stopping && !s.control.timerArmed
  {
    var s := Init([[x, y]], 1);
    RunOne(c, s, Start);
    RunOne(c, Run(c, s, [Start]), Deliver(0));
    RunConcat(c, s, [Start], [Deliver(0)]);
    OneItem(c, Empty<Item>(), x, 0);
    assert [Start] + [Deliver(0)] == [Start, Deliver(0)];
    assert s.data.cursor[0 := 1] == [1];
  }

  lemma OneItem(c: Config, f: Flusher<Item>, r: Record, offset: nat)
    requires r.Authorized? && c.formats(r.sensorId)
    ensures AddAll(f, ItemsOf(c, r, 0, offset)) == f.Add(ItemAt(r, offset))
  {
    var items := ItemsOf(c, r, 0, offset);
    assert items == [ItemAt(r, offset)] && Front(items) == [];
    assert AddAll(f, []) == f;
  }

  lemma FirstIsDetached(c: Config, x: Record, y: Record)
    requires TwoRecords(c, x, y)
    ensures var s := After(c, [[x, y]], 1, [Start, Deliver(0)] + [Lag(0), TimerFires]);
      && s.data == Init([[x, y]], 1).data.(cursor := [1], flusher := Empty<Item>().Add(ItemAt(x, 0)).Flush(), handler := PoisonSend)
      && s.control.loop.Reading? && !s.control.stopping && !s.control.timerArmed && s.control.timerWaiting
  {
    var s := After(c, [[x, y]], 1, [Start, Deliver(0)]);
    FirstIsBuffered(c, x, y);
    RunOne(c, s, Lag(0));
    RunOne(c, Step(c, s, Lag(0)), TimerFires);
    hide Run;
    RunConcat(c, s, [Lag(0)], [TimerFires]);
    RunConcat(c, Init([[x, y]], 1), [Start, Deliver(0)], [Lag(0), TimerFires]);
    assert [Lag(0)] + [TimerFires] == [Lag(0), TimerFires];
  }

  lemma SecondIsDelivered(c: Config, x: Record, y: Record)
    requires TwoRecords(c, x, y)
    ensures var s := After(c, [[x, y]], 1, DetachThenRead());
      && s.data == Init([[x, y]], 1).data.(
           cursor := [2], flusher := Empty<Item>().Add(ItemAt(x, 0)).Flush().Add(ItemAt(y, 1)), handler := PoisonSend)
      && s.control.loop.LagCheck? && !s.control.stopping && !s.control.timerArmed && s.control.timerWaiting
  {
    var before := [Start, Deliver(0)] + [Lag(0), TimerFires];
    var s := After(c, [[x, y]], 1, before);
    FirstIsDetached(c, x, y);
    RunOne(c, s, Deliver(0));
    OneItem(c, s.data.flusher, y, 1);
    assert [1][0 := 2] == [2];
    hide Run, ItemsOf;
    RunConcat(c, Init([[x, y]], 1), before, [Deliver(0)]);
  }

  /** The commit of the first flush fails, the second flush takes both records and succeeds. */
  function RetryTogether(c: Config, x: Record, y: Record): seq<Event>
    requires x.Authorized? && y.Authorized?
  {
    var a, b := ItemAt(x, 0), ItemAt(y, 1);
    DetachThenRead() + FailAndRetry(c, DETACHED, [a], CommitFails) + (Sends(c, [a, b]) + [CommitDone(true, PartitionsOf([a, b]))])
  }

  lemma OneMessage(c: Config, batch: seq<Item>)
    requires batch != [] && Fits(ValidOf(batch), c.maxPayloadBytes, ItemCodec(c)) && ValidOf(batch) == batch
    ensures ToMessages(c, Fitting(c, batch).batches) == [ToMessage(c, Wrap(batch, ItemCodec(c)))]
  {
    assert Fitting(c, batch).batches == [Wrap(batch, ItemCodec(c))];
  }

  lemma ValidPair(c: Config, x: Record, y: Record)
    requires TwoRecords(c, x, y)
    ensures var a, b := ItemAt(x, 0), ItemAt(y, 1);
      && ValidOf([a]) == [a] && ValidOf([a, b]) == [a, b] && Formats(c, [a]) && Formats(c, [a, b]) && [a] + [b] == [a, b]
  {
    var a, b := ItemAt(x, 0), ItemAt(y, 1);
    assert Front([a]) == [] && Front([a, b]) == [a] && ValidOf([]) == [];
  }

  lemma AppendTwice(first: seq<BatchedMessage>, second: seq<BatchedMessage>)
    ensures AppendTo(AppendTo([[]], first), second) == [first + second]
  {
    assert [] + first == first;
  }

  /** The counters play no part in how a flush is retried. */
  lemma SameAttempt(c: Config, k: Control, batch: seq<Item>)
    requires k.loop.LagCheck?
    ensures FailAndRetry(c, k, batch, CommitFails) == FailAndRetry(c, DETACHED, batch, CommitFails)
  {
  }

  lemma FirstFlushFails(c: Config, x: Record, y: Record)
    requires TwoRecords(c, x, y)
    ensures var a, b := ItemAt(x, 0), ItemAt(y, 1);
      var s := After(c, [[x, y]], 1, DetachThenRead() + FailAndRetry(c, DETACHED, [a], CommitFails));
      && s.data.handler.PoisonSend? && s.data.flusher.inFlight == Some([a, b]) && s.data.flusher.handled == []
      && s.data.batched == AppendTo([[]], ToMessages(c, Fitting(c, [a]).batches))
  {
    var a, b := ItemAt(x, 0), ItemAt(y, 1);
    var s := After(c, [[x, y]], 1, DetachThenRead());
    SecondIsDelivered(c, x, y);
    ValidPair(c, x, y);
    assert s.data.flusher.inFlight == Some([a]) && s.data.flusher.pending == [b] && s.data.flusher.handled == [];
    assert s.data.batched == [[]];
    hide Run, Sends, Fitting, ToMessages, FailAndRetry, DetachThenRead, ValidOf, Formats, AppendTo;
    RetryStartsOver(c, s, CommitFails);
    SameAttempt(c, s.control, [a]);
    RunConcat(c, Init([[x, y]], 1), DetachThenRead(), FailAndRetry(c, DETACHED, [a], CommitFails));
  }

  /** What the two flushes of the retry publish, whatever the sizes. */
  lemma RetryPublishes(c: Config, x: Record, y: Record)
    requires TwoRecords(c, x, y)
    ensures var a, b := ItemAt(x, 0), ItemAt(y, 1);
      var s := After(c, [[x, y]], 1, RetryTogether(c, x, y));
      && s.data.batched == [ToMessages(c, Fitting(c, [a]).batches) + ToMessages(c, Fitting(c, [a, b]).batches)]
      && s.data.flusher.handled == [a, b]
  {
    hide Run, Sends, Fitting, ToMessages, FailAndRetry, DetachThenRead, ValidOf, Formats, AppendTo;
    var a, b := ItemAt(x, 0), ItemAt(y, 1);
    var before := DetachThenRead() + FailAndRetry(c, DETACHED, [a], CommitFails);
    var s := After(c, [[x, y]], 1, before);
    FirstFlushFails(c, x, y);
    ValidPair(c, x, y);
    BatchedIsThere(ToMessages(c, Fitting(c, [a]).batches));
    SmoothFlushSucceeds(c, s);
    PublishesBoth(c, s, [a, b]);
    AppendTwice(ToMessages(c, Fitting(c, [a]).batches), ToMessages(c, Fitting(c, [a, b]).batches));
    RunConcat(c, Init([[x, y]], 1), before, Sends(c, [a, b]) + [CommitDone(true, PartitionsOf([a, b]))]);
    assert [] + [a, b] == [a, b];
  }

  lemma BatchedIsThere(messages: seq<BatchedMessage>)
    ensures AppendTo([[]], messages) != []
  {
  }

  lemma CommitPublishesNothing(s: State, ok: bool, partitions: set<nat>)
    ensures CommitReturned(s, ok, partitions).data.batched == s.data.batched
  {
  }

  lemma PublishesBoth(c: Config, s: State, batch: seq<Item>)
    requires s.data.handler.PoisonSend? && s.data.flusher.inFlight == Some(batch) && Formats(c, batch) && s.data.batched != []
    ensures Run(c, s, Sends(c, batch) + [CommitDone(true, PartitionsOf(batch))]).data.batched
         == AppendTo(s.data.batched, ToMessages(c, Fitting(c, batch).batches))
  {
    hide Sends, Fitting, ToMessages, AppendTo, Formats, CommitReturned;
    SendsPublish(c, s);
    CommitPublishesNothing(Run(c, s, Sends(c, batch)), true, PartitionsOf(batch));
    RunOne(c, Run(c, s, Sends(c, batch)), CommitDone(true, PartitionsOf(batch)));
    hide Run;
    RunConcat(c, s, Sends(c, batch), [CommitDone(true, PartitionsOf(batch))]);
  }

  /**
   * A run in which the retry of a batch has another identifier: [a] is detached and
   * published, its commit fails, b is delivered meanwhile, and the next flush publishes [a, b].
   */
  lemma RetryChangesTheId(c: Config, x: Record, y: Record)
    requires TwoRecords(c, x, y) && Injective(c.sha256)
    requires Fits([ItemAt(x, 0)], c.maxPayloadBytes, ItemCodec(c)) && Fits([ItemAt(x, 0), ItemAt(y, 1)], c.maxPayloadBytes, ItemCodec(c))
    ensures var batched := After(c, [[x, y]], 1, RetryTogether(c, x, y)).data.batched;
      && |batched| == 1 && |batched[0]| == 2
      && batched[0][0].fitted.events == [ItemAt(x, 0)] && batched[0][1].fitted.events == [ItemAt(x, 0), ItemAt(y, 1)]
      && batched[0][0].batchId != batched[0][1].batchId
  {
    var a, b := ItemAt(x, 0), ItemAt(y, 1);
    RetryPublishes(c, x, y);
    ValidPair(c, x, y);
    OneMessage(c, [a]);
    OneMessage(c, [a, b]);
    SourcesConcat([a], [b]);
    BatchId.MoreSourcesChangeTheId(SourcesOf([a]), SourcesOf([b]), c.sha256);
    hide After, Fitting, ToMessages, RetryTogether, BatchId.ComputeBatchId;
  }

  // ---------------------------------------------------------------------------
  // A drain whose commit fails
  // ---------------------------------------------------------------------------

  /** The commit of the drain's flush fails, and a new process starts. */
  function FailedDrain(landed: set<nat>): seq<Event> {
    [CommitDone(false, landed)] + ([Crash] + [Start])
  }

  lemma FailedDrainRestarts(c: Config, s: State, landed: set<nat>)
    requires s.data.handler.CommitOffsets? && s.control.loop.DrainFlush?
    ensures var s1, s2 := Step(c, s, CommitDone(false, landed)), Run(c, s, FailedDrain(landed));
      && s1.control.loop == Ended(false) && s2.control.loop.Reading?
      && s2.data == Fresh(s.data).(committed := s2.data.committed, start := s2.data.committed, cursor := s2.data.committed)
      && s2.data.committed == CommitInto(s.data.committed, s.data.flusher.Flying(), landed)
  {
    hide CommitInto;
    var s1 := Step(c, s, CommitDone(false, landed));
    RunOne(c, s, CommitDone(false, landed));
    RunOne(c, s1, Crash);
    RunOne(c, Step(c, s1, Crash), Start);
    hide Run;
    RunConcat(c, s1, [Crash], [Start]);
    RunConcat(c, s, [CommitDone(false, landed)], [Crash] + [Start]);
  }

  /** What the old process read and the new one reads again stems from the batch. */
  lemma ReadAgainIsInTheBatch(c: Config, s: State, p: nat, o: nat)
    requires BatcherSafety.Good(c, s) && s.control.loop.DrainFlush?
    requires p < |s.data.log| && s.data.committed[p] <= o < s.data.cursor[p] && Relevant(s.data.log[p][o])
    ensures BatcherSafety.Has(s.data.flusher.Flying(), p, o + 1)
  {
    var f := s.data.flusher;
    BatcherSafety.MaxOffsetIsHighest(f.handled, p, s.data.start[p]);
    var it :| it in f.added && it.partition == p && it.offset == o + 1;
    assert it !in f.handled && it in f.handled + f.Flying() + f.pending;
  }

  /** An item of the batch is done for already, and is read again unless a commit has passed it. */
  lemma ItemOfFailedDrain(c: Config, s: State, landed: set<nat>, it: Item)
    requires BatcherSafety.Good(c, s) && s.data.handler.CommitOffsets? && it in s.data.flusher.Flying()
    ensures var d := s.data;
      && it.partition < |d.committed| && BatcherSafety.Covered(d, it)
      && (it.offset > CommitInto(d.committed, d.flusher.Flying(), landed)[it.partition]
          <==> it.partition !in landed && it.offset > d.committed[it.partition])
  {
    hide MaxOffset, Fitting, BatcherSafety.AllRead, BatcherSafety.NoLoss, BatcherSafety.CommitBounds, BatcherSafety.Ordered;
    var f := s.data.flusher;
    assert it in f.added && BatcherSafety.ItemOf(s.data.log, it) && BatcherSafety.Covered(s.data, it);
    hide BatcherSafety.Good, BatcherSafety.ItemOf, BatcherSafety.Covered;
    BatcherSafety.MaxOffsetIsHighest(f.Flying(), it.partition, 0);
  }

  /**
   * A restart that resumes at the offsets of `after`: the batch is published or in the DLQ
   * already, of its items those above the committed offset of a partition for which the
   * commit did not land are read again, and nothing else is.
   */
  ghost predicate OnlyTheBatchIsReadAgain(before: Data, after: Data, landed: set<nat>) {
    var batch := before.flusher.Flying();
    && after.log == before.log && |after.cursor| == |before.cursor| == |before.committed| == |before.log|
    && (forall it <- batch ::
          && it.partition < |before.log| && BatcherSafety.Covered(after, it)
          && (it.offset > after.cursor[it.partition] <==> it.partition !in landed && it.offset > before.committed[it.partition]))
    && forall p, o :: 0 <= p < |before.log| && after.cursor[p] <= o < before.cursor[p] <= |before.log[p]| && Relevant(before.log[p][o])
         ==> BatcherSafety.Has(batch, p, o + 1)
  }

  lemma CommitMovesForward(c: Config, s: State, landed: set<nat>)
    requires BatcherSafety.Good(c, s) && s.data.handler.CommitOffsets?
    ensures var d := s.data;
      var committed := CommitInto(d.committed, d.flusher.Flying(), landed);
      && |committed| == |d.cursor| == |d.committed| == |d.log|
      && forall p :: 0 <= p < |d.log| ==> d.committed[p] <= committed[p]
  {
    hide CommitInto, MaxOffset;
    BatcherSafety.CommitKeeps(c, s.data, landed);
  }

  lemma FailedDrainLeavesTheBatch(c: Config, s: State, landed: set<nat>, after: Data)
    requires BatcherSafety.Good(c, s) && s.control.loop.DrainFlush? && s.data.handler.CommitOffsets?
    requires after.log == s.data.log && after.dlq == s.data.dlq && after.batched == s.data.batched
    requires after.cursor == CommitInto(s.data.committed, s.data.flusher.Flying(), landed)
    ensures OnlyTheBatchIsReadAgain(s.data, after, landed)
  {
    hide CommitInto, MaxOffset, BatcherSafety.Good, BatcherSafety.InDlq, BatcherSafety.InBatched, BatcherSafety.Has;
    var d := s.data;
    CommitMovesForward(c, s, landed);
    forall it <- d.flusher.Flying()
      ensures it.partition < |d.log| && BatcherSafety.Covered(after, it)
      ensures it.offset > after.cursor[it.partition] <==> it.partition !in landed && it.offset > d.committed[it.partition]
    {
      ItemOfFailedDrain(c, s, landed, it);
    }
    forall p, o | 0 <= p < |d.log| && after.cursor[p] <= o < d.cursor[p] <= |d.log[p]| && Relevant(d.log[p][o])
      ensures BatcherSafety.Has(d.flusher.Flying(), p, o + 1)
    {
      ReadAgainIsInTheBatch(c, s, p, o);
    }
  }

  /** What a restart publishes again when the commit of the drain's flush fails. */
  lemma FailedDrainIsReadAgain(c: Config, log: seq<seq<Record>>, batchedPartitions: nat, es: seq<Event>, landed: set<nat>)
    requires var s := After(c, log, batchedPartitions, es); s.control.loop.DrainFlush? && s.data.handler.CommitOffsets?
    ensures OnlyTheBatchIsReadAgain(After(c, log, batchedPartitions, es).data,
                                    After(c, log, batchedPartitions, es + FailedDrain(landed)).data, landed)
  {
    var s := After(c, log, batchedPartitions, es);
    BatcherSafety.RunIsGood(c, log, batchedPartitions, es);
    FailedDrainRestarts(c, s, landed);
    FailedDrainLeavesTheBatch(c, s, landed, Run(c, s, FailedDrain(landed)).data);
    hide Run, OnlyTheBatchIsReadAgain;
    RunConcat(c, Init(log, batchedPartitions), es, FailedDrain(landed));
  }
}
