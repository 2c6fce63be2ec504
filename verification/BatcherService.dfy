/**
 * The batcher's run loop and flush handler as the program runs them
 * (services/batcher/src/index.ts): each method is the code from one await to the
 * next, and does to the process and to Kafka what the machine in Batcher does.
 */
module BatcherService {
  import opened Common
  import opened PayloadBuilder
  import opened BatchFlushing
  import opened Batcher
  import BatcherSafety

  /** The offsets to commit: for each partition of the batch, the highest next-offset. */
  ghost predicate Offsets(offsets: map<nat, nat>, batch: seq<Item>) {
    forall p: nat :: (p in offsets <==> Touches(batch, p)) && (p in offsets ==> offsets[p] == MaxOffset(batch, p, 0))
  }

  lemma OneMoreItem(offsets: map<nat, nat>, batch: seq<Item>, item: Item)
    requires Offsets(offsets, batch)
    ensures Offsets(if item.partition !in offsets || offsets[item.partition] == 0 || item.offset > offsets[item.partition]
                    then offsets[item.partition := item.offset] else offsets,
                    batch + [item])
  {
    assert Front(batch + [item]) == batch;
    forall p: nat
      ensures Touches(batch + [item], p) <==> Touches(batch, p) || item.partition == p
    {
      assert item in batch + [item];
      assert forall it <- batch :: it in batch + [item];
    }
    if !Touches(batch, item.partition) {
      UntouchedIsBase(batch, item.partition);
    }
  }

  lemma {:induction false} UntouchedIsBase(batch: seq<Item>, p: nat)
    requires !Touches(batch, p)
    ensures MaxOffset(batch, p, 0) == 0
  {
    if batch != [] {
      assert Last(batch) in batch && forall it <- Front(batch) :: it in batch;
      UntouchedIsBase(Front(batch), p);
    }
  }

  /** The loop over the detached batch. An offset of zero counts as absent, as the source's truth test has it. */
  method OffsetsByPartition(batch: seq<Item>) returns (offsets: map<nat, nat>)
    ensures Offsets(offsets, batch)
  {
    offsets := map[];
    for i := 0 to |batch|
      invariant Offsets(offsets, batch[..i])
    {
      var item := batch[i];
      OneMoreItem(offsets, batch[..i], item);
      assert batch[..i + 1] == batch[..i] + [item];
      if item.partition !in offsets || offsets[item.partition] == 0 || item.offset > offsets[item.partition] {
        offsets := offsets[item.partition := item.offset];
      }
    }
    assert batch[..|batch|] == batch;
  }

  class BatcherService {
    const config: Config
    const flusher: BatchFlusher<Item>
    // Kafka, as this process drives it.
    var log: seq<seq<Record>>
    var committed: seq<nat>
    var dlq: seq<DlqMessage>
    var batched: seq<seq<BatchedMessage>>
    var start: seq<nat>
    var cursor: seq<nat>
    // The run loop and the handler.
    var handler: Handler
    var offsetsByPartition: map<nat, nat>
    var loop: Loop
    var shouldStop: bool
    var batchTimer: bool
    var timerWaiting: bool
    var consumed: nat
    var batchesProduced: nat
    var eventsBatched: nat
    var produceFailure: nat
    var batchesSplit: nat
    var oversizedEvents: nat

    ghost function DataView(): Data
      reads this, flusher
    {
      Data(log, committed, dlq, batched, start, cursor, flusher.View(), handler)
    }

    ghost function ControlView(): Control
      reads this
    {
      Control(loop, shouldStop, batchTimer, timerWaiting,
              Metrics(consumed, batchesProduced, eventsBatched, produceFailure, batchesSplit, oversizedEvents))
    }

    ghost function View(): State
      reads this, flusher
    {
      State(DataView(), ControlView())
    }

    /** A handler runs exactly while a batch is in flight, with that batch's offsets at hand. */
    ghost predicate Valid()
      reads this, flusher
    {
      && (handler.NoHandler? <==> flusher.flushPromise.None?)
      && (flusher.flushPromise.Some? ==> Offsets(offsetsByPartition, flusher.flushPromise.value))
    }

    constructor (config: Config, log: seq<seq<Record>>, batchedPartitions: nat)
      ensures this.config == config && fresh(flusher) && Valid() && View() == Init(log, batchedPartitions)
    {
      this.config := config;
      flusher := new BatchFlusher();
      this.log := log;
      committed, start, cursor := seq(|log|, _ => 0), seq(|log|, _ => 0), seq(|log|, _ => 0);
      dlq, batched := [], seq(batchedPartitions, _ => []);
      handler, offsetsByPartition := NoHandler, map[];
      loop, shouldStop, batchTimer, timerWaiting := Down, false, false, false;
      consumed, batchesProduced, eventsBatched, produceFailure, batchesSplit, oversizedEvents := 0, 0, 0, 0, 0, 0;
    }

    /** A new process over what Kafka has kept: it resumes from the committed offsets with an empty buffer. */
    constructor Restart(config: Config, log: seq<seq<Record>>, committed: seq<nat>, dlq: seq<DlqMessage>, batched: seq<seq<BatchedMessage>>)
      ensures this.config == config && fresh(flusher) && Valid()
      ensures View() == State(Data(log, committed, dlq, batched, committed, committed, Empty(), NoHandler), IDLE)
    {
      this.config := config;
      flusher := new BatchFlusher();
      this.log, this.committed, this.dlq, this.batched := log, committed, dlq, batched;
      start, cursor := committed, committed;
      handler, offsetsByPartition := NoHandler, map[];
      loop, shouldStop, batchTimer, timerWaiting := Down, false, false, false;
      consumed, batchesProduced, eventsBatched, produceFailure, batchesSplit, oversizedEvents := 0, 0, 0, 0, 0, 0;
    }

    /** A start of a started service is skipped. */
    method Start()
      modifies this`loop, this`shouldStop
      ensures View() == Step(config, old(View()), Event.Start)
    {
      if !loop.Down? {
        return;
      }
      shouldStop := false;
      loop := Reading;
    }

    // -------------------------------------------------------------------------
    // The run loop
    // -------------------------------------------------------------------------

    method Stop()
      modifies this`shouldStop
      ensures View() == Step(config, old(View()), Event.Stop)
    {
      shouldStop := true;
    }

    /** The consumer closed the stream. */
    method OnStreamEnd()
      requires Valid() && loop.Reading?
      modifies this, flusher
      ensures Valid() && View() == Step(config, old(View()), StreamEnds)
    {
      hide Batcher.LeaveLoop;
      LeaveLoop();
    }

    /** `flusher.flush()`: the handler computes its offsets and suspends on its first send. */
    method Flush()
      requires Valid()
      modifies this`handler, this`offsetsByPartition, flusher
      ensures Valid() && DataView() == Detach(old(DataView())) && ControlView() == old(ControlView())
    {
      var started := flusher.Flush();
      if started.Started? {
        offsetsByPartition := OffsetsByPartition(started.batch);
        handler := PoisonSend;
      }
    }

    /** `await flushBatch()` from the loop. */
    method FlushBatch()
      requires Valid()
      modifies this, flusher
      ensures Valid() && View() == FlushFromLoop(old(View()))
    {
      hide Detach;
      batchTimer := false;
      Flush();
      var flushing := flusher.IsFlushing();
      loop := if flushing then AwaitFlush else Reading;
    }

    method MaybeFlush()
      requires Valid()
      modifies this, flusher
      ensures Valid() && View() == Batcher.MaybeFlush(config, old(View()))
    {
      var size := flusher.Size();
      if size >= config.batchSize {
        FlushBatch();
      } else {
        loop := LagCheck;
      }
    }

    /** The body of the loop up to maybeFlush: what the record adds to the buffer, if it is relevant. */
    method Buffer(p: nat) returns (relevant: bool)
      requires Valid() && p < |cursor| == |log| && cursor[p] < |log[p]|
      modifies this`cursor, this`consumed, flusher
      ensures Valid() && View() == Received(config, old(View()), p)
      ensures relevant <==> Relevant(log[p][old(cursor)[p]])
    {
      var offset := cursor[p];
      var message := log[p][offset];
      ghost var f := flusher.View();
      cursor := cursor[p := offset + 1];
      if message.NullValue? || message.Foreign? {
        return false;
      }
      if message.Authorized? {
        consumed := consumed + 1;
        flusher.Add(Item(Kind.Valid(message.envelope, message.sensorId), p, offset + 1, message.raw));
        if !config.formats(message.sensorId) {
          flusher.Add(Item(Poison, p, offset + 1, message.raw));
        }
      } else {
        flusher.Add(Item(Poison, p, offset + 1, message.raw));
      }
      AddAllIsAdds(f, ItemsOf(config, message, p, offset));
      return true;
    }

    /** One pass of the `for await` loop. */
    method OnMessage(p: nat)
      requires Valid() && loop.Reading? && p < |cursor| == |log| && cursor[p] < |log[p]|
      modifies this, flusher
      ensures Valid() && View() == Step(config, old(View()), Deliver(p))
    {
      hide Received, Batcher.MaybeFlush, Batcher.LeaveLoop;
      if shouldStop {
        LeaveLoop();
      } else {
        var relevant := Buffer(p);
        if relevant {
          MaybeFlush();
        }
      }
    }

    method OnLag(lag: nat)
      requires Valid() && loop.LagCheck?
      modifies this, flusher
      ensures Valid() && View() == Step(config, old(View()), Lag(lag))
    {
      var size := flusher.Size();
      if lag < config.batchSize && size > 0 {
        batchTimer := true;
        loop := Reading;
      } else if lag >= config.batchSize {
        FlushBatch();
      } else {
        loop := Reading;
      }
    }

    /** The callback of the batch timer. */
    method OnTimer()
      requires Valid() && batchTimer
      modifies this, flusher
      ensures Valid() && View() == Step(config, old(View()), TimerFires)
    {
      hide Detach, Offsets, Flusher.Flush, SettleAndResume, FlushFromLoop, Batcher.LeaveLoop, Batcher.MaybeFlush, Received;
      batchTimer := false;
      var size := flusher.Size();
      if size > 0 {
        Flush();
        timerWaiting := true;
      }
    }

    /** The `finally` block up to its first await. */
    method LeaveLoop()
      requires Valid()
      modifies this, flusher
      ensures Valid() && View() == Batcher.LeaveLoop(old(View()))
    {
      batchTimer := false;
      var flushing := flusher.IsFlushing();
      if flushing {
        loop := DrainJoin;
      } else {
        FinalFlush();
      }
    }

    method FinalFlush()
      requires Valid()
      modifies this, flusher
      ensures Valid() && View() == Batcher.FinalFlush(old(View()))
    {
      var size := flusher.Size();
      if size > 0 {
        Flush();
        loop := DrainFlush;
      } else {
        loop := Ended(true);
      }
    }

    // -------------------------------------------------------------------------
    // The flush handler
    // -------------------------------------------------------------------------

    /** The flusher takes the outcome; a failure re-arms the timer if a flushBatch is waiting. */
    method Release(ok: bool)
      requires Valid() && !handler.NoHandler?
      modifies this`handler, this`batchTimer, this`timerWaiting, flusher
      ensures Valid() && DataView() == Settle(old(DataView()), ok)
      ensures ControlView() == old(ControlView()).(
        timerArmed := old(batchTimer) || (!ok && !shouldStop && DataView().flusher.pending != [] && (old(timerWaiting) || loop.AwaitFlush?)),
        timerWaiting := false)
    {
      flusher.Settle(ok);
      handler := NoHandler;
      var size := flusher.Size();
      if !ok && !shouldStop && size > 0 && (timerWaiting || loop.AwaitFlush?) {
        batchTimer := true;
      }
      timerWaiting := false;
    }

    /** The handler's promise settles, and whoever awaits it goes on. */
    method SettleFlush(ok: bool)
      requires Valid() && !handler.NoHandler?
      modifies this, flusher
      ensures Valid() && View() == SettleAndResume(old(View()), ok)
    {
      hide Settle, Batcher.FinalFlush;
      Release(ok);
      if loop.AwaitFlush? {
        loop := Reading;
      } else if loop.DrainJoin? {
        FinalFlush();
      } else if loop.DrainFlush? {
        loop := Ended(ok);
      }
    }

    /** The catch of produceBatch. */
    method ProduceFails()
      requires Valid() && !handler.NoHandler?
      modifies this, flusher
      ensures Valid() && View() == Batcher.ProduceFails(old(View()))
    {
      hide SettleAndResume;
      produceFailure := produceFailure + 1;
      SettleFlush(false);
    }

    /** publishPoisonToDlq resolves or rejects; produceBatch starts. */
    method OnPoisonSent(ok: bool, landed: seq<DlqMessage>)
      requires Valid() && handler.PoisonSend?
      requires Delivered(ok, landed, ToDlqAll(PoisonOf(flusher.View().Flying()), ParseError))
      modifies this, flusher
      ensures Valid() && View() == Step(config, old(View()), DlqSendDone(ok, landed))
    {
      hide SettleAndResume, PoisonOf, ToDlqAll;
      dlq := dlq + landed;
      if !ok {
        SettleFlush(false);
        return;
      }
      var validItems := ValidOf(flusher.flushPromise.value);
      if |validItems| == 0 {
        handler := CommitOffsets;
      } else if exists it <- validItems :: it.kind.Valid? && !config.formats(it.kind.sensorId) {
        SettleFlush(false);
      } else {
        handler := Fit;
      }
    }

    /** After the oversized events. */
    method SendBatches(fitted: seq<FittedBatch<Item>>)
      requires Valid() && !handler.NoHandler?
      modifies this`batchesSplit, this`handler
      ensures Valid() && View() == ToBatchedSend(old(View()), fitted)
    {
      if |fitted| > 1 {
        batchesSplit := batchesSplit + 1;
      }
      handler := if |fitted| > 0 then BatchedSend else CommitOffsets;
    }

    /** fitBatch resolves, or the compressor failed. */
    method OnFit(ok: bool)
      requires Valid() && handler.Fit?
      modifies this, flusher
      ensures Valid() && View() == Step(config, old(View()), FitDone(ok))
    {
      hide Fitting, ToBatchedSend, Batcher.ProduceFails;
      if !ok {
        ProduceFails();
        return;
      }
      var outcome := Fitting(config, flusher.flushPromise.value);
      if |outcome.oversized| > 0 {
        oversizedEvents := oversizedEvents + |outcome.oversized|;
        handler := OversizedSend;
      } else {
        SendBatches(outcome.batches);
      }
    }

    method OnOversizedSent(ok: bool, landed: seq<DlqMessage>)
      requires Valid() && handler.OversizedSend?
      requires Delivered(ok, landed, ToDlqAll(Events(Fitting(config, flusher.View().Flying()).oversized), TooLarge))
      modifies this, flusher
      ensures Valid() && View() == Step(config, old(View()), DlqSendDone(ok, landed))
    {
      hide Fitting, ToBatchedSend, Batcher.ProduceFails, ToDlqAll;
      dlq := dlq + landed;
      if ok {
        SendBatches(Fitting(config, flusher.flushPromise.value).batches);
      } else {
        ProduceFails();
      }
    }

    /** The loop that counts what was produced. */
    method CountProduced(fitted: seq<FittedBatch<Item>>)
      modifies this`batchesProduced, this`eventsBatched
      ensures batchesProduced == old(batchesProduced) + |fitted|
      ensures eventsBatched == old(eventsBatched) + SumEvents(fitted)
    {
      for i := 0 to |fitted|
        invariant batchesProduced == old(batchesProduced) + i
        invariant eventsBatched == old(eventsBatched) + SumEvents(fitted[..i])
      {
        batchesProduced := batchesProduced + 1;
        eventsBatched := eventsBatched + |fitted[i].events|;
        assert Front(fitted[..i + 1]) == fitted[..i];
      }
      assert fitted[..|fitted|] == fitted;
    }

    method OnBatchedSent(ok: bool, placed: seq<Placed>)
      requires Valid() && handler.BatchedSend?
      requires PlacedAs(ok, placed, ToMessages(config, Fitting(config, flusher.View().Flying()).batches), |batched|)
      modifies this, flusher
      ensures Valid() && View() == Step(config, old(View()), BatchedSendDone(ok, placed))
    {
      hide Fitting, ToMessages, Batcher.ProduceFails, SumEvents, Place;
      batched := Place(batched, placed);
      if ok {
        CountProduced(Fitting(config, flusher.flushPromise.value).batches);
        handler := CommitOffsets;
      } else {
        ProduceFails();
      }
    }

    /** The commit resolves or rejects, having landed for `partitions`. */
    method OnCommitted(ok: bool, partitions: set<nat>)
      requires Valid() && handler.CommitOffsets?
      requires ok ==> forall it <- flusher.View().Flying() :: it.partition in partitions
      modifies this, flusher
      ensures Valid() && View() == Step(config, old(View()), CommitDone(ok, partitions))
    {
      hide SettleAndResume, MaxOffset, Touches;
      var before, offsets := committed, offsetsByPartition;
      committed := seq(|before|, p requires 0 <= p < |before| => if p in partitions && p in offsets then offsets[p] else before[p]);
      assert committed == CommitInto(old(committed), flusher.flushPromise.value, partitions);
      SettleFlush(ok);
    }

    // -------------------------------------------------------------------------
    // All of it
    // -------------------------------------------------------------------------

    /** The code that a consumer, timer or stop event has run next, if it is due. */
    method HandleLoopEvent(e: Event)
      requires Valid() && !e.Crash? && !e.DlqSendDone? && !e.FitDone? && !e.BatchedSendDone? && !e.CommitDone?
      modifies this, flusher
      ensures Valid() && View() == Step(config, old(View()), e)
    {
      match e
      case TopicGrows(grown) =>
        if Grows(log, grown) {
          log := grown;
        }
      case Start => Start();
      case Stop => Stop();
      case StreamEnds =>
        if loop.Reading? {
          OnStreamEnd();
        }
      case Deliver(p) =>
        if loop.Reading? && p < |cursor| == |log| && cursor[p] < |log[p]| {
          OnMessage(p);
        }
      case Lag(lag) =>
        if loop.LagCheck? {
          OnLag(lag);
        }
      case TimerFires =>
        if batchTimer {
          OnTimer();
        }
    }

    /** The code that an answer of Kafka or the compressor resumes, if the handler awaits it. */
    method HandleAnswer(e: Event)
      requires Valid() && (e.DlqSendDone? || e.FitDone? || e.BatchedSendDone? || e.CommitDone?)
      modifies this, flusher
      ensures Valid() && View() == Step(config, old(View()), e)
    {
      if handler.NoHandler? {
        return;
      }
      var batch := flusher.flushPromise.value;
      match e
      case DlqSendDone(ok, landed) =>
        if handler.PoisonSend? && Delivered(ok, landed, ToDlqAll(PoisonOf(batch), ParseError)) {
          OnPoisonSent(ok, landed);
        } else if handler.OversizedSend? && Delivered(ok, landed, ToDlqAll(Events(Fitting(config, batch).oversized), TooLarge)) {
          OnOversizedSent(ok, landed);
        }
      case FitDone(ok) =>
        if handler.Fit? {
          OnFit(ok);
        }
      case BatchedSendDone(ok, placed) =>
        if handler.BatchedSend? && PlacedAs(ok, placed, ToMessages(config, Fitting(config, batch).batches), |batched|) {
          OnBatchedSent(ok, placed);
        }
      case CommitDone(ok, partitions) =>
        if handler.CommitOffsets? && (ok ==> forall it <- batch :: it.partition in partitions) {
          OnCommitted(ok, partitions);
        }
    }

    method Handle(e: Event)
      requires Valid() && !e.Crash?
      modifies this, flusher
      ensures Valid() && View() == Step(config, old(View()), e)
    {
      if e.DlqSendDone? || e.FitDone? || e.BatchedSendDone? || e.CommitDone? {
        HandleAnswer(e);
      } else {
        HandleLoopEvent(e);
      }
    }
  }

  /**
   * The batcher through any history, from its first deployment: each crash is followed by
   * a new process over what Kafka has kept. Its state is that of the machine's run, so no
   * record below a committed offset is lost.
   */
  method Operate(config: Config, log: seq<seq<Record>>, batchedPartitions: nat, es: seq<Event>) returns (service: BatcherService)
    ensures fresh(service) && fresh(service.flusher) && service.Valid() && service.config == config
    ensures service.View() == After(config, log, batchedPartitions, es)
    ensures BatcherSafety.NoLoss(service.View().data)
  {
    service := new BatcherService(config, log, batchedPartitions);
    for i := 0 to |es|
      invariant fresh(service) && fresh(service.flusher) && service.Valid() && service.config == config
      invariant service.View() == After(config, log, batchedPartitions, es[..i])
    {
      assert Front(es[..i + 1]) == es[..i];
      if es[i].Crash? {
        service := new BatcherService.Restart(config, service.log, service.committed, service.dlq, service.batched);
      } else {
        service.Handle(es[i]);
      }
    }
    assert es[..|es|] == es;
    BatcherSafety.NoRecordIsLost(config, log, batchedPartitions, es);
  }

  lemma AddAllIsAdds(f: Flusher<Item>, items: seq<Item>)
    requires 1 <= |items| <= 2
    ensures AddAll(f, items) == if |items| == 1 then f.Add(items[0]) else f.Add(items[0]).Add(items[1])
  {
    assert AddAll(f, []) == f;
    assert Front(items) == if |items| == 1 then [] else [items[0]];
    assert Front([items[0]]) == [];
    assert AddAll(f, [items[0]]) == f.Add(items[0]);
  }
}
