/** What the batcher's counters say, in every reachable state. */
module BatcherCounters {
  import opened Common
  import opened PayloadBuilder
  import opened BatchFlushing
  import opened Batcher

  /** Events of the batch in flight that the counters already account for. */
  function Underway(c: Config, d: Data): nat {
    if d.handler.OversizedSend? || d.handler.BatchedSend? then |Fitting(c, d.flusher.Flying()).oversized|
    else if d.handler.CommitOffsets? then |ValidOf(d.flusher.Flying())|
    else 0
  }

  /**
   * consumed counts the valid items this process added; every valid item handled is
   * counted as batched or as oversized (more than once if a batch was retried).
   */
  ghost predicate Counted(c: Config, d: Data, m: Metrics) {
    && (d.handler.NoHandler? <==> d.flusher.inFlight.None?)
    && m.consumed == |ValidOf(d.flusher.added)|
    && |ValidOf(d.flusher.handled)| + Underway(c, d) <= m.eventsBatched + m.oversizedEvents
  }

  lemma {:induction false} ValidOfConcat(a: seq<Item>, b: seq<Item>)
    ensures ValidOf(a + b) == ValidOf(a) + ValidOf(b)
  {
    if b == [] {
      assert a + b == a;
    } else {
      ValidOfConcat(a, Front(b));
      assert Front(a + b) == a + Front(b);
    }
  }

  lemma {:induction false} SumEventsConcat(a: seq<FittedBatch<Item>>, b: seq<FittedBatch<Item>>)
    ensures SumEvents(a + b) == SumEvents(a) + SumEvents(b)
  {
    if b == [] {
      assert a + b == a;
    } else {
      SumEventsConcat(a, Front(b));
      assert Front(a + b) == a + Front(b);
    }
  }

  /** Every event of a fit is counted once: in one payload, or as oversized. */
  lemma {:induction false} FitAddsUp(events: seq<Item>, limit: int, codec: Codec<Item>)
    ensures var r := FitBatch(events, limit, codec);
      SumEvents(r.batches) + |r.oversized| == |events|
    decreases |events|
  {
    if |events| > 1 && !Fits(events, limit, codec) {
      var middle := (|events| + 1) / 2;
      FitAddsUp(events[..middle], limit, codec);
      FitAddsUp(events[middle..], limit, codec);
      SumEventsConcat(FitBatch(events[..middle], limit, codec).batches, FitBatch(events[middle..], limit, codec).batches);
    }
  }

  /** The same of the whole state; a process that is down does nothing and has counted nothing. */
  ghost predicate CountedIn(c: Config, s: State) {
    && Counted(c, s.data, s.control.metrics)
    && (s.control.loop.Down? ==> s.control.metrics == ZERO_METRICS && s.data.handler.NoHandler? && !s.control.timerArmed)
  }

  lemma DetachCounts(c: Config, d: Data, m: Metrics)
    requires Counted(c, d, m)
    ensures Counted(c, Detach(d), m)
  {
  }

  lemma SettleCounts(c: Config, d: Data, m: Metrics, ok: bool)
    requires Counted(c, d, m) && d.flusher.inFlight.Some? && (ok ==> d.handler.CommitOffsets?)
    ensures Counted(c, Settle(d, ok), m)
  {
    ValidOfConcat(d.flusher.handled, d.flusher.Flying());
  }

  lemma FinalFlushCounts(c: Config, s: State)
    requires CountedIn(c, s) && !s.control.loop.Down?
    ensures CountedIn(c, FinalFlush(s))
  {
    DetachCounts(c, s.data, s.control.metrics);
    hide Counted, Detach;
  }

  lemma ResumeCounts(c: Config, s: State, ok: bool)
    requires CountedIn(c, s) && s.data.flusher.inFlight.Some? && (ok ==> s.data.handler.CommitOffsets?)
    ensures CountedIn(c, SettleAndResume(s, ok))
  {
    assert !s.control.loop.Down?;
    SettleCounts(c, s.data, s.control.metrics, ok);
    hide Counted, Settle, Detach, FinalFlush;
    var d := Settle(s.data, ok);
    var k := s.control;
    var rearm := !ok && !k.stopping && d.flusher.pending != [] && (k.timerWaiting || k.loop.AwaitFlush?);
    if k.loop.DrainJoin? {
      FinalFlushCounts(c, State(d, k.(timerArmed := k.timerArmed || rearm, timerWaiting := false)));
    }
  }

  lemma ProduceFailsCounts(c: Config, s: State)
    requires CountedIn(c, s) && s.data.flusher.inFlight.Some?
    ensures CountedIn(c, ProduceFails(s))
  {
    hide SettleAndResume;
    var m := s.control.metrics;
    ResumeCounts(c, s.(control := s.control.(metrics := m.(produceFailure := m.produceFailure + 1))), false);
  }

  lemma {:induction false} AddAllAdds(f: Flusher<Item>, items: seq<Item>)
    ensures AddAll(f, items).added == f.added + items
    ensures AddAll(f, items).handled == f.handled && AddAll(f, items).inFlight == f.inFlight
  {
    if items == [] {
      assert f.added + items == f.added;
    } else {
      AddAllAdds(f, Front(items));
      assert items == Front(items) + [Last(items)];
    }
  }

  lemma OneValidItem(c: Config, r: Record, p: nat, offset: nat)
    ensures |ValidOf(ItemsOf(c, r, p, offset))| == if r.Authorized? then 1 else 0
  {
    var items := ItemsOf(c, r, p, offset);
    assert ValidOf([]) == [];
    if |items| == 2 {
      assert Front(items) == [items[0]] && Front([items[0]]) == [];
    } else if |items| == 1 {
      assert Front(items) == [];
    }
  }

  lemma ReceiveCounts(c: Config, s: State, p: nat)
    requires CountedIn(c, s) && s.control.loop.Reading?
    requires p < |s.data.cursor| == |s.data.log| && s.data.cursor[p] < |s.data.log[p]|
    ensures CountedIn(c, Received(c, s, p))
  {
    var r := s.data.log[p][s.data.cursor[p]];
    var items := ItemsOf(c, r, p, s.data.cursor[p]);
    AddAllAdds(s.data.flusher, items);
    ValidOfConcat(s.data.flusher.added, items);
    OneValidItem(c, r, p, s.data.cursor[p]);
    hide ItemsOf, AddAll, ValidOf, Fitting;
  }

  lemma ConsumeCounts(c: Config, s: State, p: nat)
    requires CountedIn(c, s) && s.control.loop.Reading?
    requires p < |s.data.cursor| == |s.data.log| && s.data.cursor[p] < |s.data.log[p]|
    ensures CountedIn(c, Consume(c, s, p))
  {
    ReceiveCounts(c, s, p);
    hide Received, Counted, Detach;
    DetachCounts(c, Received(c, s, p).data, Received(c, s, p).control.metrics);
  }

  lemma LoopEventCounts(c: Config, s: State, e: Event)
    requires CountedIn(c, s)
    requires e.Deliver? || e.StreamEnds? || e.Lag? || e.TimerFires? || e.Stop?
    ensures CountedIn(c, Step(c, s, e))
  {
    if e.Deliver? && s.control.loop.Reading? && e.partition < |s.data.cursor| == |s.data.log| && s.data.cursor[e.partition] < |s.data.log[e.partition]| {
      ConsumeCounts(c, s, e.partition);
    }
    hide Counted, Consume, Detach;
    DetachCounts(c, s.data, s.control.metrics);
  }

  lemma FitCounts(c: Config, s: State, ok: bool)
    requires CountedIn(c, s) && s.data.handler.Fit?
    ensures CountedIn(c, AfterFit(c, s, ok))
  {
    if ok {
      FitAddsUp(ValidOf(s.data.flusher.Flying()), c.maxPayloadBytes, ItemCodec(c));
      assert SumEvents([]) == 0;
    } else {
      ProduceFailsCounts(c, s);
    }
  }

  lemma DlqSendCounts(c: Config, s: State, ok: bool, landed: seq<DlqMessage>)
    requires CountedIn(c, s)
    ensures CountedIn(c, DlqSent(c, s, ok, landed))
  {
    var s1 := s.(data := s.data.(dlq := s.data.dlq + landed));
    assert CountedIn(c, s1);
    if s.data.handler.PoisonSend? {
      ResumeCounts(c, s1, false);
    } else if s.data.handler.OversizedSend? {
      FitAddsUp(ValidOf(s.data.flusher.Flying()), c.maxPayloadBytes, ItemCodec(c));
      assert SumEvents([]) == 0;
      ProduceFailsCounts(c, s1);
    }
    hide SettleAndResume, ProduceFails, Delivered, ToDlqAll, PoisonOf, FitBatch;
  }

  lemma BatchedSendCounts(c: Config, s: State, ok: bool, placed: seq<Placed>)
    requires CountedIn(c, s)
    ensures CountedIn(c, BatchedSent(c, s, ok, placed))
  {
    hide Place;
    if BatchedSent(c, s, ok, placed) != s {
      var s1 := s.(data := s.data.(batched := Place(s.data.batched, placed)));
      assert CountedIn(c, s1);
      FitAddsUp(ValidOf(s.data.flusher.Flying()), c.maxPayloadBytes, ItemCodec(c));
      if !ok {
        ProduceFailsCounts(c, s1);
      }
    }
  }

  lemma CommitCounts(c: Config, s: State, ok: bool, partitions: set<nat>)
    requires CountedIn(c, s)
    ensures CountedIn(c, CommitReturned(s, ok, partitions))
  {
    hide CommitInto, SettleAndResume;
    if s.data.handler.CommitOffsets? {
      ResumeCounts(c, s.(data := s.data.(committed := CommitInto(s.data.committed, s.data.flusher.Flying(), partitions))), ok);
    }
  }

  lemma StepCounts(c: Config, s: State, e: Event)
    requires CountedIn(c, s)
    ensures CountedIn(c, Step(c, s, e))
  {
    hide DlqSent, BatchedSent, CommitReturned, AfterFit;
    match e
    case DlqSendDone(ok, landed) => DlqSendCounts(c, s, ok, landed);
    case FitDone(ok) => if s.data.handler.Fit? { FitCounts(c, s, ok); }
    case BatchedSendDone(ok, placed) => BatchedSendCounts(c, s, ok, placed);
    case CommitDone(ok, partitions) => CommitCounts(c, s, ok, partitions);
    case TopicGrows(_) =>
    case Crash =>
    case Start =>
    case _ => LoopEventCounts(c, s, e);
  }

  /** The counters of every reachable state account for what was consumed and handled. */
  lemma {:induction false} CountersAddUp(c: Config, log: seq<seq<Record>>, batchedPartitions: nat, es: seq<Event>)
    ensures CountedIn(c, After(c, log, batchedPartitions, es))
  {
    if es != [] {
      CountersAddUp(c, log, batchedPartitions, Front(es));
      StepCounts(c, After(c, log, batchedPartitions, Front(es)), Last(es));
    }
  }
}
