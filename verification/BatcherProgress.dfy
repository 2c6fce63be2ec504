/** When a flush succeeds: if its awaits do, provided that the sensor ids of its batch format. */
module BatcherProgress {
  import opened Common
  import opened PayloadBuilder
  import opened BatchFlushing
  import opened Batcher
  import BatcherCounters
  import BatcherSafety

  lemma RunOne(c: Config, s: State, e: Event)
    ensures Run(c, s, [e]) == Step(c, s, e)
  {
    assert Front([e]) == [];
  }

  lemma {:induction false} RunConcat(c: Config, s: State, a: seq<Event>, b: seq<Event>)
    ensures Run(c, s, a + b) == Run(c, Run(c, s, a), b)
  {
    if b == [] {
      assert a + b == a;
    } else {
      assert Front(a + b) == a + Front(b) && Last(a + b) == Last(b);
      RunConcat(c, s, a, Front(b));
    }
  }

  function PartitionsOf(batch: seq<Item>): set<nat> {
    set it <- batch :: it.partition
  }

  /** Every message placed on partition 0. */
  function PlaceAll(messages: seq<BatchedMessage>): seq<Placed> {
    seq(|messages|, i requires 0 <= i < |messages| => Placed(0, messages[i]))
  }

  /** The sends of a handler that meets no failure: poison, then oversized and fitted events if there are any. */
  function Sends(c: Config, batch: seq<Item>): seq<Event> {
    var poison := [DlqSendDone(true, ToDlqAll(PoisonOf(batch), ParseError))];
    if ValidOf(batch) == [] then poison
    else poison + ([FitDone(true)] + (OversizedSends(c, batch) + FittedSends(c, batch)))
  }

  function OversizedSends(c: Config, batch: seq<Item>): seq<Event> {
    var oversized := Fitting(c, batch).oversized;
    if oversized == [] then [] else [DlqSendDone(true, ToDlqAll(Events(oversized), TooLarge))]
  }

  function FittedSends(c: Config, batch: seq<Item>): seq<Event> {
    var fitted := Fitting(c, batch).batches;
    if fitted == [] then [] else [BatchedSendDone(true, PlaceAll(ToMessages(c, fitted)))]
  }

  ghost predicate Formats(c: Config, batch: seq<Item>) {
    forall it <- ValidOf(batch) :: it.kind.Valid? ==> c.formats(it.kind.sensorId)
  }

  /** The state at an await of the handler: as at the start of the flush except for what was sent and counted. */
  ghost predicate At(s: State, handler: Handler, batched: seq<seq<BatchedMessage>>, s1: State) {
    && s1.data == s.data.(handler := handler, dlq := s1.data.dlq, batched := batched)
    && s1.control == s.control.(metrics := s1.control.metrics)
  }

  function AppendTo(batched: seq<seq<BatchedMessage>>, messages: seq<BatchedMessage>): seq<seq<BatchedMessage>>
    requires batched != []
  {
    batched[0 := batched[0] + messages]
  }

  lemma {:induction false} PlaceAllAppends(batched: seq<seq<BatchedMessage>>, messages: seq<BatchedMessage>)
    requires batched != []
    ensures forall pl <- PlaceAll(messages) :: pl.partition < |batched|
    ensures Place(batched, PlaceAll(messages)) == AppendTo(batched, messages)
  {
    if messages == [] {
      assert PlaceAll(messages) == [] && batched[0] + [] == batched[0];
    } else {
      PlaceAllAppends(batched, Front(messages));
      assert Front(PlaceAll(messages)) == PlaceAll(Front(messages));
      assert messages == Front(messages) + [Last(messages)];
      assert batched[0] + Front(messages) + [Last(messages)] == batched[0] + messages;
    }
  }

  lemma AppendNothing(c: Config, batched: seq<seq<BatchedMessage>>)
    requires batched != []
    ensures AppendTo(batched, ToMessages(c, [])) == batched
  {
    assert ToMessages(c, []) == [] && batched[0] + [] == batched[0];
  }

  /** What a fit that is sent adds to the counters: the oversized events first, then a split, then what was produced. */
  function Rejecting(m: Metrics, r: FitOutcome<Item>): Metrics {
    m.(oversizedEvents := m.oversizedEvents + |r.oversized|)
  }

  function Splitting(m: Metrics, r: FitOutcome<Item>): Metrics {
    m.(batchesSplit := m.batchesSplit + (if |r.batches| > 1 then 1 else 0))
  }

  function Producing(m: Metrics, r: FitOutcome<Item>): Metrics {
    m.(batchesProduced := m.batchesProduced + |r.batches|, eventsBatched := m.eventsBatched + SumEvents(r.batches))
  }

  lemma PoisonPasses(c: Config, s: State)
    requires s.data.handler.PoisonSend? && Formats(c, s.data.flusher.Flying())
    ensures var batch := s.data.flusher.Flying();
      var s1 := Step(c, s, DlqSendDone(true, ToDlqAll(PoisonOf(batch), ParseError)));
      At(s, if ValidOf(batch) == [] then CommitOffsets else Fit, s.data.batched, s1) && s1.control.metrics == s.control.metrics
  {
    hide PoisonOf, ToDlqAll, ValidOf;
  }

  lemma FitPasses(c: Config, s: State)
    requires s.data.handler.Fit?
    ensures var r := Fitting(c, s.data.flusher.Flying());
      At(s, if r.oversized != [] then OversizedSend else if r.batches != [] then BatchedSend else CommitOffsets,
         s.data.batched, Step(c, s, FitDone(true)))
      && Step(c, s, FitDone(true)).control.metrics
         == if r.oversized != [] then Rejecting(s.control.metrics, r) else Splitting(s.control.metrics, r)
  {
    hide Fitting;
  }

  lemma OversizedPasses(c: Config, s: State)
    requires s.data.handler.OversizedSend?
    ensures var r := Fitting(c, s.data.flusher.Flying());
      var s1 := Step(c, s, DlqSendDone(true, ToDlqAll(Events(r.oversized), TooLarge)));
      r.oversized != [] ==>
        && At(s, if r.batches != [] then BatchedSend else CommitOffsets, s.data.batched, s1)
        && s1.control.metrics == Splitting(s.control.metrics, r)
  {
    hide Fitting;
    var r := Fitting(c, s.data.flusher.Flying());
    if r.oversized != [] {
      assert |ToDlqAll(Events(r.oversized), TooLarge)| == |r.oversized|;
    }
    hide ToDlqAll, Events;
  }

  lemma FittedPasses(c: Config, s: State)
    requires s.data.handler.BatchedSend? && s.data.batched != []
    ensures var messages := ToMessages(c, Fitting(c, s.data.flusher.Flying()).batches);
      && At(s, CommitOffsets, AppendTo(s.data.batched, messages), Step(c, s, BatchedSendDone(true, PlaceAll(messages))))
      && Step(c, s, BatchedSendDone(true, PlaceAll(messages))).control.metrics
         == Producing(s.control.metrics, Fitting(c, s.data.flusher.Flying()))
  {
    hide Fitting, Place, SumEvents;
    var messages := ToMessages(c, Fitting(c, s.data.flusher.Flying()).batches);
    hide ToMessages;
    PlaceAllAppends(s.data.batched, messages);
    forall m <- messages ensures exists pl <- PlaceAll(messages) :: pl.message == m {
      var i :| 0 <= i < |messages| && messages[i] == m;
      assert PlaceAll(messages)[i] in PlaceAll(messages);
    }
    hide AppendTo;
  }

  lemma FittedSendsPass(c: Config, s: State)
    requires s.data.batched != []
    requires var r := Fitting(c, s.data.flusher.Flying());
      s.data.handler == if r.oversized != [] then OversizedSend else if r.batches != [] then BatchedSend else CommitOffsets
    ensures var batch := s.data.flusher.Flying();
      At(s, CommitOffsets, AppendTo(s.data.batched, ToMessages(c, Fitting(c, batch).batches)),
         Run(c, s, OversizedSends(c, batch) + FittedSends(c, batch)))
      && Run(c, s, OversizedSends(c, batch) + FittedSends(c, batch)).control.metrics
         == var r := Fitting(c, batch);
            Producing(if r.oversized != [] then Splitting(s.control.metrics, r) else s.control.metrics, r)
  {
    hide Fitting;
    var batch := s.data.flusher.Flying();
    var first, second := OversizedSends(c, batch), FittedSends(c, batch);
    var s1 := Run(c, s, first);
    if first != [] {
      RunOne(c, s, first[0]);
      OversizedPasses(c, s);
    }
    if second != [] {
      RunOne(c, s1, second[0]);
      hide Step, AppendTo;
      FittedPasses(c, s1);
    } else {
      AppendNothing(c, s.data.batched);
      assert SumEvents([]) == 0;
    }
    RunConcat(c, s, first, second);
    hide Run, Step, OversizedSends, AppendTo;
  }

  /** The sends of a batch with valid items, behind the poison. */
  lemma ValidSendsPass(c: Config, s: State)
    requires s.data.handler.Fit? && s.data.batched != []
    ensures var batch := s.data.flusher.Flying();
      var r, s1 := Fitting(c, batch), Run(c, s, [FitDone(true)] + (OversizedSends(c, batch) + FittedSends(c, batch)));
      && At(s, CommitOffsets, AppendTo(s.data.batched, ToMessages(c, r.batches)), s1)
      && s1.control.metrics == Producing(Splitting(Rejecting(s.control.metrics, r), r), r)
  {
    hide Step, Fitting, PoisonOf, ValidOf, ToDlqAll, AppendTo, SumEvents;
    var batch := s.data.flusher.Flying();
    var s2 := Step(c, s, FitDone(true));
    RunOne(c, s, FitDone(true));
    FitPasses(c, s);
    FittedSendsPass(c, s2);
    hide Run;
    RunConcat(c, s, [FitDone(true)], OversizedSends(c, batch) + FittedSends(c, batch));
  }

  /** A handler that meets no failure publishes its whole fit, counts it, and comes to its commit. */
  lemma SendsPublish(c: Config, s: State)
    requires s.data.handler.PoisonSend? && Formats(c, s.data.flusher.Flying()) && s.data.batched != []
    ensures var batch := s.data.flusher.Flying();
      var r, m, s1 := Fitting(c, batch), s.control.metrics, Run(c, s, Sends(c, batch));
      && At(s, CommitOffsets, AppendTo(s.data.batched, ToMessages(c, r.batches)), s1)
      && |r.oversized| <= |ValidOf(batch)|
      && s1.control.metrics == m.(
           oversizedEvents := m.oversizedEvents + |r.oversized|,
           eventsBatched := m.eventsBatched + (|ValidOf(batch)| - |r.oversized|),
           batchesProduced := m.batchesProduced + |r.batches|,
           batchesSplit := m.batchesSplit + (if |r.batches| > 1 then 1 else 0))
  {
    var batch := s.data.flusher.Flying();
    var poison := DlqSendDone(true, ToDlqAll(PoisonOf(batch), ParseError));
    var s1 := Step(c, s, poison);
    RunOne(c, s, poison);
    BatcherCounters.FitAddsUp(ValidOf(batch), c.maxPayloadBytes, ItemCodec(c));
    PoisonPasses(c, s);
    if ValidOf(batch) == [] {
      assert Fitting(c, batch) == FitOutcome([], []);
      AppendNothing(c, s.data.batched);
      hide Step, Fitting, PoisonOf, ValidOf, ToDlqAll;
    } else {
      hide Step, Run, FitBatch, PoisonOf, ValidOf, ToDlqAll, AppendTo, SumEvents, OversizedSends, FittedSends, ToMessages;
      ValidSendsPass(c, s1);
      RunConcat(c, s, [poison], [FitDone(true)] + (OversizedSends(c, batch) + FittedSends(c, batch)));
    }
  }

  /** A handler that meets no failure up to its batched send. */
  function BeforeTheSend(c: Config, batch: seq<Item>): seq<Event> {
    [DlqSendDone(true, ToDlqAll(PoisonOf(batch), ParseError))] + ([FitDone(true)] + OversizedSends(c, batch))
  }

  lemma SendIsReached(c: Config, s: State)
    requires s.data.handler.PoisonSend? && Formats(c, s.data.flusher.Flying())
    requires Fitting(c, s.data.flusher.Flying()).batches != []
    ensures At(s, BatchedSend, s.data.batched, Run(c, s, BeforeTheSend(c, s.data.flusher.Flying())))
    ensures Run(c, s, BeforeTheSend(c, s.data.flusher.Flying())).control.metrics
      == var r := Fitting(c, s.data.flusher.Flying()); Splitting(Rejecting(s.control.metrics, r), r)
  {
    var batch := s.data.flusher.Flying();
    var poison := DlqSendDone(true, ToDlqAll(PoisonOf(batch), ParseError));
    var s1 := Step(c, s, poison);
    var s2 := Step(c, s1, FitDone(true));
    var oversized := OversizedSends(c, batch);
    assert ValidOf(batch) != [];
    hide Step, Fitting, PoisonOf, ValidOf, ToDlqAll;
    PoisonPasses(c, s);
    FitPasses(c, s1);
    RunOne(c, s, poison);
    RunOne(c, s1, FitDone(true));
    if oversized != [] {
      OversizedPasses(c, s2);
      RunOne(c, s2, oversized[0]);
    }
    assert At(s, BatchedSend, s.data.batched, Run(c, s2, oversized));
    var r := Fitting(c, batch);
    assert Run(c, s2, oversized).control.metrics == Splitting(Rejecting(s.control.metrics, r), r);
    hide Run, OversizedSends;
    RunConcat(c, s1, [FitDone(true)], oversized);
    RunConcat(c, s, [poison], [FitDone(true)] + oversized);
  }

  /** The flush is over, successfully: the batch is handled and committed. */
  ghost predicate Succeeded(s: State, s1: State) {
    var batch := s.data.flusher.Flying();
    && s1.data.flusher.handled == s.data.flusher.handled + batch
    && |s1.data.committed| == |s.data.committed|
    && forall p :: 0 <= p < |s.data.committed| && Touches(batch, p) ==> s1.data.committed[p] == MaxOffset(batch, p, 0)
  }

  lemma CommitPasses(c: Config, s: State)
    requires s.data.handler.CommitOffsets? && s.data.flusher.inFlight.Some?
    ensures Succeeded(s, Step(c, s, CommitDone(true, PartitionsOf(s.data.flusher.Flying()))))
  {
    hide MaxOffset;
  }

  /** From the moment its batch is detached, a flush can always succeed. */
  lemma SmoothFlushSucceeds(c: Config, s: State)
    requires s.data.handler.PoisonSend? && s.data.flusher.inFlight.Some?
    requires Formats(c, s.data.flusher.Flying()) && s.data.batched != []
    ensures var batch := s.data.flusher.Flying();
      Succeeded(s, Run(c, s, Sends(c, batch) + [CommitDone(true, PartitionsOf(batch))]))
  {
    hide Step, Run, Fitting, Sends, AppendTo, ToMessages;
    var batch := s.data.flusher.Flying();
    var commit := CommitDone(true, PartitionsOf(batch));
    SendsPublish(c, s);
    RunOne(c, Run(c, s, Sends(c, batch)), commit);
    CommitPasses(c, Run(c, s, Sends(c, batch)));
    RunConcat(c, s, Sends(c, batch), [commit]);
  }

  // ---------------------------------------------------------------------------
  // Every flush whose awaits succeed
  // ---------------------------------------------------------------------------

  /** The event resumes the handler from the await it is suspended on. */
  ghost predicate Answers(c: Config, s: State, e: Event) {
    var batch := s.data.flusher.Flying();
    match e
    case DlqSendDone(ok, landed) =>
      || (s.data.handler.PoisonSend? && Delivered(ok, landed, ToDlqAll(PoisonOf(batch), ParseError)))
      || (s.data.handler.OversizedSend? && Delivered(ok, landed, ToDlqAll(Events(Fitting(c, batch).oversized), TooLarge)))
    case FitDone(_) => s.data.handler.Fit?
    case BatchedSendDone(ok, placed) =>
      s.data.handler.BatchedSend? && PlacedAs(ok, placed, ToMessages(c, Fitting(c, batch).batches), |s.data.batched|)
    case CommitDone(ok, partitions) =>
      s.data.handler.CommitOffsets? && (ok ==> forall it <- batch :: it.partition in partitions)
    case _ => false
  }

  predicate Succeeds(e: Event) {
    match e
    case DlqSendDone(ok, _) => ok
    case FitDone(ok) => ok
    case BatchedSendDone(ok, _) => ok
    case CommitDone(ok, _) => ok
    case _ => true
  }

  function Rank(h: Handler): nat {
    match h
    case NoHandler => 0
    case PoisonSend => 5
    case Fit => 4
    case OversizedSend => 3
    case BatchedSend => 2
    case CommitOffsets => 1
  }

  /** The flush of this batch still runs, with `answers` of its awaits answered. */
  ghost predicate StillFlying(s: State, batch: seq<Item>, handled: seq<Item>, answers: nat) {
    && s.data.flusher.inFlight == Some(batch) && s.data.flusher.handled == handled
    && s.data.handler != NoHandler
    && answers + Rank(s.data.handler) <= 5
  }

  /** The batch is among what was handled, right after what was handled before it. */
  ghost predicate Landed(s: State, batch: seq<Item>, handled: seq<Item>) {
    handled + batch <= s.data.flusher.handled
  }

  lemma ConsumeIsBeside(c: Config, s: State, p: nat)
    requires p < |s.data.cursor| == |s.data.log| && s.data.cursor[p] < |s.data.log[p]|
    ensures var d1 := Consume(c, s, p).data;
      && d1.flusher.handled == s.data.flusher.handled
      && (s.data.flusher.inFlight.Some? ==> d1.flusher.inFlight == s.data.flusher.inFlight && d1.handler == s.data.handler)
  {
    var o := s.data.cursor[p];
    BatcherCounters.AddAllAdds(s.data.flusher, ItemsOf(c, s.data.log[p][o], p, o));
    hide ItemsOf, AddAll;
  }

  predicate HandlerEvent(e: Event) {
    e.DlqSendDone? || e.FitDone? || e.BatchedSendDone? || e.CommitDone?
  }

  /** What the consumer, the timer and the topic do leaves the batch in flight and the handled ones alone. */
  lemma LoopEventIsBeside(c: Config, s: State, e: Event)
    requires !HandlerEvent(e) && !e.Crash?
    ensures var d1 := Step(c, s, e).data;
      && d1.flusher.handled == s.data.flusher.handled
      && (s.data.flusher.inFlight.Some? ==> d1.flusher.inFlight == s.data.flusher.inFlight && d1.handler == s.data.handler)
  {
    if e.Deliver? && e.partition < |s.data.cursor| == |s.data.log| && s.data.cursor[e.partition] < |s.data.log[e.partition]| {
      ConsumeIsBeside(c, s, e.partition);
    }
    hide Consume, Grows;
  }

  /** The flush settles successfully: whatever starts next, the batch is handled. */
  lemma SettlingLands(s: State)
    requires s.data.flusher.inFlight.Some?
    ensures SettleAndResume(s, true).data.flusher.handled == s.data.flusher.handled + s.data.flusher.inFlight.value
  {
  }

  lemma DlqAnswerAdvances(c: Config, s: State, e: Event, answers: nat)
    requires e.DlqSendDone? && s.data.flusher.inFlight.Some? && Formats(c, s.data.flusher.Flying())
    requires StillFlying(s, s.data.flusher.Flying(), s.data.flusher.handled, answers) && Answers(c, s, e) && Succeeds(e)
    ensures StillFlying(Step(c, s, e), s.data.flusher.Flying(), s.data.flusher.handled, answers + 1)
  {
    hide PoisonOf, ToDlqAll, ValidOf, Delivered, Fitting;
  }

  lemma AnswerAdvances(c: Config, s: State, e: Event, answers: nat)
    requires s.data.flusher.inFlight.Some? && Formats(c, s.data.flusher.Flying())
    requires StillFlying(s, s.data.flusher.Flying(), s.data.flusher.handled, answers) && Answers(c, s, e) && Succeeds(e)
    ensures var batch, handled := s.data.flusher.Flying(), s.data.flusher.handled;
      StillFlying(Step(c, s, e), batch, handled, answers + 1) || Landed(Step(c, s, e), batch, handled)
  {
    match e
    case DlqSendDone(_, _) => DlqAnswerAdvances(c, s, e, answers);
    case FitDone(_) => hide Fitting;
    case BatchedSendDone(ok, placed) => hide Fitting, PlacedAs, Place, SumEvents;
    case CommitDone(ok, partitions) =>
      var s1 := s.(data := s.data.(committed := CommitInto(s.data.committed, s.data.flusher.Flying(), partitions)));
      SettlingLands(s1);
      hide SettleAndResume, CommitInto;
    case _ =>
  }

  lemma OtherwiseNothing(c: Config, s: State, e: Event)
    requires HandlerEvent(e) && !Answers(c, s, e)
    ensures Step(c, s, e) == s
  {
    hide Delivered, ToDlqAll, PoisonOf, Fitting, PlacedAs, ToMessages, Events;
  }

  lemma SettlingCountsNothing(s: State, ok: bool)
    ensures SettleAndResume(s, ok).control.metrics == s.control.metrics
  {
  }

  lemma ProducingFails(s: State)
    ensures ProduceFails(s).control.metrics.produceFailure == s.control.metrics.produceFailure + 1
  {
    var m := s.control.metrics;
    SettlingCountsNothing(s.(control := s.control.(metrics := m.(produceFailure := m.produceFailure + 1))), false);
    hide SettleAndResume;
  }

  /** A failed fit and failed sends of what was fitted count as failures to produce; a failed poison send and a failed commit do not. */
  lemma FailuresAreCounted(c: Config, s: State, e: Event)
    requires HandlerEvent(e)
    ensures Step(c, s, e).control.metrics.produceFailure == s.control.metrics.produceFailure
      + (if Answers(c, s, e) && !Succeeds(e) && (s.data.handler.Fit? || s.data.handler.OversizedSend? || s.data.handler.BatchedSend?) then 1 else 0)
  {
    hide SettleAndResume, ProduceFails, Delivered, ToDlqAll, PoisonOf, Fitting, Place, ToMessages, Events, CommitInto, ValidOf, SumEvents;
    match e
    case DlqSendDone(ok, landed) =>
      SettlingCountsNothing(s.(data := s.data.(dlq := s.data.dlq + landed)), false);
      ProducingFails(s.(data := s.data.(dlq := s.data.dlq + landed)));
    case FitDone(ok) => ProducingFails(s);
    case BatchedSendDone(ok, placed) =>
      if forall pl <- placed :: pl.partition < |s.data.batched| {
        ProducingFails(s.(data := s.data.(batched := Place(s.data.batched, placed))));
      }
    case CommitDone(ok, partitions) =>
      SettlingCountsNothing(s.(data := s.data.(committed := CommitInto(s.data.committed, s.data.flusher.Flying(), partitions))), ok);
    case _ =>
  }

  lemma SettlingGrows(s: State, ok: bool)
    ensures s.data.flusher.handled <= SettleAndResume(s, ok).data.flusher.handled
  {
  }

  lemma HandlerEventGrows(c: Config, s: State, e: Event)
    requires HandlerEvent(e)
    ensures s.data.flusher.handled <= Step(c, s, e).data.flusher.handled
  {
    hide SettleAndResume, Delivered, ToDlqAll, PoisonOf, Fitting, PlacedAs, Place, ToMessages, Events, CommitInto, ValidOf, SumEvents;
    var m := s.control.metrics;
    var failing := s.control.(metrics := m.(produceFailure := m.produceFailure + 1));
    match e
    case DlqSendDone(ok, landed) =>
      var d := s.data.(dlq := s.data.dlq + landed);
      SettlingGrows(State(d, s.control), false);
      SettlingGrows(State(d, failing), false);
    case FitDone(ok) => SettlingGrows(State(s.data, failing), false);
    case BatchedSendDone(ok, placed) =>
      if Step(c, s, e) != s && !ok {
        BatchedSendGrows(c, s, placed);
      }
    case CommitDone(ok, partitions) =>
      SettlingGrows(s.(data := s.data.(committed := CommitInto(s.data.committed, s.data.flusher.Flying(), partitions))), ok);
    case _ =>
  }

  lemma BatchedSendGrows(c: Config, s: State, placed: seq<Placed>)
    ensures s.data.flusher.handled <= BatchedSent(c, s, false, placed).data.flusher.handled
  {
    hide SettleAndResume, Fitting, ToMessages, Place;
    if BatchedSent(c, s, false, placed) != s {
      var m := s.control.metrics;
      SettlingGrows(State(s.data.(batched := Place(s.data.batched, placed)), s.control.(metrics := m.(produceFailure := m.produceFailure + 1))), false);
    }
  }

  /** Only a crash forgets what was handled. */
  lemma HandledGrows(c: Config, s: State, e: Event)
    requires !e.Crash?
    ensures s.data.flusher.handled <= Step(c, s, e).data.flusher.handled
  {
    hide Step;
    if HandlerEvent(e) {
      HandlerEventGrows(c, s, e);
    } else {
      LoopEventIsBeside(c, s, e);
    }
  }

  /** Every answer the flush gets while this batch is in flight is a success. */
  ghost predicate AllSucceed(c: Config, s: State, es: seq<Event>) {
    es == [] || (
      && AllSucceed(c, s, Front(es))
      && !Last(es).Crash?
      && var s1 := Run(c, s, Front(es));
         s1.data.flusher.inFlight == s.data.flusher.inFlight && Answers(c, s1, Last(es)) ==> Succeeds(Last(es)))
  }

  /** How many of the awaits were answered. */
  ghost function Answered(c: Config, s: State, es: seq<Event>): nat {
    if es == [] then 0
    else Answered(c, s, Front(es)) + (if Answers(c, Run(c, s, Front(es)), Last(es)) then 1 else 0)
  }

  lemma StepAdvances(c: Config, s: State, e: Event, batch: seq<Item>, handled: seq<Item>, answers: nat)
    requires Formats(c, batch) && !e.Crash?
    requires StillFlying(s, batch, handled, answers) || Landed(s, batch, handled)
    requires s.data.flusher.inFlight == Some(batch) && Answers(c, s, e) ==> Succeeds(e)
    ensures var s1 := Step(c, s, e);
      var more := answers + (if Answers(c, s, e) then 1 else 0);
      StillFlying(s1, batch, handled, more) || Landed(s1, batch, handled)
  {
    hide Step, Answers, Succeeds;
    if Landed(s, batch, handled) {
      HandledGrows(c, s, e);
    } else if HandlerEvent(e) {
      if Answers(c, s, e) {
        AnswerAdvances(c, s, e, answers);
      } else {
        OtherwiseNothing(c, s, e);
      }
    } else {
      LoopEventIsNoAnswer(c, s, e);
      LoopEventIsBeside(c, s, e);
    }
  }

  lemma LoopEventIsNoAnswer(c: Config, s: State, e: Event)
    requires !HandlerEvent(e)
    ensures !Answers(c, s, e)
  {
  }

  /**
   * Whatever the consumer, the timer and the topic do meanwhile, and however the messages
   * are placed: a flush whose awaits all succeed has handled its batch once five of them
   * are answered, and until then each answer brings it nearer.
   */
  lemma {:induction false} FlushAdvances(c: Config, s: State, es: seq<Event>)
    requires s.data.handler.PoisonSend? && s.data.flusher.inFlight.Some? && Formats(c, s.data.flusher.Flying())
    requires AllSucceed(c, s, es)
    ensures var batch, handled := s.data.flusher.Flying(), s.data.flusher.handled;
      StillFlying(Run(c, s, es), batch, handled, Answered(c, s, es)) || Landed(Run(c, s, es), batch, handled)
  {
    if es != [] {
      FlushAdvances(c, s, Front(es));
      hide Step, Answers, Succeeds, StillFlying, Landed, Formats;
      StepAdvances(c, Run(c, s, Front(es)), Last(es), s.data.flusher.Flying(), s.data.flusher.handled, Answered(c, s, Front(es)));
    }
  }

  /** In a reachable state everything handled is committed. */
  lemma HandledIsCommitted(c: Config, log: seq<seq<Record>>, batchedPartitions: nat, es: seq<Event>, it: Item)
    requires it in After(c, log, batchedPartitions, es).data.flusher.handled
    ensures var d := After(c, log, batchedPartitions, es).data;
      it.partition < |d.committed| && it.offset <= d.committed[it.partition]
  {
    BatcherSafety.RunIsGood(c, log, batchedPartitions, es);
    var d := After(c, log, batchedPartitions, es).data;
    BatcherSafety.MaxOffsetIsHighest(d.flusher.handled, it.partition, if it.partition < |d.start| then d.start[it.partition] else 0);
    assert it in d.flusher.added;
    hide After;
  }

  lemma HandlerHasBatch(c: Config, log: seq<seq<Record>>, batchedPartitions: nat, es: seq<Event>)
    ensures var d := After(c, log, batchedPartitions, es).data; d.handler.PoisonSend? ==> d.flusher.inFlight.Some?
  {
    BatcherSafety.RunIsGood(c, log, batchedPartitions, es);
  }

  /** Every item of the batch is below its partition's committed offset. */
  ghost predicate Committed(d: Data, batch: seq<Item>) {
    forall it <- batch :: it.partition < |d.committed| && it.offset <= d.committed[it.partition]
  }

  lemma LandedIsCommitted(c: Config, log: seq<seq<Record>>, batchedPartitions: nat, es: seq<Event>, batch: seq<Item>, handled: seq<Item>)
    requires Landed(After(c, log, batchedPartitions, es), batch, handled)
    ensures Committed(After(c, log, batchedPartitions, es).data, batch)
  {
    hide After;
    var s := After(c, log, batchedPartitions, es);
    forall it <- batch
      ensures it.partition < |s.data.committed| && it.offset <= s.data.committed[it.partition]
    {
      assert it in handled + batch;
      HandledIsCommitted(c, log, batchedPartitions, es, it);
    }
  }

  /** A flush whose awaits succeed commits its batch, from any reachable state and in any company. */
  lemma SuccessfulFlushCommits(c: Config, log: seq<seq<Record>>, batchedPartitions: nat, before: seq<Event>, es: seq<Event>)
    requires var s := After(c, log, batchedPartitions, before);
      && s.data.handler.PoisonSend? && Formats(c, s.data.flusher.Flying())
      && AllSucceed(c, s, es) && Answered(c, s, es) >= 5
    ensures var s, s1 := After(c, log, batchedPartitions, before), After(c, log, batchedPartitions, before + es);
      Landed(s1, s.data.flusher.Flying(), s.data.flusher.handled) && Committed(s1.data, s.data.flusher.Flying())
  {
    hide Run, Formats, AllSucceed, Answered, Landed, Committed;
    var s := After(c, log, batchedPartitions, before);
    HandlerHasBatch(c, log, batchedPartitions, before);
    FlushAdvances(c, s, es);
    RunConcat(c, Init(log, batchedPartitions), before, es);
    HandlerRanks(Run(c, s, es).data.handler);
    LandedIsCommitted(c, log, batchedPartitions, before + es, s.data.flusher.Flying(), s.data.flusher.handled);
  }

  lemma HandlerRanks(h: Handler)
    ensures h != NoHandler ==> Rank(h) >= 1
  {
  }
}
