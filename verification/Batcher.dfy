/**
 * The batcher's commit protocol (services/batcher/src/index.ts).
 *
 * A state machine whose steps are the stretches of code between two awaits. An
 * event carries the outcome of the await it resumes: a failing send may have
 * landed any of its messages, a failing commit may have landed for any of its
 * partitions, and the process may crash at any point. An event that the state
 * does not allow leaves it unchanged.
 */
module Batcher {
  import opened Common
  import opened PayloadBuilder
  import opened BatchFlushing
  import BatchId

  // ---------------------------------------------------------------------------
  // Records, items, messages
  // ---------------------------------------------------------------------------

  /** A record of telemetry.authorized.v1 as the consume loop sees it. */
  datatype Record =
    | NullValue
    | Foreign
    | Authorized(envelope: Bytes, sensorId: Bytes, raw: Bytes)
    | Unparseable(raw: Bytes)

  datatype Kind = Valid(envelope: Bytes, sensorId: Bytes) | Poison

  /** `offset` is the next offset to commit: one past the record's own. */
  datatype Item = Item(kind: Kind, partition: nat, offset: nat, raw: Bytes)

  datatype Reason = ParseError | TooLarge

  datatype DlqMessage = DlqMessage(raw: Bytes, partition: nat, offset: int, reason: Reason)

  datatype BatchedMessage = BatchedMessage(batchId: string, fitted: FittedBatch<Item>)

  /** A batched message together with the partition the producer picked for it. */
  datatype Placed = Placed(partition: nat, message: BatchedMessage)

  datatype Config = Config(
    batchSize: nat,
    maxPayloadBytes: int,
    serialize: seq<Bytes> -> Bytes,
    compress: Bytes -> Bytes,
    blake2: Bytes -> Bytes,
    sha256: string -> string,
    formats: Bytes -> bool)

  function EnvelopeOf(item: Item): Bytes {
    match item.kind
    case Valid(envelope, _) => envelope
    case Poison => []
  }

  function ItemCodec(c: Config): Codec<Item> {
    Codec(EnvelopeOf, c.serialize, c.compress, c.blake2)
  }

  predicate Relevant(r: Record) {
    r.Authorized? || r.Unparseable?
  }

  /**
   * What one record adds to the buffer. A sensor id that does not format makes the
   * debug log throw after the add, so the record enters a second time as poison.
   */
  function ItemsOf(c: Config, r: Record, partition: nat, offset: nat): seq<Item> {
    match r
    case Authorized(envelope, sensorId, raw) =>
      [Item(Valid(envelope, sensorId), partition, offset + 1, raw)]
      + (if c.formats(sensorId) then [] else [Item(Poison, partition, offset + 1, raw)])
    case Unparseable(raw) => [Item(Poison, partition, offset + 1, raw)]
    case _ => []
  }

  function ValidOf(batch: seq<Item>): seq<Item> {
    if batch == [] then []
    else ValidOf(Front(batch)) + (if Last(batch).kind.Valid? then [Last(batch)] else [])
  }

  function PoisonOf(batch: seq<Item>): seq<Item> {
    if batch == [] then []
    else PoisonOf(Front(batch)) + (if Last(batch).kind.Poison? then [Last(batch)] else [])
  }

  function ToDlq(item: Item, reason: Reason): DlqMessage {
    DlqMessage(item.raw, item.partition, item.offset - 1, reason)
  }

  function ToDlqAll(items: seq<Item>, reason: Reason): seq<DlqMessage> {
    seq(|items|, i requires 0 <= i < |items| => ToDlq(items[i], reason))
  }

  function SourcesOf(items: seq<Item>): seq<BatchId.Source> {
    seq(|items|, i requires 0 <= i < |items| => BatchId.Source(items[i].partition, items[i].offset))
  }

  function ToMessage(c: Config, fitted: FittedBatch<Item>): BatchedMessage {
    BatchedMessage(BatchId.ComputeBatchId(SourcesOf(fitted.events), c.sha256), fitted)
  }

  function ToMessages(c: Config, fitted: seq<FittedBatch<Item>>): seq<BatchedMessage> {
    seq(|fitted|, i requires 0 <= i < |fitted| => ToMessage(c, fitted[i]))
  }

  function Fitting(c: Config, batch: seq<Item>): FitOutcome<Item> {
    FitBatch(ValidOf(batch), c.maxPayloadBytes, ItemCodec(c))
  }

  /** The highest next-offset of `partition` among the items, or `base` if there is none above it. */
  function MaxOffset(items: seq<Item>, partition: nat, base: nat): nat {
    if items == [] then base
    else
      var rest := MaxOffset(Front(items), partition, base);
      if Last(items).partition == partition then Max(rest, Last(items).offset) else rest
  }

  predicate Touches(items: seq<Item>, partition: nat) {
    exists it <- items :: it.partition == partition
  }

  // ---------------------------------------------------------------------------
  // State
  // ---------------------------------------------------------------------------

  /** The await the flush handler is suspended on. */
  datatype Handler = NoHandler | PoisonSend | Fit | OversizedSend | BatchedSend | CommitOffsets

  /**
   * log, committed, dlq, batched: Kafka, which survives a crash
   * start, cursor: where this process resumed each partition, and how far it has read
   */
  datatype Data = Data(
    log: seq<seq<Record>>,
    committed: seq<nat>,
    dlq: seq<DlqMessage>,
    batched: seq<seq<BatchedMessage>>,
    start: seq<nat>,
    cursor: seq<nat>,
    flusher: Flusher<Item>,
    handler: Handler)

  datatype Loop = Down | Reading | LagCheck | AwaitFlush | DrainJoin | DrainFlush | Ended(drained: bool)

  datatype Metrics = Metrics(
    consumed: nat,
    batchesProduced: nat,
    eventsBatched: nat,
    produceFailure: nat,
    batchesSplit: nat,
    oversizedEvents: nat)

  /** timerWaiting: some timer callback awaits the running flush. */
  datatype Control = Control(loop: Loop, stopping: bool, timerArmed: bool, timerWaiting: bool, metrics: Metrics)

  datatype State = State(data: Data, control: Control)

  datatype Event =
    | TopicGrows(log: seq<seq<Record>>)
    | Start
    | Crash
    | Stop
    | StreamEnds
    | Deliver(partition: nat)
    | Lag(lag: nat)
    | TimerFires
    | DlqSendDone(ok: bool, dlqLanded: seq<DlqMessage>)
    | FitDone(ok: bool)
    | BatchedSendDone(ok: bool, placed: seq<Placed>)
    | CommitDone(ok: bool, partitions: set<nat>)

  const ZERO_METRICS := Metrics(0, 0, 0, 0, 0, 0)
  const IDLE := Control(Down, false, false, false, ZERO_METRICS)

  function Fresh(d: Data): Data {
    d.(start := d.committed, cursor := d.committed, flusher := Empty(), handler := NoHandler)
  }

  function Init(log: seq<seq<Record>>, batchedPartitions: nat): State {
    var zeros := seq(|log|, _ => 0);
    State(Data(log, zeros, [], seq(batchedPartitions, _ => []), zeros, zeros, Empty(), NoHandler), IDLE)
  }

  predicate Grows<T(==)>(before: seq<seq<T>>, after: seq<seq<T>>) {
    |before| == |after| && forall p :: 0 <= p < |before| ==> before[p] <= after[p]
  }

  // ---------------------------------------------------------------------------
  // Steps of the buffer and of Kafka
  // ---------------------------------------------------------------------------

  function Receive(c: Config, d: Data, p: nat): Data
    requires p < |d.cursor| == |d.log| && d.cursor[p] < |d.log[p]|
  {
    var items := ItemsOf(c, d.log[p][d.cursor[p]], p, d.cursor[p]);
    d.(cursor := d.cursor[p := d.cursor[p] + 1], flusher := AddAll(d.flusher, items))
  }

  function AddAll(f: Flusher<Item>, items: seq<Item>): Flusher<Item> {
    if items == [] then f else AddAll(f, Front(items)).Add(Last(items))
  }

  function Detach(d: Data): Data {
    if d.flusher.inFlight.Some? || d.flusher.pending == [] then d
    else d.(flusher := d.flusher.Flush(), handler := PoisonSend)
  }

  /** The handler's promise settles. */
  function Settle(d: Data, ok: bool): Data {
    d.(flusher := d.flusher.Settle(ok), handler := NoHandler)
  }

  /** A send is acknowledged only if everything landed; otherwise any part of it may have. Sending nothing succeeds. */
  predicate Delivered<T(==)>(ok: bool, landed: seq<T>, messages: seq<T>) {
    && (messages == [] ==> ok)
    && (forall m <- landed :: m in messages)
    && (ok ==> forall m <- messages :: m in landed)
  }

  predicate PlacedAs(ok: bool, placed: seq<Placed>, messages: seq<BatchedMessage>, partitions: nat) {
    && (forall pl <- placed :: pl.partition < partitions && pl.message in messages)
    && (ok ==> forall m <- messages :: exists pl <- placed :: pl.message == m)
  }

  function Place(batched: seq<seq<BatchedMessage>>, placed: seq<Placed>): seq<seq<BatchedMessage>>
    requires forall pl <- placed :: pl.partition < |batched|
    ensures |Place(batched, placed)| == |batched|
  {
    if placed == [] then batched
    else
      var rest := Place(batched, Front(placed));
      var pl := Last(placed);
      rest[pl.partition := rest[pl.partition] + [pl.message]]
  }

  function CommitInto(committed: seq<nat>, batch: seq<Item>, landed: set<nat>): seq<nat> {
    seq(|committed|, p requires 0 <= p < |committed| =>
      if p in landed && Touches(batch, p) then MaxOffset(batch, p, 0) else committed[p])
  }

  // ---------------------------------------------------------------------------
  // Steps of the service
  // ---------------------------------------------------------------------------

  /** The final flush of the run loop's `finally` block. */
  function FinalFlush(s: State): State {
    if s.data.flusher.pending != [] then
      State(Detach(s.data), s.control.(loop := DrainFlush))
    else
      s.(control := s.control.(loop := Ended(true)))
  }

  function LeaveLoop(s: State): State {
    var s1 := s.(control := s.control.(timerArmed := false));
    if s.data.flusher.inFlight.Some? then s1.(control := s1.control.(loop := DrainJoin)) else FinalFlush(s1)
  }

  /** `await flushBatch()` in the loop: clear the timer, then start or join a flush. */
  function FlushFromLoop(s: State): State {
    var d := Detach(s.data);
    State(d, s.control.(timerArmed := false,
                        loop := if d.flusher.inFlight.Some? then AwaitFlush else Reading))
  }

  function MaybeFlush(c: Config, s: State): State {
    if |s.data.flusher.pending| >= c.batchSize then FlushFromLoop(s)
    else s.(control := s.control.(loop := LagCheck))
  }

  /** The loop body up to `maybeFlush`: only records that parse count as consumed. */
  function Received(c: Config, s: State, p: nat): State
    requires p < |s.data.cursor| == |s.data.log| && s.data.cursor[p] < |s.data.log[p]|
  {
    var parsed := if s.data.log[p][s.data.cursor[p]].Authorized? then 1 else 0;
    var m := s.control.metrics;
    State(Receive(c, s.data, p), s.control.(metrics := m.(consumed := m.consumed + parsed)))
  }

  function Consume(c: Config, s: State, p: nat): State
    requires p < |s.data.cursor| == |s.data.log| && s.data.cursor[p] < |s.data.log[p]|
  {
    if Relevant(s.data.log[p][s.data.cursor[p]]) then MaybeFlush(c, Received(c, s, p)) else Received(c, s, p)
  }

  /** The flush settles: its awaiters resume, re-arming the timer or going on with the drain. */
  function SettleAndResume(s: State, ok: bool): State {
    var d := Settle(s.data, ok);
    var k := s.control;
    var rearm := !ok && !k.stopping && d.flusher.pending != [] && (k.timerWaiting || k.loop.AwaitFlush?);
    var s1 := State(d, k.(timerArmed := k.timerArmed || rearm, timerWaiting := false));
    match k.loop
    case AwaitFlush => s1.(control := s1.control.(loop := Reading))
    case DrainJoin => FinalFlush(s1)
    case DrainFlush => s1.(control := s1.control.(loop := Ended(ok)))
    case _ => s1
  }

  /** produceBatch fails: counted, then re-thrown. */
  function ProduceFails(s: State): State {
    var m := s.control.metrics;
    SettleAndResume(s.(control := s.control.(metrics := m.(produceFailure := m.produceFailure + 1))), false)
  }

  function SumEvents(fitted: seq<FittedBatch<Item>>): nat {
    if fitted == [] then 0 else SumEvents(Front(fitted)) + |Last(fitted).events|
  }

  /** After the oversized events: count a split, then send what was fitted, if anything. */
  function ToBatchedSend(s: State, fitted: seq<FittedBatch<Item>>): State {
    var m := s.control.metrics;
    State(s.data.(handler := if fitted == [] then CommitOffsets else BatchedSend),
          s.control.(metrics := if |fitted| > 1 then m.(batchesSplit := m.batchesSplit + 1) else m))
  }

  function AfterPoison(c: Config, s: State, ok: bool): State {
    if !ok then SettleAndResume(s, false)
    else
      var valid := ValidOf(s.data.flusher.Flying());
      if valid == [] then s.(data := s.data.(handler := CommitOffsets))
      else if exists it <- valid :: it.kind.Valid? && !c.formats(it.kind.sensorId) then SettleAndResume(s, false)
      else s.(data := s.data.(handler := Fit))
  }

  function AfterFit(c: Config, s: State, ok: bool): State {
    if !ok then ProduceFails(s)
    else
      var r := Fitting(c, s.data.flusher.Flying());
      var m := s.control.metrics;
      if r.oversized != [] then
        State(s.data.(handler := OversizedSend),
              s.control.(metrics := m.(oversizedEvents := m.oversizedEvents + |r.oversized|)))
      else ToBatchedSend(s, r.batches)
  }

  function AfterBatchedSend(c: Config, s: State, ok: bool): State {
    if !ok then ProduceFails(s)
    else
      var fitted := Fitting(c, s.data.flusher.Flying()).batches;
      var m := s.control.metrics;
      State(s.data.(handler := CommitOffsets),
            s.control.(metrics := m.(batchesProduced := m.batchesProduced + |fitted|,
                                     eventsBatched := m.eventsBatched + SumEvents(fitted))))
  }

  function DlqSent(c: Config, s: State, ok: bool, landed: seq<DlqMessage>): State {
    var batch := s.data.flusher.Flying();
    var s1 := s.(data := s.data.(dlq := s.data.dlq + landed));
    match s.data.handler
    case PoisonSend =>
      if Delivered(ok, landed, ToDlqAll(PoisonOf(batch), ParseError)) then AfterPoison(c, s1, ok) else s
    case OversizedSend =>
      if Delivered(ok, landed, ToDlqAll(Events(Fitting(c, batch).oversized), TooLarge)) then
        if ok then ToBatchedSend(s1, Fitting(c, batch).batches) else ProduceFails(s1)
      else s
    case _ => s
  }

  function FitReturned(c: Config, s: State, ok: bool): State {
    if s.data.handler.Fit? then AfterFit(c, s, ok) else s
  }

  function BatchedSent(c: Config, s: State, ok: bool, placed: seq<Placed>): State {
    if s.data.handler.BatchedSend?
       && PlacedAs(ok, placed, ToMessages(c, Fitting(c, s.data.flusher.Flying()).batches), |s.data.batched|) then
      AfterBatchedSend(c, s.(data := s.data.(batched := Place(s.data.batched, placed))), ok)
    else s
  }

  /** The commit resolves; `partitions` are those for which it landed: all of them if it succeeded. */
  function CommitReturned(s: State, ok: bool, partitions: set<nat>): State {
    var batch := s.data.flusher.Flying();
    if s.data.handler.CommitOffsets? && (ok ==> forall it <- batch :: it.partition in partitions) then
      SettleAndResume(s.(data := s.data.(committed := CommitInto(s.data.committed, batch, partitions))), ok)
    else s
  }

  function Step(c: Config, s: State, e: Event): State {
    var d, k := s.data, s.control;
    match e
    case TopicGrows(log) =>
      if Grows(d.log, log) then s.(data := d.(log := log)) else s
    case Start =>
      if k.loop.Down? then s.(control := k.(loop := Reading, stopping := false)) else s
    case Crash =>
      State(Fresh(d), IDLE)
    case Stop =>
      s.(control := k.(stopping := true))
    case StreamEnds =>
      if k.loop.Reading? then LeaveLoop(s) else s
    case Deliver(p) =>
      if k.loop.Reading? && p < |d.cursor| == |d.log| && d.cursor[p] < |d.log[p]| then
        if k.stopping then LeaveLoop(s) else Consume(c, s, p)
      else s
    case Lag(lag) =>
      if !k.loop.LagCheck? then s
      else if lag < c.batchSize && d.flusher.pending != [] then
        s.(control := k.(loop := Reading, timerArmed := true))
      else if lag >= c.batchSize then FlushFromLoop(s)
      else s.(control := k.(loop := Reading))
    case TimerFires =>
      if !k.timerArmed then s
      else if d.flusher.pending == [] then s.(control := k.(timerArmed := false))
      else State(Detach(d), k.(timerArmed := false, timerWaiting := true))
    case DlqSendDone(ok, landed) => DlqSent(c, s, ok, landed)
    case FitDone(ok) => FitReturned(c, s, ok)
    case BatchedSendDone(ok, placed) => BatchedSent(c, s, ok, placed)
    case CommitDone(ok, partitions) => CommitReturned(s, ok, partitions)
  }

  function Run(c: Config, s: State, es: seq<Event>): State {
    if es == [] then s else Step(c, Run(c, s, Front(es)), Last(es))
  }

  /** The state after a run from first deployment over the given topic. */
  function After(c: Config, log: seq<seq<Record>>, batchedPartitions: nat, es: seq<Event>): State {
    Run(c, Init(log, batchedPartitions), es)
  }
}
