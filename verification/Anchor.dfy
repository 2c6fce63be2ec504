/**
 * The blockchain anchor (services/blockchain-anchor/src/index.ts).
 *
 * A state machine over the awaits of the consume loop. The chain settles a
 * submitted extrinsic on its own schedule: a submission whose caller has failed
 * or crashed stays in `limbo` until the chain applies or drops it. An event that
 * the state does not allow leaves it unchanged.
 */
module Anchor {
  import opened Common

  /** A record of telemetry.batched.v1 as the consume loop sees it. */
  datatype Record =
    | NullValue
    | Foreign
    | Malformed
    | Batched(payload: Bytes, payloadHash: Bytes)

  /** reportsFailure: the chain metadata names ExtrinsicFailed, so a failed extrinsic is noticed. */
  datatype Config = Config(blake2: Bytes -> Bytes, maxPayloadBytes: int, reportsFailure: bool)

  datatype Position = Position(partition: nat, offset: nat)

  /** A record forwarded to the dead-letter topic, with where it came from. */
  datatype DlqEntry = DlqEntry(record: Record, at: Position)

  datatype Fate = Waiting | Applied | Dropped

  /** The await the loop is suspended on; `guarded` marks the commit inside the try block. */
  datatype Phase =
    | Stopped
    | Polling
    | DlqSend(at: Position)
    | ChainRead(at: Position)
    | Submitting(at: Position, fate: Fate)
    | Committing(at: Position, guarded: bool)

  datatype Metrics = Metrics(consumed: nat, anchored: nat, skippedDuplicate: nat, failed: nat, rejectedOversized: nat)

  /**
   * history: every value the on-chain cell has held, oldest first
   * metrics: counters of the service object, which a later start of the same object goes on counting
   */
  datatype State = State(
    log: seq<seq<Record>>,
    committed: seq<nat>,
    dlq: seq<DlqEntry>,
    history: seq<Option<Bytes>>,
    limbo: seq<Bytes>,
    cursor: seq<nat>,
    phase: Phase,
    metrics: Metrics)

  /** Break: the loop finds stop requested. Halt: the process is gone, its counters with it. */
  datatype Event =
    | TopicGrows(log: seq<seq<Record>>)
    | Start
    | Break
    | Halt
    | Deliver(partition: nat)
    | DlqSendDone(ok: bool, landed: bool)
    | ReadDone(ok: bool)
    | ChainSettles(applied: bool)
    | LimboSettles(index: nat, applied: bool)
    | SubmitDone(ok: bool)
    | CommitDone(ok: bool, landed: bool)

  const ZERO_METRICS := Metrics(0, 0, 0, 0, 0)

  function Init(log: seq<seq<Record>>, onChain: Option<Bytes>): State {
    var zeros := seq(|log|, _ => 0);
    State(log, zeros, [], [onChain], [], zeros, Stopped, ZERO_METRICS)
  }

  /** The positions a state's phase refers to exist. */
  ghost predicate WellFormed(s: State) {
    && |s.committed| == |s.log| && |s.cursor| == |s.log|
    && s.history != []
    && (forall p :: 0 <= p < |s.log| ==> s.committed[p] <= |s.log[p]| && s.cursor[p] <= |s.log[p]|)
    && (!s.phase.Stopped? && !s.phase.Polling? ==> AtRecord(s, s.phase.at))
  }

  /** The record being processed: the one just delivered from its partition. */
  predicate AtRecord(s: State, at: Position) {
    && at.partition < |s.log| && at.offset < |s.log[at.partition]|
    && |s.cursor| == |s.log| == |s.committed| && s.cursor[at.partition] == at.offset + 1
  }

  function RecordAt(s: State, at: Position): Record {
    if AtRecord(s, at) then s.log[at.partition][at.offset] else NullValue
  }

  predicate Oversized(c: Config, r: Record) {
    r.Batched? && |r.payload| > c.maxPayloadBytes
  }

  predicate Anchorable(c: Config, r: Record) {
    r.Batched? && |r.payload| <= c.maxPayloadBytes
  }

  // ---------------------------------------------------------------------------
  // Steps
  // ---------------------------------------------------------------------------

  /** The loop ends where it is, leaving an unsettled submission to the chain. */
  function Stop(s: State): State {
    var left := if s.phase.Submitting? && s.phase.fate.Waiting? && RecordAt(s, s.phase.at).Batched?
                then [RecordAt(s, s.phase.at).payload] else [];
    s.(phase := Stopped, limbo := s.limbo + left)
  }

  /** The catch block around anchoring: count and re-throw, which ends the loop. */
  function Fail(s: State): State {
    Stop(s.(metrics := s.metrics.(failed := s.metrics.failed + 1)))
  }

  function Accept(c: Config, s: State, p: nat): State
    requires p < |s.cursor| == |s.log| && s.cursor[p] < |s.log[p]|
  {
    var at := Position(p, s.cursor[p]);
    var r := s.log[p][at.offset];
    var s1 := s.(cursor := s.cursor[p := at.offset + 1]);
    var m := s.metrics.(consumed := s.metrics.consumed + 1);
    match r
    case NullValue => s1
    case Foreign => s1
    case Malformed => s1.(phase := Committing(at, false))
    case Batched(payload, _) =>
      if |payload| > c.maxPayloadBytes then
        s1.(phase := DlqSend(at), metrics := m.(rejectedOversized := m.rejectedOversized + 1))
      else
        s1.(phase := ChainRead(at), metrics := m)
  }

  /** getAnchoredPayload: a failed read looks like an empty cell. */
  function ReadCell(s: State, ok: bool): Option<Bytes> {
    if ok && s.history != [] then Last(s.history) else None
  }

  predicate AnchoredPayloadMatches(c: Config, cell: Option<Bytes>, payloadHash: Bytes) {
    cell.Some? && c.blake2(cell.value) == payloadHash
  }

  function Compare(c: Config, s: State, ok: bool): State
    requires s.phase.ChainRead? && RecordAt(s, s.phase.at).Batched?
  {
    if AnchoredPayloadMatches(c, ReadCell(s, ok), RecordAt(s, s.phase.at).payloadHash) then
      s.(phase := Committing(s.phase.at, true),
         metrics := s.metrics.(skippedDuplicate := s.metrics.skippedDuplicate + 1))
    else
      s.(phase := Submitting(s.phase.at, Waiting))
  }

  /** The chain includes a set_payload extrinsic. */
  function Write(s: State, payload: Bytes): State {
    s.(history := s.history + [Some(payload)])
  }

  /** An extrinsic resolves once finalized; one that failed on chain resolves only if failures go unreported. */
  predicate MayResolve(c: Config, fate: Fate) {
    fate.Applied? || (fate.Dropped? && !c.reportsFailure)
  }

  function Step(c: Config, s: State, e: Event): State {
    match e
    case TopicGrows(log) =>
      if |log| == |s.log| && forall p :: 0 <= p < |log| ==> s.log[p] <= log[p] then s.(log := log) else s
    case Start =>
      if s.phase.Stopped? then s.(phase := Polling, cursor := s.committed) else s
    case Break =>
      if s.phase.Polling? then s.(phase := Stopped) else s
    case Halt =>
      Stop(s).(metrics := ZERO_METRICS)
    case Deliver(p) =>
      if s.phase.Polling? && p < |s.cursor| == |s.log| && s.cursor[p] < |s.log[p]| then Accept(c, s, p) else s
    case DlqSendDone(ok, landed) =>
      if s.phase.DlqSend? && (ok ==> landed) then
        var s1 := if landed then s.(dlq := s.dlq + [DlqEntry(RecordAt(s, s.phase.at), s.phase.at)]) else s;
        if ok then s1.(phase := Committing(s.phase.at, false)) else Stop(s1)
      else s
    case ReadDone(ok) =>
      if s.phase.ChainRead? && RecordAt(s, s.phase.at).Batched? then Compare(c, s, ok) else s
    case ChainSettles(applied) =>
      if s.phase.Submitting? && s.phase.fate.Waiting? && RecordAt(s, s.phase.at).Batched? then
        if applied then Write(s, RecordAt(s, s.phase.at).payload).(phase := Submitting(s.phase.at, Applied))
        else s.(phase := Submitting(s.phase.at, Dropped))
      else s
    case LimboSettles(i, applied) =>
      if i < |s.limbo| then
        var s1 := s.(limbo := s.limbo[..i] + s.limbo[i + 1..]);
        if applied then Write(s1, s.limbo[i]) else s1
      else s
    case SubmitDone(ok) =>
      if !s.phase.Submitting? then s
      else if !ok then Fail(s)
      else if MayResolve(c, s.phase.fate) then
        s.(phase := Committing(s.phase.at, true), metrics := s.metrics.(anchored := s.metrics.anchored + 1))
      else s
    case CommitDone(ok, landed) =>
      if s.phase.Committing? && s.phase.at.partition < |s.committed| && (ok ==> landed) then
        var at := s.phase.at;
        var s1 := if landed then s.(committed := s.committed[at.partition := at.offset + 1]) else s;
        if ok then s1.(phase := Polling) else if s.phase.guarded then Fail(s1) else Stop(s1)
      else s
  }

  function Run(c: Config, s: State, es: seq<Event>): State {
    if es == [] then s else Step(c, Run(c, s, Front(es)), Last(es))
  }

  function After(c: Config, log: seq<seq<Record>>, onChain: Option<Bytes>, es: seq<Event>): State {
    Run(c, Init(log, onChain), es)
  }

  lemma RunOne(c: Config, s: State, e: Event)
    ensures Run(c, s, [e]) == Step(c, s, e)
  {
    assert Front([e]) == [];
  }

  lemma RunTwo(c: Config, s: State, e1: Event, e2: Event)
    ensures Run(c, s, [e1, e2]) == Step(c, Step(c, s, e1), e2)
  {
    assert Front([e1, e2]) == [e1];
    RunOne(c, s, e1);
  }

  lemma {:induction false} RunConcat(c: Config, s: State, a: seq<Event>, b: seq<Event>)
    ensures Run(c, s, a + b) == Run(c, Run(c, s, a), b)
  {
    if b == [] {
      assert a + b == a;
    } else {
      assert Front(a + b) == a + Front(b) && Last(a + b) == Last(b);
      RunConcat(c, s, a, Front(b));
    }
  }

  lemma RunFour(c: Config, s: State, e1: Event, e2: Event, e3: Event, e4: Event)
    ensures Run(c, s, [e1, e2, e3, e4]) == Step(c, Step(c, Step(c, Step(c, s, e1), e2), e3), e4)
  {
    RunTwo(c, s, e1, e2);
    RunTwo(c, Run(c, s, [e1, e2]), e3, e4);
    RunConcat(c, s, [e1, e2], [e3, e4]);
    assert [e1, e2] + [e3, e4] == [e1, e2, e3, e4];
  }
}
