/**
 * The anchor's loop as the program runs it (services/blockchain-anchor/src/index.ts):
 * one message after the other, each `continue` and `throw` in place. Every pass is
 * a run of the machine in Anchor, so what holds of all runs holds of the loop.
 */
module AnchorService {
  import opened Common
  import opened Anchor

  // ---------------------------------------------------------------------------
  // The promise around signAndSend
  // ---------------------------------------------------------------------------

  datatype ChainEvent = ExtrinsicFailed | OtherEvent

  /** A status update of a submitted extrinsic; Error also stands for a rejected signAndSend. */
  datatype Status = Underway | Finalized(events: seq<ChainEvent>) | Error

  datatype Promise = Unsettled | Resolved | Rejected

  function OnStatus(c: Config, status: Status): Promise {
    match status
    case Underway => Unsettled
    case Finalized(events) => if c.reportsFailure && ExtrinsicFailed in events then Rejected else Resolved
    case Error => Rejected
  }

  /** A promise keeps the first outcome it is given. */
  function Watch(c: Config, statuses: seq<Status>): Promise {
    if statuses == [] then Unsettled
    else if Watch(c, Front(statuses)) != Unsettled then Watch(c, Front(statuses))
    else OnStatus(c, Last(statuses))
  }

  /** What a finalized extrinsic did to the cell. */
  function FateOf(events: seq<ChainEvent>): Fate {
    if ExtrinsicFailed in events then Dropped else Applied
  }

  /** The first update that is not Underway is a finalization, at `k`. */
  ghost predicate FinalizedFirst(statuses: seq<Status>, k: nat) {
    && k < |statuses| && statuses[k].Finalized?
    && forall j :: 0 <= j < k ==> statuses[j].Underway?
  }

  /** The promise resolves exactly when the extrinsic is finalized first, with a fate that may resolve. */
  lemma {:induction false} ResolvesExactlyWhenFinalized(c: Config, statuses: seq<Status>)
    ensures Watch(c, statuses) == Resolved
      <==> exists k :: 0 <= k && FinalizedFirst(statuses, k) && MayResolve(c, FateOf(statuses[k].events))
    ensures Watch(c, statuses) == Resolved
      <==> exists k :: 0 <= k && FinalizedFirst(statuses, k) && !(c.reportsFailure && ExtrinsicFailed in statuses[k].events)
    ensures Watch(c, statuses) == Unsettled <==> forall j :: 0 <= j < |statuses| ==> statuses[j].Underway?
  {
    if statuses != [] {
      ResolvesExactlyWhenFinalized(c, Front(statuses));
      forall k: nat | k < |statuses| - 1
        ensures FinalizedFirst(statuses, k) == FinalizedFirst(Front(statuses), k)
      {
      }
      if Watch(c, Front(statuses)) == Unsettled && Watch(c, statuses) == Resolved {
        assert FinalizedFirst(statuses, |statuses| - 1);
      }
    }
  }

  // ---------------------------------------------------------------------------
  // One pass of the loop
  // ---------------------------------------------------------------------------

  /** How the awaits of one pass turn out; `statuses` are the updates of a submission, `fate` what the chain made of it. */
  datatype Outcomes = Outcomes(
    dlqOk: bool, dlqLanded: bool,
    readOk: bool,
    statuses: seq<Status>, fate: Fate,
    commitOk: bool, commitLanded: bool)

  predicate SubmitOk(c: Config, o: Outcomes) {
    Watch(c, o.statuses).Resolved?
  }

  /** What is acknowledged landed, a submission is watched until its promise settles, and a finalization tells its fate. */
  ghost predicate Possible(c: Config, o: Outcomes) {
    && (o.dlqOk ==> o.dlqLanded)
    && (o.commitOk ==> o.commitLanded)
    && !Watch(c, o.statuses).Unsettled?
    && forall k :: 0 <= k && FinalizedFirst(o.statuses, k) ==> o.fate == FateOf(o.statuses[k].events)
  }

  lemma ResolvedHasFate(c: Config, o: Outcomes)
    requires Possible(c, o)
    ensures SubmitOk(c, o) ==> !o.fate.Waiting?
  {
    if SubmitOk(c, o) {
      ResolvedMayResolve(c, o);
    }
  }

  lemma ResolvedMayResolve(c: Config, o: Outcomes)
    requires Possible(c, o) && SubmitOk(c, o)
    ensures MayResolve(c, o.fate)
  {
    ResolvesExactlyWhenFinalized(c, o.statuses);
  }

  predicate Available(s: State, p: nat) {
    s.phase.Polling? && p < |s.cursor| == |s.log| && s.cursor[p] < |s.log[p]|
  }

  function Fated(fate: Fate): seq<Event> {
    match fate
    case Waiting => []
    case Applied => [ChainSettles(true)]
    case Dropped => [ChainSettles(false)]
  }

  /** The events of the machine that one pass goes through. */
  function Path(c: Config, s: State, p: nat, o: Outcomes): seq<Event>
    requires Available(s, p)
  {
    var commit := [CommitDone(o.commitOk, o.commitLanded)];
    match s.log[p][s.cursor[p]]
    case NullValue => [Deliver(p)]
    case Foreign => [Deliver(p)]
    case Malformed => [Deliver(p)] + commit
    case Batched(payload, payloadHash) =>
      if |payload| > c.maxPayloadBytes then
        [Deliver(p), DlqSendDone(o.dlqOk, o.dlqLanded)] + (if o.dlqOk then commit else [])
      else if AnchoredPayloadMatches(c, ReadCell(s, o.readOk), payloadHash) then
        [Deliver(p), ReadDone(o.readOk)] + commit
      else
        [Deliver(p), ReadDone(o.readOk)] + Fated(o.fate) + [SubmitDone(SubmitOk(c, o))] + (if SubmitOk(c, o) then commit else [])
  }

  /** The commit of a pass, inside the try block or outside it, and what follows. */
  function Finish(s: State, at: Position, o: Outcomes, guarded: bool): State
    requires at.partition < |s.committed|
  {
    var s1 := if o.commitLanded then s.(committed := s.committed[at.partition := at.offset + 1]) else s;
    if o.commitOk then s1.(phase := Polling)
    else if guarded then s1.(phase := Stopped, metrics := s.metrics.(failed := s.metrics.failed + 1))
    else s1.(phase := Stopped)
  }

  /** The extrinsic of a pass and what follows. */
  function Submit(c: Config, s: State, at: Position, payload: Bytes, o: Outcomes): State
    requires at.partition < |s.committed|
  {
    var s1 := match o.fate
      case Waiting => s
      case Applied => Write(s, payload)
      case Dropped => s;
    if SubmitOk(c, o) then Finish(s1.(metrics := s.metrics.(anchored := s.metrics.anchored + 1)), at, o, true)
    else s1.(phase := Stopped, metrics := s.metrics.(failed := s.metrics.failed + 1),
             limbo := if o.fate.Waiting? then s.limbo + [payload] else s.limbo)
  }

  /** The oversized branch: forward the record, then commit past it. */
  function Reject(s: State, at: Position, record: Record, o: Outcomes): State
    requires at.partition < |s.committed|
  {
    var s1 := s.(metrics := s.metrics.(rejectedOversized := s.metrics.rejectedOversized + 1),
                 dlq := if o.dlqLanded then s.dlq + [DlqEntry(record, at)] else s.dlq);
    if o.dlqOk then Finish(s1, at, o, false) else s1.(phase := Stopped)
  }

  /** What one pass does to the state. */
  function Pass(c: Config, s: State, p: nat, o: Outcomes): State
    requires Available(s, p) && p < |s.committed|
  {
    var at := Position(p, s.cursor[p]);
    var r := s.log[p][at.offset];
    var s1 := s.(cursor := s.cursor[p := at.offset + 1]);
    var m := s.metrics.(consumed := s.metrics.consumed + 1);
    match r
    case NullValue => s1
    case Foreign => s1
    case Malformed => Finish(s1, at, o, false)
    case Batched(payload, payloadHash) =>
      if |payload| > c.maxPayloadBytes then Reject(s1.(metrics := m), at, r, o)
      else if AnchoredPayloadMatches(c, ReadCell(s, o.readOk), payloadHash) then
        Finish(s1.(metrics := m.(skippedDuplicate := m.skippedDuplicate + 1)), at, o, true)
      else
        Submit(c, s1.(metrics := m), at, payload, o)
  }

  /** The cell, as read, holds a payload with the record's hash. */
  ghost predicate ShowsAlready(c: Config, s: State, r: Record, readOk: bool)
    requires r.Batched? && s.history != []
  {
    readOk && exists v :: Last(s.history) == Some(v) && c.blake2(v) == r.payloadHash
  }

  /** The commit is reached, and how far it gets: one past the record if it lands; the loop goes on only if it is acknowledged. */
  ghost predicate CommitsPast(s: State, p: nat, o: Outcomes, s1: State)
    requires p < |s.cursor| && p < |s.committed|
  {
    && s1.committed == (if o.commitLanded then s.committed[p := s.cursor[p] + 1] else s.committed)
    && s1.phase == if o.commitOk then Polling else Stopped
  }

  /** The pass ends the loop ahead of its commit. */
  ghost predicate EndsUncommitted(s: State, s1: State) {
    s1.committed == s.committed && s1.phase.Stopped?
  }

  ghost predicate SameChain(s: State, s1: State) {
    s1.history == s.history && s1.limbo == s.limbo
  }

  /**
   * What one pass does. A skipped record leaves all but the cursor alone. One that does not parse is
   * committed past. One that is too large is counted, forwarded with its position, and committed past
   * if the forwarding is acknowledged. Any other is skipped if the cell shows its payload; if not it is
   * submitted, reaches the chain if applied, and is committed past if the promise resolves.
   */
  lemma PassIsSpecified(c: Config, s: State, p: nat, o: Outcomes)
    requires WellFormed(s) && Available(s, p)
    ensures var r, m, s1 := s.log[p][s.cursor[p]], s.metrics, Pass(c, s, p, o);
      var failed := m.failed + (if o.commitOk then 0 else 1);
      && s1.log == s.log && s1.cursor == s.cursor[p := s.cursor[p] + 1]
      && match r {
           case NullValue => s1 == s.(cursor := s1.cursor)
           case Foreign => s1 == s.(cursor := s1.cursor)
           case Malformed => CommitsPast(s, p, o, s1) && SameChain(s, s1) && s1.dlq == s.dlq && s1.metrics == m
           case Batched(payload, _) =>
             if |payload| > c.maxPayloadBytes then
               && s1.metrics == m.(consumed := m.consumed + 1, rejectedOversized := m.rejectedOversized + 1)
               && s1.dlq == s.dlq + (if o.dlqLanded then [DlqEntry(r, Position(p, s.cursor[p]))] else [])
               && SameChain(s, s1)
               && (if o.dlqOk then CommitsPast(s, p, o, s1) else EndsUncommitted(s, s1))
             else if ShowsAlready(c, s, r, o.readOk) then
               && s1.metrics == m.(consumed := m.consumed + 1, skippedDuplicate := m.skippedDuplicate + 1, failed := failed)
               && s1.dlq == s.dlq && SameChain(s, s1) && CommitsPast(s, p, o, s1)
             else
               && s1.dlq == s.dlq
               && s1.history == s.history + (if o.fate.Applied? then [Some(payload)] else [])
               && if Watch(c, o.statuses).Resolved? then
                    && s1.metrics == m.(consumed := m.consumed + 1, anchored := m.anchored + 1, failed := failed)
                    && s1.limbo == s.limbo && CommitsPast(s, p, o, s1)
                  else
                    && s1.metrics == m.(consumed := m.consumed + 1, failed := m.failed + 1)
                    && s1.limbo == s.limbo + (if o.fate.Waiting? then [payload] else []) && EndsUncommitted(s, s1)
         }
  {
    hide Watch, Finish, Submit, Reject;
    var at := Position(p, s.cursor[p]);
    var r := s.log[p][at.offset];
    var s1 := s.(cursor := s.cursor[p := at.offset + 1]);
    var m := s.metrics.(consumed := s.metrics.consumed + 1);
    FinishDoes(s1, at, o, false);
    FinishDoes(s1.(metrics := m.(skippedDuplicate := m.skippedDuplicate + 1)), at, o, true);
    if r.Batched? {
      RejectDoes(s1.(metrics := m), at, r, o);
      SubmitDoes(c, s1.(metrics := m), at, r.payload, o);
    }
  }

  lemma FinishDoes(s: State, at: Position, o: Outcomes, guarded: bool)
    requires at.partition < |s.committed|
    ensures Finish(s, at, o, guarded)
      == s.(committed := if o.commitLanded then s.committed[at.partition := at.offset + 1] else s.committed,
            phase := if o.commitOk then Polling else Stopped,
            metrics := s.metrics.(failed := s.metrics.failed + (if guarded && !o.commitOk then 1 else 0)))
  {
  }

  lemma RejectDoes(s: State, at: Position, r: Record, o: Outcomes)
    requires at.partition < |s.committed|
    ensures var s1 := Reject(s, at, r, o);
      && s1.log == s.log && s1.cursor == s.cursor && SameChain(s, s1)
      && s1.metrics == s.metrics.(rejectedOversized := s.metrics.rejectedOversized + 1)
      && s1.dlq == s.dlq + (if o.dlqLanded then [DlqEntry(r, at)] else [])
      && s1.committed == (if o.dlqOk && o.commitLanded then s.committed[at.partition := at.offset + 1] else s.committed)
      && s1.phase == if o.dlqOk && o.commitOk then Polling else Stopped
  {
  }

  lemma SubmitDoes(c: Config, s: State, at: Position, payload: Bytes, o: Outcomes)
    requires at.partition < |s.committed|
    ensures var s1 := Submit(c, s, at, payload, o);
      var resolved := Watch(c, o.statuses).Resolved?;
      && s1.log == s.log && s1.cursor == s.cursor && s1.dlq == s.dlq
      && s1.history == s.history + (if o.fate.Applied? then [Some(payload)] else [])
      && s1.limbo == s.limbo + (if !resolved && o.fate.Waiting? then [payload] else [])
      && s1.metrics == (if resolved then s.metrics.(anchored := s.metrics.anchored + 1, failed := s.metrics.failed + (if o.commitOk then 0 else 1))
                        else s.metrics.(failed := s.metrics.failed + 1))
      && s1.committed == (if resolved && o.commitLanded then s.committed[at.partition := at.offset + 1] else s.committed)
      && s1.phase == if resolved && o.commitOk then Polling else Stopped
  {
    hide Watch;
  }

  lemma FinishIsStep(c: Config, s: State, at: Position, o: Outcomes, guarded: bool)
    requires s.phase == Committing(at, guarded) && at.partition < |s.committed| && Possible(c, o)
    ensures Step(c, s, CommitDone(o.commitOk, o.commitLanded)) == Finish(s, at, o, guarded)
  {
  }

  lemma ChainDecides(c: Config, s: State, fate: Fate)
    requires s.phase.Submitting? && s.phase.fate.Waiting? && RecordAt(s, s.phase.at).Batched?
    ensures Run(c, s, Fated(fate))
         == (if fate.Applied? then Write(s, RecordAt(s, s.phase.at).payload) else s).(phase := Submitting(s.phase.at, fate))
  {
    if !fate.Waiting? {
      RunOne(c, s, ChainSettles(fate.Applied?));
    }
  }

  lemma RunThreeParts(c: Config, s: State, a: seq<Event>, e: Event, b: seq<Event>)
    ensures Run(c, s, a + [e] + b) == Run(c, Step(c, Run(c, s, a), e), b)
  {
    RunOne(c, Run(c, s, a), e);
    hide Run, Step;
    RunConcat(c, s, a, [e]);
    RunConcat(c, s, a + [e], b);
  }

  lemma SubmitIsRun(c: Config, s: State, at: Position, o: Outcomes)
    requires s.phase == Submitting(at, Waiting) && at.partition < |s.committed| && Possible(c, o)
    requires RecordAt(s, at).Batched?
    ensures Run(c, s, Fated(o.fate) + [SubmitDone(SubmitOk(c, o))] + (if SubmitOk(c, o) then [CommitDone(o.commitOk, o.commitLanded)] else []))
         == Submit(c, s, at, RecordAt(s, at).payload, o)
  {
    ChainDecides(c, s, o.fate);
    if SubmitOk(c, o) {
      ResolvedMayResolve(c, o);
    }
    hide Watch, Possible;
    var s1 := Run(c, s, Fated(o.fate));
    var s2 := Step(c, s1, SubmitDone(SubmitOk(c, o)));
    RunThreeParts(c, s, Fated(o.fate), SubmitDone(SubmitOk(c, o)),
                  if SubmitOk(c, o) then [CommitDone(o.commitOk, o.commitLanded)] else []);
    if SubmitOk(c, o) {
      assert s2 == s1.(phase := Committing(at, true), metrics := s.metrics.(anchored := s.metrics.anchored + 1));
      RunOne(c, s2, CommitDone(o.commitOk, o.commitLanded));
      FinishIsStep(c, s2, at, o, true);
      hide Run, Step;
    } else {
      hide Run;
    }
  }

  /** One pass of the loop is a run of the machine. */
  lemma PassIsRun(c: Config, s: State, p: nat, o: Outcomes)
    requires WellFormed(s) && Available(s, p) && Possible(c, o)
    ensures Run(c, s, Path(c, s, p, o)) == Pass(c, s, p, o)
  {
    var s1 := Step(c, s, Deliver(p));
    var at := Position(p, s.cursor[p]);
    var commit := [CommitDone(o.commitOk, o.commitLanded)];
    RunOne(c, s, Deliver(p));
    match s.log[p][at.offset]
    case NullValue =>
    case Foreign =>
    case Malformed =>
      RunTwo(c, s, Deliver(p), CommitDone(o.commitOk, o.commitLanded));
      FinishIsStep(c, s1, at, o, false);
    case Batched(payload, payloadHash) =>
      if |payload| > c.maxPayloadBytes {
        OversizedPass(c, s, p, o);
      } else {
        InLimitPass(c, s, p, o);
      }
  }

  lemma OversizedPass(c: Config, s: State, p: nat, o: Outcomes)
    requires WellFormed(s) && Available(s, p) && Possible(c, o) && Oversized(c, s.log[p][s.cursor[p]])
    ensures Run(c, s, Path(c, s, p, o)) == Pass(c, s, p, o)
  {
    var s2 := Step(c, Step(c, s, Deliver(p)), DlqSendDone(o.dlqOk, o.dlqLanded));
    RunTwo(c, s, Deliver(p), DlqSendDone(o.dlqOk, o.dlqLanded));
    if o.dlqOk {
      RunOne(c, s2, CommitDone(o.commitOk, o.commitLanded));
      RunConcat(c, s, [Deliver(p), DlqSendDone(o.dlqOk, o.dlqLanded)], [CommitDone(o.commitOk, o.commitLanded)]);
      FinishIsStep(c, s2, Position(p, s.cursor[p]), o, false);
    }
  }

  lemma PhaseIsOverwritten(c: Config, s: State, phase: Phase, at: Position, payload: Bytes, o: Outcomes)
    requires at.partition < |s.committed|
    ensures Submit(c, s.(phase := phase), at, payload, o) == Submit(c, s, at, payload, o)
    ensures Finish(s.(phase := phase), at, o, true) == Finish(s, at, o, true)
  {
  }

  /** Taking the next message and reading the cell. */
  lemma ReadsAndCompares(c: Config, s: State, p: nat, readOk: bool)
    requires WellFormed(s) && Available(s, p) && Anchorable(c, s.log[p][s.cursor[p]])
    ensures var at := Position(p, s.cursor[p]);
      var m := s.metrics.(consumed := s.metrics.consumed + 1);
      var s1 := s.(cursor := s.cursor[p := at.offset + 1], metrics := m);
      Run(c, s, [Deliver(p), ReadDone(readOk)])
        == if AnchoredPayloadMatches(c, ReadCell(s, readOk), s.log[p][at.offset].payloadHash)
           then s1.(phase := Committing(at, true), metrics := m.(skippedDuplicate := m.skippedDuplicate + 1))
           else s1.(phase := Submitting(at, Waiting))
  {
    RunTwo(c, s, Deliver(p), ReadDone(readOk));
  }

  lemma InLimitPass(c: Config, s: State, p: nat, o: Outcomes)
    requires WellFormed(s) && Available(s, p) && Possible(c, o) && Anchorable(c, s.log[p][s.cursor[p]])
    ensures Run(c, s, Path(c, s, p, o)) == Pass(c, s, p, o)
  {
    hide Run, Step, Submit, Finish;
    var at := Position(p, s.cursor[p]);
    var m := s.metrics.(consumed := s.metrics.consumed + 1);
    var s1 := s.(cursor := s.cursor[p := at.offset + 1], metrics := m);
    var s2 := Run(c, s, [Deliver(p), ReadDone(o.readOk)]);
    ReadsAndCompares(c, s, p, o.readOk);
    if AnchoredPayloadMatches(c, ReadCell(s, o.readOk), s.log[p][at.offset].payloadHash) {
      RunOne(c, s2, CommitDone(o.commitOk, o.commitLanded));
      FinishIsStep(c, s2, at, o, true);
      var skipped := s1.(metrics := m.(skippedDuplicate := m.skippedDuplicate + 1));
      PhaseIsOverwritten(c, skipped, Committing(at, true), at, [], o);
      RunConcat(c, s, [Deliver(p), ReadDone(o.readOk)], [CommitDone(o.commitOk, o.commitLanded)]);
    } else {
      var rest := Fated(o.fate) + [SubmitDone(SubmitOk(c, o))] + (if SubmitOk(c, o) then [CommitDone(o.commitOk, o.commitLanded)] else []);
      SubmitIsRun(c, s2, at, o);
      PhaseIsOverwritten(c, s1, Submitting(at, Waiting), at, s.log[p][at.offset].payload, o);
      RunConcat(c, s, [Deliver(p), ReadDone(o.readOk)], rest);
      assert [Deliver(p), ReadDone(o.readOk)] + rest == Path(c, s, p, o);
    }
  }

  /** A message waits for the consumer with how its awaits will turn out; `stopping`: stop was called before it arrived. */
  datatype Delivery = Delivery(stopping: bool, partition: nat, outcomes: Outcomes)

  /** The events that a stream of deliveries goes through: the loop ends at a stop or a failure. */
  function Trace(c: Config, s: State, stream: seq<Delivery>): seq<Event>
    decreases |stream|
  {
    if stream == [] || !s.phase.Polling? then []
    else if stream[0].stopping then [Break]
    else if !Available(s, stream[0].partition) then Trace(c, s, stream[1..])
    else
      var pass := Path(c, s, stream[0].partition, stream[0].outcomes);
      pass + Trace(c, Run(c, s, pass), stream[1..])
  }

  lemma FinishIsWellFormed(s: State, at: Position, o: Outcomes, guarded: bool)
    requires WellFormed(s) && AtRecord(s, at)
    ensures WellFormed(Finish(s, at, o, guarded))
  {
  }

  lemma SubmitIsWellFormed(c: Config, s: State, at: Position, payload: Bytes, o: Outcomes)
    requires WellFormed(s) && AtRecord(s, at)
    ensures WellFormed(Submit(c, s, at, payload, o))
  {
    var s1 := if o.fate.Applied? then Write(s, payload) else s;
    FinishIsWellFormed(s1.(metrics := s.metrics.(anchored := s.metrics.anchored + 1)), at, o, true);
    hide Finish;
  }

  lemma PassKeepsWellFormed(c: Config, s: State, p: nat, o: Outcomes)
    requires WellFormed(s) && Available(s, p)
    ensures WellFormed(Pass(c, s, p, o))
  {
    hide Finish, Submit;
    var at := Position(p, s.cursor[p]);
    var r := s.log[p][at.offset];
    var s1 := s.(cursor := s.cursor[p := at.offset + 1]);
    assert WellFormed(s1) && AtRecord(s1, at);
    var m := s.metrics.(consumed := s.metrics.consumed + 1);
    FinishIsWellFormed(s1, at, o, false);
    FinishIsWellFormed(s1.(metrics := m.(skippedDuplicate := m.skippedDuplicate + 1)), at, o, true);
    if r.Batched? {
      SubmitIsWellFormed(c, s1.(metrics := m), at, r.payload, o);
      var s2 := s1.(metrics := m.(rejectedOversized := m.rejectedOversized + 1),
                    dlq := if o.dlqLanded then s.dlq + [DlqEntry(r, at)] else s.dlq);
      FinishIsWellFormed(s2, at, o, false);
    }
  }

  lemma NothingRuns(c: Config, s: State)
    ensures Run(c, s, []) == s
  {
  }

  lemma BreakStops(c: Config, s: State)
    requires s.phase.Polling?
    ensures Run(c, s, [Break]) == s.(phase := Stopped)
  {
    RunOne(c, s, Break);
  }

  lemma TraceEnds(c: Config, s: State, stream: seq<Delivery>)
    requires stream == [] || !s.phase.Polling?
    ensures Trace(c, s, stream) == []
  {
  }

  /** The first delivery's part of a trace. */
  lemma TraceUnfolds(c: Config, s: State, stream: seq<Delivery>, done: seq<Event>)
    requires stream != [] && s.phase.Polling?
    ensures done + Trace(c, s, stream)
      == if stream[0].stopping then done + [Break]
         else if !Available(s, stream[0].partition) then done + Trace(c, s, stream[1..])
         else
           var pass := Path(c, s, stream[0].partition, stream[0].outcomes);
           (done + pass) + Trace(c, Run(c, s, pass), stream[1..])
  {
    hide Run, Path;
  }

  class AnchorService {
    const config: Config
    // Kafka and the chain, as this process drives them.
    var log: seq<seq<Record>>
    var committed: seq<nat>
    var cursor: seq<nat>
    var dlq: seq<DlqEntry>
    var history: seq<Option<Bytes>>
    var limbo: seq<Bytes>
    // The process itself.
    var running: bool
    var consumed: nat
    var anchored: nat
    var skippedDuplicate: nat
    var failed: nat
    var rejectedOversized: nat

    ghost function View(): State
      reads this
    {
      State(log, committed, dlq, history, limbo, cursor, if running then Polling else Stopped,
            Metrics(consumed, anchored, skippedDuplicate, failed, rejectedOversized))
    }

    constructor (config: Config, log: seq<seq<Record>>, onChain: Option<Bytes>)
      ensures this.config == config && View() == Init(log, onChain)
    {
      this.config := config;
      this.log, history := log, [onChain];
      committed, cursor := seq(|log|, _ => 0), seq(|log|, _ => 0);
      dlq, limbo, running := [], [], false;
      consumed, anchored, skippedDuplicate, failed, rejectedOversized := 0, 0, 0, 0, 0;
    }

    /** A start of a running service is skipped. */
    method Start()
      modifies this
      ensures View() == Step(config, old(View()), Anchor.Event.Start)
    {
      if running {
        return;
      }
      cursor, running := committed, true;
    }

    /** A failed read is logged and taken for an empty cell. */
    method GetAnchoredPayload(readOk: bool) returns (payload: Option<Bytes>)
      ensures payload == ReadCell(View(), readOk)
    {
      if !readOk || history == [] {
        return None;
      }
      return Last(history);
    }

    /** A commit that fails throws: the catch of the try block counts it, and the loop ends. */
    method Commit(at: Position, o: Outcomes, guarded: bool)
      requires running && at.partition < |committed|
      modifies this`committed, this`running, this`failed
      ensures View() == Finish(old(View()), at, o, guarded)
    {
      if o.commitLanded {
        committed := committed[at.partition := at.offset + 1];
      }
      if !o.commitOk {
        if guarded {
          failed := failed + 1;
        }
        running := false;
      }
    }

    /**
     * Submit the payload and await the promise that its status updates settle; the chain
     * applies it, drops it, or has yet to decide by then.
     */
    method SendSetPayloadExtrinsic(payload: Bytes, o: Outcomes) returns (ok: bool)
      modifies this`history, this`limbo
      ensures ok <==> SubmitOk(config, o)
      ensures history == if o.fate.Applied? then old(history) + [Some(payload)] else old(history)
      ensures limbo == if o.fate.Waiting? then old(limbo) + [payload] else old(limbo)
    {
      var promise := Unsettled;
      for i := 0 to |o.statuses|
        invariant promise == Watch(config, o.statuses[..i])
      {
        assert Front(o.statuses[..i + 1]) == o.statuses[..i];
        if promise.Unsettled? {
          promise := OnStatus(config, o.statuses[i]);
        }
      }
      assert o.statuses[..|o.statuses|] == o.statuses;
      ok := promise.Resolved?;
      if o.fate.Applied? {
        history := history + [Some(payload)];
      } else if o.fate.Waiting? {
        limbo := limbo + [payload];
      }
    }

    /** `publishOversizedToDlq`. */
    method PublishOversizedToDlq(record: Record, at: Position, o: Outcomes)
      modifies this`dlq
      ensures dlq == if o.dlqLanded then old(dlq) + [DlqEntry(record, at)] else old(dlq)
    {
      if o.dlqLanded {
        dlq := dlq + [DlqEntry(record, at)];
      }
    }

    /** The try block and its catch: read, compare, submit unless already anchored, commit; anything thrown ends the loop. */
    method AnchorBatch(at: Position, payload: Bytes, payloadHash: Bytes, o: Outcomes)
      requires running && at.partition < |committed| && Possible(config, o)
      modifies this
      ensures var s := old(View());
        View() == if AnchoredPayloadMatches(config, ReadCell(s, o.readOk), payloadHash)
          then Finish(s.(metrics := s.metrics.(skippedDuplicate := s.metrics.skippedDuplicate + 1)), at, o, true)
          else Submit(config, s, at, payload, o)
    {
      var anchoredPayload := GetAnchoredPayload(o.readOk);
      var matches := false;
      if anchoredPayload.Some? {
        matches := BytesEqual(config.blake2(anchoredPayload.value), payloadHash);
      }
      if matches {
        skippedDuplicate := skippedDuplicate + 1;
      } else {
        ResolvedHasFate(config, o);
        var ok := SendSetPayloadExtrinsic(payload, o);
        if !ok {
          failed := failed + 1;
          running := false;
          return;
        }
        anchored := anchored + 1;
      }
      hide Finish;
      Commit(at, o, true);
    }

    /** The oversized branch of the loop. */
    method RejectOversized(record: Record, at: Position, o: Outcomes)
      requires running && at.partition < |committed|
      modifies this
      ensures View() == Reject(old(View()), at, record, o)
    {
      rejectedOversized := rejectedOversized + 1;
      PublishOversizedToDlq(record, at, o);
      if !o.dlqOk {
        running := false;
        return;
      }
      hide Finish;
      Commit(at, o, false);
    }

    /** One pass of the `for await` loop. */
    method ProcessMessage(p: nat, o: Outcomes)
      requires Available(View(), p) && |committed| == |log| && Possible(config, o)
      modifies this
      ensures View() == Pass(config, old(View()), p, o)
    {
      hide Finish, Submit, Reject;
      var at := Position(p, cursor[p]);
      var message := log[p][at.offset];
      cursor := cursor[p := at.offset + 1];
      if message.NullValue? || message.Foreign? {
        return;
      }
      if message.Malformed? {
        Commit(at, o, false);
        return;
      }
      consumed := consumed + 1;
      if |message.payload| > config.maxPayloadBytes {
        RejectOversized(message, at, o);
        return;
      }
      AnchorBatch(at, message.payload, message.payloadHash, o);
    }

    /** The loop over the stream, until a stop or a failure ends it. */
    method ConsumeStream(stream: seq<Delivery>)
      requires WellFormed(View()) && running
      requires forall d <- stream :: Possible(config, d.outcomes)
      modifies this
      ensures View() == Run(config, old(View()), Trace(config, old(View()), stream))
    {
      hide Run, Pass, Path, Trace, Step;
      NothingRuns(config, View());
      ghost var done: seq<Event> := [];
      var i := 0;
      while i < |stream| && running
        invariant 0 <= i <= |stream|
        invariant WellFormed(View())
        invariant View() == Run(config, old(View()), done)
        invariant done + Trace(config, View(), stream[i..]) == Trace(config, old(View()), stream)
      {
        ghost var s := View();
        var d := stream[i];
        TraceUnfolds(config, s, stream[i..], done);
        assert stream[i..][0] == d && stream[i..][1..] == stream[i + 1..];
        i := i + 1;
        if d.stopping {
          running := false;
          BreakStops(config, s);
          RunConcat(config, old(View()), done, [Break]);
          done := done + [Break];
          assert done == Trace(config, old(View()), stream);
          return;
        }
        if d.partition < |cursor| && cursor[d.partition] < |log[d.partition]| {
          ghost var pass := Path(config, s, d.partition, d.outcomes);
          PassIsRun(config, s, d.partition, d.outcomes);
          PassKeepsWellFormed(config, s, d.partition, d.outcomes);
          ProcessMessage(d.partition, d.outcomes);
          RunConcat(config, old(View()), done, pass);
          done := done + pass;
        }
      }
      TraceEnds(config, View(), stream[i..]);
      assert done + [] == done;
    }
  }

  /** `bytesEqual`. */
  method BytesEqual(a: Bytes, b: Bytes) returns (equal: bool)
    ensures equal <==> a == b
  {
    if |a| != |b| {
      return false;
    }
    for i := 0 to |a|
      invariant a[..i] == b[..i]
    {
      if a[i] != b[i] {
        return false;
      }
    }
    assert a[..|a|] == a && b[..|b|] == b;
    return true;
  }
}
