/** What every run of the anchor keeps: nothing committed is missing. */
module AnchorSafety {
  import opened Common
  import opened Anchor

  /** On honest records the comparison of hashes is the comparison of payloads. */
  lemma HashesCompareBytes(c: Config, cell: Option<Bytes>, payload: Bytes)
    requires Injective(c.blake2)
    ensures AnchoredPayloadMatches(c, cell, c.blake2(payload)) <==> cell == Some(payload)
  {
    if cell.Some? && c.blake2(cell.value) == c.blake2(payload) {
      assert cell.value == payload;
    }
  }

  /** The step does not take an extrinsic that failed on chain for one that succeeded. */
  predicate Noticed(s: State, e: Event) {
    s.phase.Submitting? && s.phase.fate.Dropped? ==> e != SubmitDone(true)
  }

  /** No step of the run does: always so if the metadata names ExtrinsicFailed, otherwise if no extrinsic fails unnoticed. */
  predicate FailuresNoticed(c: Config, s: State, es: seq<Event>) {
    es == [] || (
      && FailuresNoticed(c, s, Front(es))
      && (c.reportsFailure || Noticed(Run(c, s, Front(es)), Last(es))))
  }

  lemma {:induction false} ReportedFailuresAreNoticed(c: Config, s: State, es: seq<Event>)
    requires c.reportsFailure
    ensures FailuresNoticed(c, s, es)
  {
    if es != [] {
      ReportedFailuresAreNoticed(c, s, Front(es));
    }
  }

  // ---------------------------------------------------------------------------
  // Nothing below a committed offset is missing
  // ---------------------------------------------------------------------------

  /** Every payloadHash of the topic is the digest of its payload, as the batcher computes it. */
  ghost predicate Honest(c: Config, log: seq<seq<Record>>) {
    forall p, o :: 0 <= p < |log| && 0 <= o < |log[p]| && log[p][o].Batched? ==>
      log[p][o].payloadHash == c.blake2(log[p][o].payload)
  }

  /** A batched record has been the on-chain payload, or is in the DLQ if it is too large. */
  ghost predicate Settled(c: Config, s: State, at: Position)
    requires at.partition < |s.log| && at.offset < |s.log[at.partition]|
  {
    var r := s.log[at.partition][at.offset];
    && (r.Batched? && |r.payload| <= c.maxPayloadBytes ==> Some(r.payload) in s.history)
    && (r.Batched? && |r.payload| > c.maxPayloadBytes ==> DlqEntry(r, at) in s.dlq)
  }

  ghost predicate SettledBelow(c: Config, s: State, bounds: seq<nat>) {
    && |bounds| == |s.log|
    && forall p, o :: 0 <= p < |s.log| && 0 <= o < bounds[p] && o < |s.log[p]| ==> Settled(c, s, Position(p, o))
  }

  /** While a record is being processed, every record read before it is settled. */
  ghost predicate InOrderAt(c: Config, s: State, at: Position)
    requires WellFormed(s) && AtRecord(s, at)
  {
    && s.committed[at.partition] <= at.offset
    && SettledBelow(c, s, s.cursor[at.partition := at.offset])
    && (s.phase.DlqSend? ==> Oversized(c, RecordAt(s, at)))
    && (s.phase.ChainRead? || s.phase.Submitting? ==> Anchorable(c, RecordAt(s, at)))
    && (s.phase.Submitting? && s.phase.fate.Applied? ==> Some(RecordAt(s, at).payload) in s.history)
    && (s.phase.Committing? ==> Settled(c, s, at))
  }

  /** What is settled while the loop runs: all it has read, except the record it is working on. */
  ghost predicate InOrder(c: Config, s: State)
    requires WellFormed(s)
  {
    && (forall p :: 0 <= p < |s.log| ==> s.committed[p] <= s.cursor[p])
    && if s.phase.Stopped? then true
       else if s.phase.Polling? then SettledBelow(c, s, s.cursor)
       else InOrderAt(c, s, s.phase.at)
  }

  ghost predicate Inv(c: Config, s: State) {
    && WellFormed(s)
    && SettledBelow(c, s, s.committed)
    && (!s.phase.Stopped? ==> InOrder(c, s))
  }

  ghost predicate Extends(s: State, s1: State) {
    && |s.log| == |s1.log|
    && (forall p :: 0 <= p < |s.log| ==> s.log[p] <= s1.log[p])
    && s.dlq <= s1.dlq
    && s.history <= s1.history
  }

  lemma SettledIsKept(c: Config, s: State, s1: State, bounds: seq<nat>)
    requires Extends(s, s1) && SettledBelow(c, s, bounds)
    requires forall p :: 0 <= p < |bounds| ==> bounds[p] <= |s.log[p]|
    ensures SettledBelow(c, s1, bounds)
  {
    forall p, o | 0 <= p < |s1.log| && 0 <= o < bounds[p] && o < |s1.log[p]| ensures Settled(c, s1, Position(p, o)) {
      assert s.log[p] <= s1.log[p] && s1.log[p][o] == s.log[p][o];
      assert Settled(c, s, Position(p, o));
    }
  }

  lemma StoppingKeeps(c: Config, s: State, s1: State)
    requires Inv(c, s) && Extends(s, s1) && s1.log == s.log && s1.phase.Stopped? && s1.committed == s.committed && s1.cursor == s.cursor
    ensures Inv(c, s1)
  {
    SettledIsKept(c, s, s1, s.committed);
  }

  /** A record with nothing to anchor is settled as soon as it is read. */
  lemma ReadPastNothing(c: Config, s: State, bounds: seq<nat>, p: nat)
    requires SettledBelow(c, s, bounds) && p < |s.log| && bounds[p] < |s.log[p]| && !s.log[p][bounds[p]].Batched?
    ensures SettledBelow(c, s, bounds[p := bounds[p] + 1])
  {
  }

  lemma AcceptKeeps(c: Config, s: State, p: nat)
    requires Inv(c, s) && s.phase.Polling? && p < |s.log| && s.cursor[p] < |s.log[p]|
    ensures Inv(c, Accept(c, s, p))
  {
    var s1 := Accept(c, s, p);
    SettledIsKept(c, s, s1, s.committed);
    SettledIsKept(c, s, s1, s.cursor);
    hide SettledBelow;
    if s1.phase.Polling? {
      ReadPastNothing(c, s1, s.cursor, p);
    } else {
      assert s1.cursor[p := s.cursor[p]] == s.cursor;
    }
  }

  /** Moves of the phase at one record, with nothing forgotten. */
  lemma SameRecordKeeps(c: Config, s: State, s1: State)
    requires Inv(c, s) && !s.phase.Stopped? && !s.phase.Polling?
    requires Extends(s, s1) && s1.log == s.log && s1.committed == s.committed && s1.cursor == s.cursor
    requires s1.phase.Submitting? || s1.phase.Committing?
    requires s1.phase.at == s.phase.at
    requires s1.phase.Submitting? ==> Anchorable(c, RecordAt(s, s.phase.at))
    requires s1.phase.Submitting? && s1.phase.fate.Applied? ==> Some(RecordAt(s, s.phase.at).payload) in s1.history
    requires s1.phase.Committing? ==> Settled(c, s1, s.phase.at)
    ensures Inv(c, s1)
  {
    SettledIsKept(c, s, s1, s.committed);
    SettledIsKept(c, s, s1, s.cursor[s.phase.at.partition := s.phase.at.offset]);
  }

  lemma CompareKeeps(c: Config, s: State, ok: bool)
    requires Inv(c, s) && s.phase.ChainRead? && Injective(c.blake2) && Honest(c, s.log)
    ensures Inv(c, Compare(c, s, ok))
  {
    var r := RecordAt(s, s.phase.at);
    var cell := ReadCell(s, ok);
    if AnchoredPayloadMatches(c, cell, r.payloadHash) {
      assert r.payloadHash == c.blake2(r.payload);
      assert cell.value == r.payload && cell in s.history;
    }
    SameRecordKeeps(c, s, Compare(c, s, ok));
  }

  lemma CommitLands(c: Config, s: State)
    requires Inv(c, s) && s.phase.Committing?
    ensures var s1 := s.(committed := s.committed[s.phase.at.partition := s.phase.at.offset + 1], phase := Polling);
      Inv(c, s1) && forall p :: 0 <= p < |s.log| ==> s.committed[p] <= s1.committed[p]
  {
    var at := s.phase.at;
    var s1 := s.(committed := s.committed[at.partition := at.offset + 1], phase := Polling);
    assert s1.cursor[at.partition] == at.offset + 1;
    forall p, o | 0 <= p < |s.log| && 0 <= o < s.cursor[p] ensures Settled(c, s1, Position(p, o)) {
      assert Settled(c, s, Position(p, o));
    }
  }

  lemma StartKeeps(c: Config, s: State)
    requires Inv(c, s)
    ensures Inv(c, Step(c, s, Start))
  {
  }

  lemma DlqSendKeeps(c: Config, s: State, ok: bool, landed: bool)
    requires Inv(c, s) && s.phase.DlqSend? && (ok ==> landed)
    ensures Inv(c, Step(c, s, DlqSendDone(ok, landed)))
  {
    var s1 := Step(c, s, DlqSendDone(ok, landed));
    if ok {
      SameRecordKeeps(c, s, s1);
    } else {
      StoppingKeeps(c, s, s1);
    }
  }

  lemma SubmitKeeps(c: Config, s: State, ok: bool)
    requires Inv(c, s) && s.phase.Submitting? && (c.reportsFailure || Noticed(s, SubmitDone(ok)))
    ensures Inv(c, Step(c, s, SubmitDone(ok)))
  {
    var s1 := Step(c, s, SubmitDone(ok));
    if !ok {
      StoppingKeeps(c, s, s1);
    } else if s.phase.fate.Applied? {
      SameRecordKeeps(c, s, s1);
    }
  }

  lemma ChainKeeps(c: Config, s: State, applied: bool)
    requires Inv(c, s)
    ensures Inv(c, Step(c, s, ChainSettles(applied)))
  {
    if Step(c, s, ChainSettles(applied)) != s {
      SameRecordKeeps(c, s, Step(c, s, ChainSettles(applied)));
    }
  }

  lemma CommittedOnlyByCommit(c: Config, s: State, e: Event)
    requires !e.CommitDone?
    ensures Step(c, s, e).committed == s.committed
  {
    hide RecordAt, AnchoredPayloadMatches, ReadCell;
  }

  lemma StepKeepsInv(c: Config, s: State, e: Event)
    requires Inv(c, s) && Injective(c.blake2) && Honest(c, s.log) && (c.reportsFailure || Noticed(s, e))
    ensures Inv(c, Step(c, s, e))
  {
    var s1 := Step(c, s, e);
    assert WellFormed(s);
    hide Inv, Honest, Injective, MayResolve;
    match e
    case TopicGrows(log) => if s1 != s { GrowthKeeps(c, s, s1); }
    case Start => StartKeeps(c, s);
    case Break => if s.phase.Polling? { StoppingKeeps(c, s, s1); }
    case Halt => StoppingKeeps(c, s, s1);
    case Deliver(p) => if s.phase.Polling? && p < |s.log| && s.cursor[p] < |s.log[p]| { AcceptKeeps(c, s, p); }
    case DlqSendDone(ok, landed) => if s.phase.DlqSend? && (ok ==> landed) { DlqSendKeeps(c, s, ok, landed); }
    case ReadDone(ok) => if s.phase.ChainRead? && RecordAt(s, s.phase.at).Batched? { CompareKeeps(c, s, ok); }
    case ChainSettles(applied) => ChainKeeps(c, s, applied);
    case LimboSettles(i, applied) => if i < |s.limbo| { LimboKeeps(c, s, s1); }
    case SubmitDone(ok) => if s.phase.Submitting? { SubmitKeeps(c, s, ok); }
    case CommitDone(ok, landed) => if s.phase.Committing? && (ok ==> landed) { CommitDoneKeeps(c, s, ok, landed); }
  }

  lemma StepKeeps(c: Config, s: State, e: Event)
    requires Inv(c, s) && Injective(c.blake2) && Honest(c, s.log) && (c.reportsFailure || Noticed(s, e))
    ensures Inv(c, Step(c, s, e))
    ensures forall p :: 0 <= p < |s.log| ==> s.committed[p] <= Step(c, s, e).committed[p]
  {
    StepKeepsInv(c, s, e);
    assert |s.committed| == |s.log|;
    hide Inv, Honest, Injective;
    match e
    case CommitDone(ok, landed) => if s.phase.Committing? && (ok ==> landed) { CommitDoneKeeps(c, s, ok, landed); }
    case _ => CommittedOnlyByCommit(c, s, e);
  }

  lemma CommitDoneKeeps(c: Config, s: State, ok: bool, landed: bool)
    requires Inv(c, s) && s.phase.Committing? && (ok ==> landed)
    ensures Inv(c, Step(c, s, CommitDone(ok, landed)))
    ensures forall p :: 0 <= p < |s.log| ==> s.committed[p] <= Step(c, s, CommitDone(ok, landed)).committed[p]
  {
    var s1 := Step(c, s, CommitDone(ok, landed));
    CommitLands(c, s);
    if !ok {
      var polling := s.(committed := s.committed[s.phase.at.partition := s.phase.at.offset + 1], phase := Polling);
      StoppingKeeps(c, if landed then polling else s, s1);
    }
  }

  lemma GrowthKeeps(c: Config, s: State, s1: State)
    requires Inv(c, s) && Extends(s, s1) && s1 == s.(log := s1.log)
    ensures Inv(c, s1)
  {
    SettledIsKept(c, s, s1, s.committed);
    assert forall p :: 0 <= p < |s.log| ==> |s.log[p]| <= |s1.log[p]|;
    if s.phase.Polling? {
      SettledIsKept(c, s, s1, s.cursor);
    } else if !s.phase.Stopped? {
      var at := s.phase.at;
      SettledIsKept(c, s, s1, s.cursor[at.partition := at.offset]);
      assert s.log[at.partition] <= s1.log[at.partition];
      assert RecordAt(s1, at) == RecordAt(s, at);
    }
  }

  lemma LimboKeeps(c: Config, s: State, s1: State)
    requires Inv(c, s) && Extends(s, s1) && s1 == s.(limbo := s1.limbo, history := s1.history)
    ensures Inv(c, s1)
  {
    SettledIsKept(c, s, s1, s.committed);
    if s.phase.Polling? {
      SettledIsKept(c, s, s1, s.cursor);
    } else if !s.phase.Stopped? {
      SettledIsKept(c, s, s1, s.cursor[s.phase.at.partition := s.phase.at.offset]);
    }
  }

  /** The topic only grows, so a run that ends over honest records had honest records throughout. */
  lemma HonestBefore(c: Config, s: State, e: Event)
    requires Honest(c, Step(c, s, e).log)
    ensures Honest(c, s.log)
  {
    var log := Step(c, s, e).log;
    forall p, o | 0 <= p < |s.log| && 0 <= o < |s.log[p]| && s.log[p][o].Batched?
      ensures s.log[p][o].payloadHash == c.blake2(s.log[p][o].payload)
    {
      assert s.log[p] <= log[p] && log[p][o] == s.log[p][o];
    }
  }

  lemma {:induction false} RunKeeps(c: Config, log: seq<seq<Record>>, onChain: Option<Bytes>, es: seq<Event>)
    requires Injective(c.blake2) && FailuresNoticed(c, Init(log, onChain), es) && Honest(c, After(c, log, onChain, es).log)
    ensures Inv(c, After(c, log, onChain, es))
  {
    if es != [] {
      HonestBefore(c, After(c, log, onChain, Front(es)), Last(es));
      RunKeeps(c, log, onChain, Front(es));
      StepKeeps(c, After(c, log, onChain, Front(es)), Last(es));
    }
  }

  /**
   * Over any partitions and any failures that are noticed, chain reads included: each
   * batched record below a committed offset has been the on-chain payload, or is in the DLQ.
   */
  lemma NothingCommittedIsMissing(c: Config, log: seq<seq<Record>>, onChain: Option<Bytes>, es: seq<Event>)
    requires Injective(c.blake2) && FailuresNoticed(c, Init(log, onChain), es) && Honest(c, After(c, log, onChain, es).log)
    ensures var s := After(c, log, onChain, es); SettledBelow(c, s, s.committed)
  {
    RunKeeps(c, log, onChain, es);
  }

  lemma StepIsWellFormed(c: Config, s: State, e: Event)
    requires WellFormed(s)
    ensures WellFormed(Step(c, s, e)) && |Step(c, s, e).log| == |s.log|
    ensures forall p :: 0 <= p < |s.log| ==> s.log[p] <= Step(c, s, e).log[p]
  {
    hide AnchoredPayloadMatches, ReadCell, MayResolve, RecordAt;
    match e
    case TopicGrows(log) => GrowthIsWellFormed(s, log);
    case Deliver(_) =>
    case DlqSendDone(_, _) =>
    case CommitDone(_, _) =>
    case _ =>
  }

  lemma GrowthIsWellFormed(s: State, log: seq<seq<Record>>)
    requires WellFormed(s)
    ensures |log| == |s.log| && (forall p :: 0 <= p < |log| ==> s.log[p] <= log[p]) ==> WellFormed(s.(log := log))
  {
    if |log| == |s.log| && forall p :: 0 <= p < |log| ==> s.log[p] <= log[p] {
      assert forall p :: 0 <= p < |log| ==> |s.log[p]| <= |log[p]|;
      if !s.phase.Stopped? && !s.phase.Polling? {
        assert s.log[s.phase.at.partition] <= log[s.phase.at.partition];
      }
    }
  }

  // ---------------------------------------------------------------------------
  // Nothing else is written
  // ---------------------------------------------------------------------------

  /** The payload is that of a batched record of the topic, within the limit. */
  ghost predicate FromTopic(c: Config, log: seq<seq<Record>>, payload: Bytes) {
    exists p: nat, o: nat :: IsPayloadAt(c, log, p, o, payload)
  }

  ghost predicate IsPayloadAt(c: Config, log: seq<seq<Record>>, p: nat, o: nat, payload: Bytes) {
    && p < |log| && o < |log[p]| && log[p][o].Batched?
    && log[p][o].payload == payload && |payload| <= c.maxPayloadBytes
  }

  /** The entry is a record of the topic with the position it came from, and exceeds the limit. */
  ghost predicate IsRejected(c: Config, log: seq<seq<Record>>, d: DlqEntry) {
    && d.at.partition < |log| && d.at.offset < |log[d.at.partition]|
    && d.record == log[d.at.partition][d.at.offset]
    && d.record.Batched? && |d.record.payload| > c.maxPayloadBytes
  }

  /** What has been or may yet be written to the cell, after its first value, and what is in the DLQ. */
  ghost predicate OnlyFromTopic(c: Config, s: State) {
    && s.history != []
    && (forall i :: 1 <= i < |s.history| ==> s.history[i].Some? && FromTopic(c, s.log, s.history[i].value))
    && (forall payload <- s.limbo :: FromTopic(c, s.log, payload))
    && (forall d <- s.dlq :: IsRejected(c, s.log, d))
    && (s.phase.DlqSend? ==> Oversized(c, RecordAt(s, s.phase.at)))
    && (s.phase.ChainRead? || s.phase.Submitting? ==> Anchorable(c, RecordAt(s, s.phase.at)))
  }

  lemma RecordIsFromTopic(c: Config, s: State, at: Position)
    ensures Anchorable(c, RecordAt(s, at)) ==> FromTopic(c, s.log, RecordAt(s, at).payload)
    ensures Oversized(c, RecordAt(s, at)) ==> IsRejected(c, s.log, DlqEntry(RecordAt(s, at), at))
  {
    if Anchorable(c, RecordAt(s, at)) {
      assert IsPayloadAt(c, s.log, at.partition, at.offset, RecordAt(s, at).payload);
    }
  }

  lemma TopicStays(c: Config, log: seq<seq<Record>>, grown: seq<seq<Record>>)
    requires |log| == |grown| && forall p :: 0 <= p < |log| ==> log[p] <= grown[p]
    ensures forall payload :: FromTopic(c, log, payload) ==> FromTopic(c, grown, payload)
    ensures forall d :: IsRejected(c, log, d) ==> IsRejected(c, grown, d)
  {
    forall payload | FromTopic(c, log, payload) ensures FromTopic(c, grown, payload) {
      var p: nat, o: nat :| IsPayloadAt(c, log, p, o, payload);
      assert log[p] <= grown[p] && IsPayloadAt(c, grown, p, o, payload);
    }
    forall d | IsRejected(c, log, d) ensures IsRejected(c, grown, d) {
      assert log[d.at.partition] <= grown[d.at.partition];
    }
  }

  lemma AcceptIsFromTopic(c: Config, s: State, p: nat)
    requires OnlyFromTopic(c, s) && s.phase.Polling? && |s.committed| == |s.log|
    requires p < |s.cursor| == |s.log| && s.cursor[p] < |s.log[p]|
    ensures OnlyFromTopic(c, Accept(c, s, p))
  {
    hide FromTopic, IsRejected;
  }

  lemma GrowthIsFromTopic(c: Config, s: State, log: seq<seq<Record>>)
    requires OnlyFromTopic(c, s) && WellFormed(s)
    requires |log| == |s.log| && forall p :: 0 <= p < |log| ==> s.log[p] <= log[p]
    ensures OnlyFromTopic(c, s.(log := log))
  {
    TopicStays(c, s.log, log);
    hide FromTopic, IsRejected;
  }

  lemma WritingIsFromTopic(c: Config, s: State, e: Event)
    requires OnlyFromTopic(c, s) && (e.ChainSettles? || e.LimboSettles? || e.DlqSendDone?)
    ensures OnlyFromTopic(c, Step(c, s, e))
  {
    hide FromTopic, IsRejected;
    if !s.phase.Stopped? && !s.phase.Polling? {
      RecordIsFromTopic(c, s, s.phase.at);
    }
    hide RecordAt;
  }

  lemma OtherwiseFromTopic(c: Config, s: State, e: Event)
    requires OnlyFromTopic(c, s) && WellFormed(s)
    requires e.Start? || e.Break? || e.Halt? || e.ReadDone? || e.SubmitDone? || e.CommitDone?
    ensures OnlyFromTopic(c, Step(c, s, e))
  {
    hide FromTopic, IsRejected, AnchoredPayloadMatches, ReadCell, MayResolve;
    if !s.phase.Stopped? && !s.phase.Polling? {
      RecordIsFromTopic(c, s, s.phase.at);
    }
    hide RecordAt;
  }

  lemma StepIsFromTopic(c: Config, s: State, e: Event)
    requires OnlyFromTopic(c, s) && WellFormed(s)
    ensures OnlyFromTopic(c, Step(c, s, e))
  {
    hide OnlyFromTopic, Accept;
    match e
    case TopicGrows(log) =>
      if |log| == |s.log| && forall p :: 0 <= p < |log| ==> s.log[p] <= log[p] { GrowthIsFromTopic(c, s, log); }
    case Deliver(p) =>
      if s.phase.Polling? && p < |s.cursor| == |s.log| && s.cursor[p] < |s.log[p]| { AcceptIsFromTopic(c, s, p); }
    case ChainSettles(_) => WritingIsFromTopic(c, s, e); hide Step;
    case LimboSettles(_, _) => WritingIsFromTopic(c, s, e); hide Step;
    case DlqSendDone(_, _) => WritingIsFromTopic(c, s, e); hide Step;
    case _ => OtherwiseFromTopic(c, s, e); hide Step;
  }

  lemma {:induction false} RunIsFromTopic(c: Config, log: seq<seq<Record>>, onChain: Option<Bytes>, es: seq<Event>)
    ensures OnlyFromTopic(c, After(c, log, onChain, es)) && WellFormed(After(c, log, onChain, es))
  {
    if es != [] {
      hide OnlyFromTopic, WellFormed, Step;
      RunIsFromTopic(c, log, onChain, Front(es));
      StepIsFromTopic(c, After(c, log, onChain, Front(es)), Last(es));
      StepIsWellFormed(c, After(c, log, onChain, Front(es)), Last(es));
    }
  }

  lemma WithoutOne<T>(xs: seq<T>, i: nat)
    requires i < |xs|
    ensures multiset(xs[..i] + xs[i + 1..]) == multiset(xs) - multiset{xs[i]}
  {
    assert xs == xs[..i] + [xs[i]] + xs[i + 1..];
  }

  /** A submission left to the chain is settled once: it leaves the ones that may still be written, and is written if applied. */
  lemma SettlesWhatWasLeft(c: Config, s: State, i: nat, applied: bool)
    requires i < |s.limbo|
    ensures var s1 := Step(c, s, LimboSettles(i, applied));
      && multiset(s1.limbo) == multiset(s.limbo) - multiset{s.limbo[i]}
      && s1.history == s.history + (if applied then [Some(s.limbo[i])] else [])
  {
    WithoutOne(s.limbo, i);
  }

  // ---------------------------------------------------------------------------
  // The counters
  // ---------------------------------------------------------------------------

  /**
   * Every consumed batch is counted once as finished, except the one being worked on and
   * those whose submission failed. (A failed commit is counted in failed and in finished.)
   */
  ghost predicate Accounted(s: State) {
    var m := s.metrics;
    var finished := m.anchored + m.skippedDuplicate + m.rejectedOversized;
    var busy := if s.phase.ChainRead? || s.phase.Submitting? then 1 else 0;
    finished + busy <= m.consumed <= finished + busy + m.failed
  }

  lemma StepKeepsCounters(c: Config, s: State, e: Event)
    requires Accounted(s)
    ensures Accounted(Step(c, s, e))
  {
    hide RecordAt, AtRecord, ReadCell, AnchoredPayloadMatches, MayResolve;
  }

  /** Over any life of a service object: stops, failures and further starts of the same object included. */
  lemma {:induction false} CountersAddUp(c: Config, log: seq<seq<Record>>, onChain: Option<Bytes>, es: seq<Event>)
    ensures Accounted(After(c, log, onChain, es))
  {
    if es != [] {
      CountersAddUp(c, log, onChain, Front(es));
      StepKeepsCounters(c, After(c, log, onChain, Front(es)), Last(es));
      hide Step, Accounted;
    }
  }

  /**
   * What the chain has written since the counters were at zero, and what it may still write, with
   * the one write not yet counted: at most what is counted as anchored or failed.
   */
  ghost predicate WritesCounted(first: nat, s: State) {
    |s.history| + |s.limbo| <= first + s.metrics.anchored + s.metrics.failed + (if s.phase.Submitting? && s.phase.fate.Applied? then 1 else 0)
  }

  lemma StepCountsWrites(c: Config, first: nat, s: State, e: Event)
    requires WritesCounted(first, s) && !e.Halt?
    ensures WritesCounted(first, Step(c, s, e))
  {
    hide RecordAt, AtRecord, ReadCell, AnchoredPayloadMatches;
  }

  /** While the service object lives: no write goes uncounted. */
  lemma {:induction false} WritesAreCounted(c: Config, s: State, es: seq<Event>)
    requires s.phase.Stopped? && s.metrics == ZERO_METRICS && Halt !in es
    ensures WritesCounted(|s.history| + |s.limbo|, Run(c, s, es))
  {
    if es != [] {
      assert Last(es) in es && forall e <- Front(es) :: e in es;
      WritesAreCounted(c, s, Front(es));
      StepCountsWrites(c, |s.history| + |s.limbo|, Run(c, s, Front(es)), Last(es));
    }
  }

  /** `first` is how long the history was when the counters were at zero. */
  ghost predicate Written(first: nat, s: State) {
    |s.history| >= first + s.metrics.anchored + (if s.phase.Submitting? && s.phase.fate.Applied? then 1 else 0)
  }

  lemma StepKeepsWritten(c: Config, first: nat, s: State, e: Event)
    requires Written(first, s) && first <= |s.history| && (c.reportsFailure || Noticed(s, e))
    ensures Written(first, Step(c, s, e)) && first <= |Step(c, s, e).history|
  {
    hide RecordAt, AtRecord, ReadCell, AnchoredPayloadMatches;
  }

  /** A batch counted as anchored was written by the chain since the counters were at zero. */
  lemma {:induction false} AnchoredWasWritten(c: Config, s: State, es: seq<Event>)
    requires s.phase.Stopped? && s.metrics == ZERO_METRICS && FailuresNoticed(c, s, es)
    ensures Written(|s.history|, Run(c, s, es)) && |s.history| <= |Run(c, s, es).history|
  {
    if es != [] {
      AnchoredWasWritten(c, s, Front(es));
      StepKeepsWritten(c, |s.history|, Run(c, s, Front(es)), Last(es));
    }
  }
}
