/**
 * Exactly-once effect of the anchor on a single partition: across failures,
 * crashes and redeliveries the chain sees the topic's payloads in order, once each.
 */
module AnchorOnce {
  import opened Common
  import opened Anchor
  import opened AnchorSafety

  /** The sequence without immediate repetitions. */
  function Collapse<T(==)>(xs: seq<T>): seq<T> {
    if |xs| <= 1 then xs
    else if xs[|xs| - 2] == Last(xs) then Collapse(Front(xs))
    else Collapse(Front(xs)) + [Last(xs)]
  }

  /** The payloads the anchor may submit, in topic order. */
  function InLimit(c: Config, records: seq<Record>): seq<Option<Bytes>> {
    if records == [] then []
    else InLimit(c, Front(records)) + (if Anchorable(c, Last(records)) then [Some(Last(records).payload)] else [])
  }

  function Expected(c: Config, onChain: Option<Bytes>, records: seq<Record>): seq<Option<Bytes>> {
    [onChain] + InLimit(c, records)
  }

  // ---------------------------------------------------------------------------
  // Facts about collapsing
  // ---------------------------------------------------------------------------

  lemma CollapseAppend<T>(xs: seq<T>, x: T)
    requires xs != []
    ensures Collapse(xs + [x]) == if Last(xs) == x then Collapse(xs) else Collapse(xs) + [x]
  {
    assert Front(xs + [x]) == xs;
  }

  lemma {:induction false} LastOfCollapse<T>(xs: seq<T>)
    requires xs != []
    ensures Collapse(xs) != [] && Last(Collapse(xs)) == Last(xs)
  {
    if |xs| > 1 {
      LastOfCollapse(Front(xs));
    }
  }

  lemma SameCollapse<T>(xs: seq<T>, ys: seq<T>, x: T)
    requires xs != [] && ys != [] && Collapse(xs) == Collapse(ys)
    ensures Collapse(xs + [x]) == Collapse(ys + [x])
  {
    LastOfCollapse(xs);
    LastOfCollapse(ys);
    CollapseAppend(xs, x);
    CollapseAppend(ys, x);
  }

  lemma {:induction false} CollapsePrefix<T>(xs: seq<T>, ys: seq<T>)
    requires xs != []
    ensures Collapse(xs) <= Collapse(xs + ys)
  {
    if ys == [] {
      assert xs + ys == xs;
    } else {
      CollapsePrefix(xs, Front(ys));
      CollapseAppend(xs + Front(ys), Last(ys));
      assert xs + Front(ys) + [Last(ys)] == xs + ys;
    }
  }

  ghost predicate NoRepeats<T>(xs: seq<T>) {
    forall i :: 0 < i < |xs| ==> xs[i - 1] != xs[i]
  }

  lemma {:induction false} CollapseIsIdentityWithoutRepeats<T>(xs: seq<T>)
    requires NoRepeats(xs)
    ensures Collapse(xs) == xs
  {
    if |xs| > 1 {
      CollapseIsIdentityWithoutRepeats(Front(xs));
    }
  }

  lemma {:induction false} InLimitConcat(c: Config, a: seq<Record>, b: seq<Record>)
    ensures InLimit(c, a + b) == InLimit(c, a) + InLimit(c, b)
  {
    if b == [] {
      assert a + b == a;
    } else {
      InLimitConcat(c, a, Front(b));
      assert Front(a + b) == a + Front(b);
    }
  }

  // ---------------------------------------------------------------------------
  // Progress through the partition
  // ---------------------------------------------------------------------------

  function Records(s: State): seq<Record> {
    if |s.log| == 1 then s.log[0] else []
  }

  /** What the chain shows once everything below the committed offset is anchored. */
  function Base(c: Config, onChain: Option<Bytes>, s: State): seq<Option<Bytes>>
    requires |s.committed| == 1 && s.committed[0] <= |Records(s)|
  {
    Expected(c, onChain, Records(s)[..s.committed[0]])
  }

  function Rest(c: Config, s: State): seq<Option<Bytes>>
    requires |s.committed| == 1 && s.committed[0] <= |Records(s)|
  {
    InLimit(c, Records(s)[s.committed[0]..])
  }

  /** Between the committed offset and `o` there is nothing to anchor. */
  ghost predicate Quiet(c: Config, s: State, o: nat)
    requires |s.committed| == 1
  {
    s.committed[0] <= o <= |Records(s)| && InLimit(c, Records(s)[s.committed[0]..o]) == []
  }

  ghost predicate Shows(s: State, values: seq<Option<Bytes>>) {
    Collapse(s.history) == Collapse(values)
  }

  /** The chain shows the committed payloads, or those and the next one. */
  ghost predicate Progress(c: Config, onChain: Option<Bytes>, s: State)
    requires |s.committed| == 1 && s.committed[0] <= |Records(s)|
  {
    var rest := Rest(c, s);
    Shows(s, Base(c, onChain, s)) || (rest != [] && Shows(s, Base(c, onChain, s) + [rest[0]]))
  }

  ghost predicate AtRest(c: Config, onChain: Option<Bytes>, s: State)
    requires WellFormed(s) && |s.log| == 1
  {
    && |s.limbo| <= 1
    && (s.limbo != [] ==> s.phase.Stopped? && Rest(c, s) != [] && Rest(c, s)[0] == Some(s.limbo[0]))
  }

  ghost predicate RecordOnce(c: Config, onChain: Option<Bytes>, s: State, at: Position)
    requires WellFormed(s) && |s.log| == 1
  {
    var r := RecordAt(s, at);
    && at.partition == 0
    && Quiet(c, s, at.offset)
    && (s.phase.DlqSend? ==> !Anchorable(c, r))
    && (s.phase.ChainRead? || s.phase.Submitting? ==> Anchorable(c, r))
    && (s.phase.Submitting? && s.phase.fate.Applied? ==> Shows(s, Base(c, onChain, s) + [Some(r.payload)]))
    && (s.phase.Committing? && Anchorable(c, r) ==> Shows(s, Base(c, onChain, s) + [Some(r.payload)]))
  }

  ghost predicate PhaseOnce(c: Config, onChain: Option<Bytes>, s: State)
    requires WellFormed(s) && |s.log| == 1
  {
    if s.phase.Stopped? then true
    else if s.phase.Polling? then Quiet(c, s, s.cursor[0])
    else RecordOnce(c, onChain, s, s.phase.at)
  }

  ghost predicate Once(c: Config, onChain: Option<Bytes>, s: State) {
    && WellFormed(s) && |s.log| == 1
    && Progress(c, onChain, s)
    && AtRest(c, onChain, s)
    && PhaseOnce(c, onChain, s)
  }

  function Payloads(c: Config, r: Record): seq<Option<Bytes>> {
    if Anchorable(c, r) then [Some(r.payload)] else []
  }

  lemma InLimitAround(c: Config, recs: seq<Record>, k: nat, o: nat)
    requires k <= o < |recs| && InLimit(c, recs[k..o]) == []
    ensures InLimit(c, recs[k..o + 1]) == Payloads(c, recs[o])
    ensures InLimit(c, recs[..o + 1]) == InLimit(c, recs[..k]) + Payloads(c, recs[o])
    ensures InLimit(c, recs[k..]) == Payloads(c, recs[o]) + InLimit(c, recs[o + 1..])
  {
    hide InLimit;
    var left, middle, right := recs[..k], recs[k..o + 1], recs[o + 1..];
    assert InLimit(c, middle) == Payloads(c, recs[o]) by {
      InLimitLast(c, recs[k..o], recs[o]);
      assert middle == recs[k..o] + [recs[o]];
    }
    assert InLimit(c, recs[..o + 1]) == InLimit(c, left) + InLimit(c, middle) by {
      InLimitConcat(c, left, middle);
      assert recs[..o + 1] == left + middle;
    }
    assert InLimit(c, recs[k..]) == InLimit(c, middle) + InLimit(c, right) by {
      InLimitConcat(c, middle, right);
      assert recs[k..] == middle + right;
    }
  }

  lemma InLimitLast(c: Config, recs: seq<Record>, r: Record)
    ensures InLimit(c, recs + [r]) == InLimit(c, recs) + Payloads(c, r)
  {
    assert Front(recs + [r]) == recs;
  }

  /** Reaching a record over quiet ground: what is committed next, and what rests. */
  lemma QuietSplit(c: Config, onChain: Option<Bytes>, s: State, o: nat)
    requires WellFormed(s) && |s.log| == 1 && o < |s.log[0]| && Quiet(c, s, o)
    ensures var r := s.log[0][o];
      && Expected(c, onChain, s.log[0][..o + 1]) == Base(c, onChain, s) + Payloads(c, r)
      && Rest(c, s) == Payloads(c, r) + InLimit(c, s.log[0][o + 1..])
      && (!Anchorable(c, r) ==> Quiet(c, s, o + 1))
  {
    InLimitAround(c, s.log[0], s.committed[0], o);
  }

  /** Writing the next payload, whether or not it is already there, shows it exactly once. */
  lemma WriteShows(base: seq<Option<Bytes>>, history: seq<Option<Bytes>>, x: Option<Bytes>)
    requires base != [] && history != []
    requires Collapse(history) == Collapse(base) || Collapse(history) == Collapse(base + [x])
    ensures Collapse(history + [x]) == Collapse(base + [x])
  {
    CollapseAppend(base + [x], x);
    if Collapse(history) == Collapse(base) {
      SameCollapse(history, base, x);
    } else {
      SameCollapse(history, base + [x], x);
    }
  }

  /** A cell that already holds the next payload shows it. */
  lemma PresentShows(base: seq<Option<Bytes>>, history: seq<Option<Bytes>>, x: Option<Bytes>)
    requires base != [] && history != [] && Last(history) == x
    requires Collapse(history) == Collapse(base) || Collapse(history) == Collapse(base + [x])
    ensures Collapse(history) == Collapse(base + [x])
  {
    LastOfCollapse(history);
    LastOfCollapse(base);
    CollapseAppend(base, x);
  }

  // ---------------------------------------------------------------------------
  // Each step keeps the progress
  // ---------------------------------------------------------------------------

  lemma AcceptOnce(c: Config, onChain: Option<Bytes>, s: State)
    requires Once(c, onChain, s) && s.phase.Polling? && s.cursor[0] < |s.log[0]|
    ensures Once(c, onChain, Accept(c, s, 0))
  {
    hide InLimit, Collapse;
    QuietSplit(c, onChain, s, s.cursor[0]);
  }

  lemma CompareOnce(c: Config, onChain: Option<Bytes>, s: State, ok: bool)
    requires Once(c, onChain, s) && s.phase.ChainRead? && Injective(c.blake2) && Honest(c, s.log)
    ensures Once(c, onChain, Compare(c, s, ok))
  {
    hide InLimit, Collapse;
    var r := RecordAt(s, s.phase.at);
    QuietSplit(c, onChain, s, s.phase.at.offset);
    if AnchoredPayloadMatches(c, ReadCell(s, ok), r.payloadHash) {
      assert r.payloadHash == c.blake2(r.payload);
      PresentShows(Base(c, onChain, s), s.history, Some(r.payload));
    }
  }

  lemma ApplyOnce(c: Config, onChain: Option<Bytes>, s: State, applied: bool)
    requires Once(c, onChain, s)
    ensures Once(c, onChain, Step(c, s, ChainSettles(applied)))
  {
    hide InLimit, Collapse;
    if s.phase.Submitting? && s.phase.fate.Waiting? {
      QuietSplit(c, onChain, s, s.phase.at.offset);
      WriteShows(Base(c, onChain, s), s.history, Some(RecordAt(s, s.phase.at).payload));
    }
  }

  lemma StartOnce(c: Config, onChain: Option<Bytes>, s: State)
    requires Once(c, onChain, s) && s.limbo == []
    ensures Once(c, onChain, Step(c, s, Start))
  {
    assert s.log[0][s.committed[0]..s.committed[0]] == [];
  }

  lemma DlqSendOnce(c: Config, onChain: Option<Bytes>, s: State, ok: bool, landed: bool)
    requires Once(c, onChain, s)
    ensures Once(c, onChain, Step(c, s, DlqSendDone(ok, landed)))
  {
    hide InLimit, Collapse;
  }

  lemma SubmitOnce(c: Config, onChain: Option<Bytes>, s: State, ok: bool)
    requires Once(c, onChain, s) && (c.reportsFailure || Noticed(s, SubmitDone(ok)))
    ensures Once(c, onChain, Step(c, s, SubmitDone(ok)))
  {
    hide InLimit, Collapse;
    if !ok && s.phase.Submitting? {
      FailOnce(c, onChain, s);
    }
  }

  lemma FailOnce(c: Config, onChain: Option<Bytes>, s: State)
    requires Once(c, onChain, s)
    ensures Once(c, onChain, Fail(s))
  {
    hide InLimit, Collapse;
    StopOnce(c, onChain, s.(metrics := s.metrics.(failed := s.metrics.failed + 1)));
  }

  lemma LimboOnce(c: Config, onChain: Option<Bytes>, s: State, i: nat, applied: bool)
    requires Once(c, onChain, s) && i < |s.limbo|
    ensures Once(c, onChain, Step(c, s, LimboSettles(i, applied)))
  {
    hide InLimit, Collapse;
    WriteShows(Base(c, onChain, s), s.history, Some(s.limbo[0]));
  }

  lemma StopOnce(c: Config, onChain: Option<Bytes>, s: State)
    requires Once(c, onChain, s)
    ensures Once(c, onChain, Stop(s))
  {
    hide InLimit, Collapse;
    if s.phase.Submitting? {
      QuietSplit(c, onChain, s, s.phase.at.offset);
    }
  }

  lemma CommittedPast(c: Config, onChain: Option<Bytes>, s: State, o: nat)
    requires WellFormed(s) && |s.log| == 1 && o < |s.log[0]| && Quiet(c, s, o)
    ensures var s1 := s.(committed := s.committed[0 := o + 1], phase := Polling);
      && Base(c, onChain, s1) == Base(c, onChain, s) + Payloads(c, s.log[0][o])
      && Rest(c, s) == Payloads(c, s.log[0][o]) + Rest(c, s1)
      && Quiet(c, s1, o + 1)
  {
    QuietSplit(c, onChain, s, o);
    assert InLimit(c, []) == [];
    assert s.log[0][o + 1..o + 1] == [];
  }

  lemma CommitOnce(c: Config, onChain: Option<Bytes>, s: State)
    requires Once(c, onChain, s) && s.phase.Committing?
    ensures Once(c, onChain, s.(committed := s.committed[0 := s.phase.at.offset + 1], phase := Polling))
  {
    hide InLimit, Collapse;
    var o := s.phase.at.offset;
    var s1 := s.(committed := s.committed[0 := o + 1], phase := Polling);
    CommittedPast(c, onChain, s, o);
    hide Base, Rest, Quiet;
    if !Anchorable(c, s.log[0][o]) {
      assert Base(c, onChain, s1) == Base(c, onChain, s);
      assert Rest(c, s1) == Rest(c, s);
    }
  }

  lemma GrowthOnce(c: Config, onChain: Option<Bytes>, s: State, log: seq<seq<Record>>)
    requires Once(c, onChain, s) && |log| == 1 && s.log[0] <= log[0]
    ensures Once(c, onChain, s.(log := log))
  {
    var s1 := s.(log := log);
    var k := s.committed[0];
    var more := log[0][|s.log[0]|..];
    assert log[0] == s.log[0] + more;
    assert log[0][..k] == s.log[0][..k];
    assert log[0][k..] == s.log[0][k..] + more;
    InLimitConcat(c, s.log[0][k..], more);
    forall o | k <= o <= |s.log[0]| ensures log[0][k..o] == s.log[0][k..o] {}
  }

  lemma StepOnce(c: Config, onChain: Option<Bytes>, s: State, e: Event)
    requires Once(c, onChain, s) && Injective(c.blake2) && Honest(c, s.log) && (c.reportsFailure || Noticed(s, e))
    requires e.Start? ==> s.limbo == []
    ensures Once(c, onChain, Step(c, s, e))
  {
    assert WellFormed(s) && |s.log| == 1;
    hide Once;
    match e
    case TopicGrows(log) => if |log| == 1 && s.log[0] <= log[0] { GrowthOnce(c, onChain, s, log); }
    case Start => StartOnce(c, onChain, s);
    case Break => if s.phase.Polling? { StoppedOnce(c, onChain, s, Step(c, s, e)); }
    case Halt => StopOnce(c, onChain, s);
    case Deliver(p) => if s.phase.Polling? && p == 0 && s.cursor[0] < |s.log[0]| { AcceptOnce(c, onChain, s); }
    case DlqSendDone(ok, landed) => DlqSendOnce(c, onChain, s, ok, landed);
    case ReadDone(ok) => if s.phase.ChainRead? && RecordAt(s, s.phase.at).Batched? { CompareOnce(c, onChain, s, ok); }
    case ChainSettles(applied) => ApplyOnce(c, onChain, s, applied);
    case LimboSettles(i, applied) => if i < |s.limbo| { LimboOnce(c, onChain, s, i, applied); }
    case SubmitDone(ok) => SubmitOnce(c, onChain, s, ok);
    case CommitDone(ok, landed) => CommitDoneOnce(c, onChain, s, ok, landed);
  }

  lemma CommitDoneOnce(c: Config, onChain: Option<Bytes>, s: State, ok: bool, landed: bool)
    requires Once(c, onChain, s)
    ensures Once(c, onChain, Step(c, s, CommitDone(ok, landed)))
  {
    hide InLimit, Collapse;
    if s.phase.Committing? && (ok ==> landed) {
      var committed := s.(committed := s.committed[0 := s.phase.at.offset + 1], phase := Polling);
      CommitOnce(c, onChain, s);
      if !ok {
        StoppedOnce(c, onChain, if landed then committed else s, Step(c, s, CommitDone(ok, landed)));
      }
    }
  }

  lemma StoppedOnce(c: Config, onChain: Option<Bytes>, s: State, s1: State)
    requires Once(c, onChain, s) && !s.phase.Submitting?
    requires s1 == s.(phase := Stopped, metrics := s1.metrics)
    ensures Once(c, onChain, s1)
  {
    hide InLimit, Collapse;
  }

  // ---------------------------------------------------------------------------
  // Runs
  // ---------------------------------------------------------------------------

  /** Each start finds every earlier submission settled by the chain, one way or the other. */
  ghost predicate ResolvedStarts(c: Config, log: seq<seq<Record>>, onChain: Option<Bytes>, es: seq<Event>) {
    es == [] || (
      && ResolvedStarts(c, log, onChain, Front(es))
      && (Last(es).Start? ==> After(c, log, onChain, Front(es)).limbo == []))
  }

  ghost predicate ReadsSucceed(es: seq<Event>) {
    forall e <- es :: e.ReadDone? ==> e.ok
  }

  /** One partition, honest payload hashes, a collision-free digest, failures noticed, and settled submissions at each start. */
  ghost predicate Assumptions(c: Config, log: seq<seq<Record>>, onChain: Option<Bytes>, es: seq<Event>) {
    && |log| == 1
    && Injective(c.blake2)
    && FailuresNoticed(c, Init(log, onChain), es)
    && Honest(c, After(c, log, onChain, es).log)
    && ResolvedStarts(c, log, onChain, es)
  }

  lemma {:induction false} RunOnce(c: Config, log: seq<seq<Record>>, onChain: Option<Bytes>, es: seq<Event>)
    requires Assumptions(c, log, onChain, es)
    ensures Once(c, onChain, After(c, log, onChain, es))
  {
    if es != [] {
      HonestBefore(c, After(c, log, onChain, Front(es)), Last(es));
      RunOnce(c, log, onChain, Front(es));
      StepOnce(c, onChain, After(c, log, onChain, Front(es)), Last(es));
    }
  }

  /**
   * With chain reads allowed to fail, the on-chain history is, up to immediate
   * repetitions, a prefix of the initial value followed by the topic's payloads;
   * and it is all of them once the whole topic is committed.
   */
  lemma HistoryFollowsTopic(c: Config, log: seq<seq<Record>>, onChain: Option<Bytes>, es: seq<Event>)
    requires Assumptions(c, log, onChain, es)
    ensures var s := After(c, log, onChain, es);
      && |s.log| == 1 && |s.committed| == 1
      && Collapse(s.history) <= Collapse(Expected(c, onChain, s.log[0]))
      && (s.committed[0] == |s.log[0]| ==> Collapse(s.history) == Collapse(Expected(c, onChain, s.log[0])))
  {
    RunOnce(c, log, onChain, es);
    ProgressIsAPrefix(c, onChain, After(c, log, onChain, es));
  }

  lemma ProgressIsAPrefix(c: Config, onChain: Option<Bytes>, s: State)
    requires |s.log| == 1 && |s.committed| == 1 && s.committed[0] <= |s.log[0]| && Progress(c, onChain, s)
    ensures Collapse(s.history) <= Collapse(Expected(c, onChain, s.log[0]))
    ensures s.committed[0] == |s.log[0]| ==> Collapse(s.history) == Collapse(Expected(c, onChain, s.log[0]))
  {
    var recs, k := s.log[0], s.committed[0];
    assert k == |recs| ==> recs[k..] == [];
    assert recs == recs[..k] + recs[k..];
    InLimitConcat(c, recs[..k], recs[k..]);
    hide InLimit, Collapse;
    assert Expected(c, onChain, recs) == Base(c, onChain, s) + Rest(c, s);
    PrefixOfWhole(Base(c, onChain, s), Rest(c, s));
  }

  lemma PrefixOfWhole(base: seq<Option<Bytes>>, rest: seq<Option<Bytes>>)
    requires base != []
    ensures Collapse(base) <= Collapse(base + rest)
    ensures rest != [] ==> Collapse(base + [rest[0]]) <= Collapse(base + rest)
    ensures rest == [] ==> base + rest == base
  {
    CollapsePrefix(base, rest);
    if rest != [] {
      OneMore(base, rest);
      CollapsePrefix(base + [rest[0]], rest[1..]);
    }
  }

  lemma OneMore<T>(a: seq<T>, b: seq<T>)
    requires b != []
    ensures a + [b[0]] + b[1..] == a + b
  {
  }

  /** A payload about to be written differs from the cell. */
  ghost predicate Differs(s: State) {
    && s.history != []
    && (s.phase.Submitting? && s.phase.fate.Waiting? && RecordAt(s, s.phase.at).Batched? ==> IsNews(s, RecordAt(s, s.phase.at).payload))
    && (|s.limbo| == 1 ==> IsNews(s, s.limbo[0]))
  }

  ghost predicate IsNews(s: State, payload: Bytes) {
    s.history != [] && Last(s.history) != Some(payload)
  }

  lemma WriteIsNews(s: State, payload: Bytes)
    requires NoRepeats(s.history) && IsNews(s, payload)
    ensures NoRepeats(Write(s, payload).history)
  {
  }

  lemma CompareFindsNews(c: Config, s: State)
    requires WellFormed(s) && s.phase.ChainRead? && RecordAt(s, s.phase.at).Batched? && Honest(c, s.log) && Differs(s)
    ensures Differs(Compare(c, s, true)) && Compare(c, s, true).history == s.history
  {
    var r := RecordAt(s, s.phase.at);
    assert r.payloadHash == c.blake2(r.payload);
  }

  lemma ChainWritesNews(c: Config, s: State, e: Event)
    requires WellFormed(s) && NoRepeats(s.history) && Differs(s) && |s.limbo| <= 1
    requires s.limbo != [] ==> s.phase.Stopped?
    requires e.ChainSettles? || e.LimboSettles?
    ensures NoRepeats(Step(c, s, e).history) && Differs(Step(c, s, e))
  {
    if e.ChainSettles? {
      if s.phase.Submitting? && s.phase.fate.Waiting? && RecordAt(s, s.phase.at).Batched? {
        WriteIsNews(s, RecordAt(s, s.phase.at).payload);
      }
    } else if e.index < |s.limbo| {
      WriteIsNews(s, s.limbo[0]);
    }
  }

  lemma OtherStepsWriteNothing(c: Config, s: State, e: Event)
    requires WellFormed(s) && |s.log| == 1 && Differs(s) && |s.limbo| <= 1
    requires s.limbo != [] ==> s.phase.Stopped?
    requires !e.ChainSettles? && !e.LimboSettles? && !e.ReadDone?
    ensures Step(c, s, e).history == s.history && Differs(Step(c, s, e))
  {
    if e.TopicGrows? && !s.phase.Stopped? && !s.phase.Polling? && |e.log| == 1 && s.log[0] <= e.log[0] {
      assert RecordAt(s.(log := e.log), s.phase.at) == RecordAt(s, s.phase.at);
    }
  }

  lemma StepWritesNews(c: Config, onChain: Option<Bytes>, s: State, e: Event)
    requires Once(c, onChain, s) && Honest(c, s.log) && (e.ReadDone? ==> e.ok)
    requires NoRepeats(s.history) && Differs(s)
    ensures NoRepeats(Step(c, s, e).history) && Differs(Step(c, s, e))
  {
    if e.ReadDone? {
      if s.phase.ChainRead? && RecordAt(s, s.phase.at).Batched? {
        CompareFindsNews(c, s);
      }
    } else if e.ChainSettles? || e.LimboSettles? {
      ChainWritesNews(c, s, e);
    } else {
      OtherStepsWriteNothing(c, s, e);
    }
  }

  lemma {:induction false} RunWritesNews(c: Config, log: seq<seq<Record>>, onChain: Option<Bytes>, es: seq<Event>)
    requires Assumptions(c, log, onChain, es) && ReadsSucceed(es)
    ensures var s := After(c, log, onChain, es); NoRepeats(s.history) && Differs(s)
  {
    if es != [] {
      assert forall e <- Front(es) :: e in es;
      assert Last(es) in es;
      HonestBefore(c, After(c, log, onChain, Front(es)), Last(es));
      RunWritesNews(c, log, onChain, Front(es));
      RunOnce(c, log, onChain, Front(es));
      StepWritesNews(c, onChain, After(c, log, onChain, Front(es)), Last(es));
    }
  }

  /**
   * Exactly once: when the idempotency reads succeed, the history of the cell itself
   * is a prefix of the collapsed topic, under every schedule of failures, crashes and redeliveries.
   */
  lemma ExactlyOnce(c: Config, log: seq<seq<Record>>, onChain: Option<Bytes>, es: seq<Event>)
    requires Assumptions(c, log, onChain, es) && ReadsSucceed(es)
    ensures var s := After(c, log, onChain, es);
      && |s.log| == 1 && |s.committed| == 1
      && s.history <= Collapse(Expected(c, onChain, s.log[0]))
      && (s.committed[0] == |s.log[0]| ==> s.history == Collapse(Expected(c, onChain, s.log[0])))
  {
    HistoryFollowsTopic(c, log, onChain, es);
    RunWritesNews(c, log, onChain, es);
    CollapseIsIdentityWithoutRepeats(After(c, log, onChain, es).history);
  }
}
