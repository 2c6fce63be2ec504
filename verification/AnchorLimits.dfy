/**
 * Where the anchor's guarantees end: each assumption of AnchorSafety and AnchorOnce is
 * shown to be needed, by the runs that fail without it and by the exact condition under
 * which no run fails.
 */
module AnchorLimits {
  import opened Common
  import opened Anchor
  import opened AnchorSafety
  import opened AnchorOnce

  // ---------------------------------------------------------------------------
  // Unnoticed failures
  // ---------------------------------------------------------------------------

  /** The extrinsic fails on chain, the promise resolves, the offset is committed. */
  function UnnoticedFailure(): seq<Event> {
    [Start] + [Deliver(0), ReadDone(true)] + [ChainSettles(false), SubmitDone(true)] + [CommitDone(true, true)]
  }

  /** A submission the chain drops is confirmed and committed past if failures go unreported. */
  lemma DroppedAndCommitted(c: Config, s: State)
    requires !c.reportsFailure && s.phase == Submitting(Position(0, 0), Waiting) && |s.committed| == 1
    requires RecordAt(s, Position(0, 0)).Batched?
    ensures var s1 := Run(c, s, [ChainSettles(false), SubmitDone(true)] + [CommitDone(true, true)]);
      s1.committed == [1] && s1.history == s.history && s1.log == s.log
  {
    RunTwo(c, s, ChainSettles(false), SubmitDone(true));
    var s1 := Run(c, s, [ChainSettles(false), SubmitDone(true)]);
    assert s1.phase == Committing(Position(0, 0), true) && s1.committed == s.committed;
    RunOne(c, s1, CommitDone(true, true));
    hide Run, RecordAt;
    RunConcat(c, s, [ChainSettles(false), SubmitDone(true)], [CommitDone(true, true)]);
  }

  /** Without ExtrinsicFailed in the metadata, a record whose extrinsic failed is committed past and never on chain. */
  lemma UnnoticedFailureLosesThePayload(c: Config, payload: Bytes)
    requires !c.reportsFailure && |payload| <= c.maxPayloadBytes
    ensures var s := After(c, [[Batched(payload, c.blake2(payload))]], None, UnnoticedFailure());
      s.committed == [1] && s.history == [None] && s.log == [[Batched(payload, c.blake2(payload))]]
  {
    var s := Init([[Batched(payload, c.blake2(payload))]], None);
    var started := Step(c, s, Start);
    RunOne(c, s, Start);
    NextIsSubmitted(c, started, 0);
    var submitted := Run(c, started, [Deliver(0), ReadDone(true)]);
    assert RecordAt(submitted, Position(0, 0)) == Batched(payload, c.blake2(payload));
    hide Run, Step;
    DroppedAndCommitted(c, submitted);
    var rest := [ChainSettles(false), SubmitDone(true)] + [CommitDone(true, true)];
    RunConcat(c, s, [Start], [Deliver(0), ReadDone(true)]);
    RunConcat(c, s, [Start] + [Deliver(0), ReadDone(true)], rest);
    assert [Start] + [Deliver(0), ReadDone(true)] + rest == UnnoticedFailure();
  }

  ghost predicate SafeRun(c: Config, log: seq<seq<Record>>, onChain: Option<Bytes>, es: seq<Event>) {
    var s := After(c, log, onChain, es);
    Honest(c, s.log) ==> SettledBelow(c, s, s.committed)
  }

  /** Over all honest topics and runs nothing committed is missing, if and only if failed extrinsics are reported. */
  lemma SafeExactlyWhenFailuresAreReported(c: Config)
    requires Injective(c.blake2) && 0 <= c.maxPayloadBytes
    ensures c.reportsFailure
      <==> forall log: seq<seq<Record>>, onChain: Option<Bytes>, es: seq<Event> :: SafeRun(c, log, onChain, es)
  {
    if c.reportsFailure {
      forall log: seq<seq<Record>>, onChain: Option<Bytes>, es: seq<Event> ensures SafeRun(c, log, onChain, es) {
        if Honest(c, After(c, log, onChain, es).log) {
          ReportedFailuresAreNoticed(c, Init(log, onChain), es);
          NothingCommittedIsMissing(c, log, onChain, es);
        }
      }
    } else {
      var log := [[Batched([], c.blake2([]))]];
      UnnoticedFailureLosesThePayload(c, []);
      var s := After(c, log, None, UnnoticedFailure());
      assert !Settled(c, s, Position(0, 0));
      assert !SafeRun(c, log, None, UnnoticedFailure());
    }
  }

  // ---------------------------------------------------------------------------
  // More than one partition
  // ---------------------------------------------------------------------------

  function AnchorNext(p: nat): seq<Event> {
    [Deliver(p), ReadDone(true), ChainSettles(true), SubmitDone(true)]
  }

  lemma NextIsSubmitted(c: Config, s: State, p: nat)
    requires s.phase.Polling? && p < |s.log| == |s.cursor| == |s.committed| && s.cursor[p] < |s.log[p]|
    requires Anchorable(c, s.log[p][s.cursor[p]]) && s.history != []
    requires !AnchoredPayloadMatches(c, Last(s.history), s.log[p][s.cursor[p]].payloadHash)
    ensures Run(c, s, [Deliver(p), ReadDone(true)])
      == s.(cursor := s.cursor[p := s.cursor[p] + 1], metrics := s.metrics.(consumed := s.metrics.consumed + 1),
            phase := Submitting(Position(p, s.cursor[p]), Waiting))
  {
    RunTwo(c, s, Deliver(p), ReadDone(true));
    hide AnchoredPayloadMatches;
  }

  /** Reading, submitting and confirming the next payload of a partition. */
  lemma AnchorNextWrites(c: Config, s: State, p: nat)
    requires s.phase.Polling? && p < |s.log| == |s.cursor| == |s.committed| && s.cursor[p] < |s.log[p]|
    requires Anchorable(c, s.log[p][s.cursor[p]]) && s.history != []
    requires !AnchoredPayloadMatches(c, Last(s.history), s.log[p][s.cursor[p]].payloadHash)
    ensures var s1 := Run(c, s, AnchorNext(p));
      && s1.history == s.history + [Some(s.log[p][s.cursor[p]].payload)]
      && s1.phase == Committing(Position(p, s.cursor[p]), true)
      && s1.log == s.log && s1.committed == s.committed && s1.limbo == s.limbo
      && s1.cursor == s.cursor[p := s.cursor[p] + 1]
  {
    NextIsSubmitted(c, s, p);
    RunTwo(c, Run(c, s, [Deliver(p), ReadDone(true)]), ChainSettles(true), SubmitDone(true));
    hide Run, AnchoredPayloadMatches;
    RunConcat(c, s, [Deliver(p), ReadDone(true)], [ChainSettles(true), SubmitDone(true)]);
    assert [Deliver(p), ReadDone(true)] + [ChainSettles(true), SubmitDone(true)] == AnchorNext(p);
  }

  function CrashBeforeFirstCommit(): seq<Event> {
    [Start] + AnchorNext(0) + [Halt]
  }

  /** The second partition comes first after the restart, then the first record again. */
  function SecondPartitionFirst(): seq<Event> {
    [Start] + AnchorNext(1) + [CommitDone(true, true)] + AnchorNext(0)
  }

  lemma RunCrash(c: Config, s: State)
    ensures Run(c, s, CrashBeforeFirstCommit()) == Step(c, Run(c, Step(c, s, Start), AnchorNext(0)), Halt)
  {
    RunOne(c, s, Start);
    RunOne(c, Run(c, s, [Start] + AnchorNext(0)), Halt);
    hide Run, Step;
    RunConcat(c, s, [Start], AnchorNext(0));
    RunConcat(c, s, [Start] + AnchorNext(0), [Halt]);
  }

  lemma RunSecondFirst(c: Config, s: State)
    ensures Run(c, s, SecondPartitionFirst())
         == Run(c, Step(c, Run(c, Step(c, s, Start), AnchorNext(1)), CommitDone(true, true)), AnchorNext(0))
  {
    RunOne(c, s, Start);
    RunOne(c, Run(c, s, [Start] + AnchorNext(1)), CommitDone(true, true));
    hide Run, Step;
    RunConcat(c, s, [Start], AnchorNext(1));
    RunConcat(c, s, [Start] + AnchorNext(1), [CommitDone(true, true)]);
    RunConcat(c, s, [Start] + AnchorNext(1) + [CommitDone(true, true)], AnchorNext(0));
  }

  /** The first two partitions start with these payloads, within the limit. */
  ghost predicate Heads(c: Config, log: seq<seq<Record>>, a: Bytes, b: Bytes) {
    && |log| >= 2 && |log[0]| > 0 && |log[1]| > 0
    && log[0][0] == Batched(a, c.blake2(a)) && log[1][0] == Batched(b, c.blake2(b))
    && |a| <= c.maxPayloadBytes && |b| <= c.maxPayloadBytes
  }

  lemma FirstIsLostInTheCrash(c: Config, log: seq<seq<Record>>)
    requires log != [] && |log[0]| > 0 && Anchorable(c, log[0][0])
    ensures var s := After(c, log, None, CrashBeforeFirstCommit());
      && s.history == [None, Some(log[0][0].payload)] && s.limbo == [] && s.log == log
      && s.committed == seq(|log|, _ => 0) && s.phase.Stopped?
  {
    RunCrash(c, Init(log, None));
    hide Run;
    AnchorNextWrites(c, Step(c, Init(log, None), Start), 0);
  }

  lemma SecondThenFirst(c: Config, a: Bytes, b: Bytes, s: State)
    requires Heads(c, s.log, a, b) && a != b && Injective(c.blake2)
    requires s.history == [None, Some(a)] && s.committed == seq(|s.log|, _ => 0) && s.phase.Stopped?
    ensures var s1 := Run(c, s, SecondPartitionFirst());
      s1.history == [None, Some(a), Some(b), Some(a)] && s1.log == s.log
  {
    assert c.blake2(a) != c.blake2(b);
    RunSecondFirst(c, s);
    hide Run, Injective;
    AnchorNextWrites(c, Step(c, s, Start), 1);
    AnchorNextWrites(c, Step(c, Run(c, Step(c, s, Start), AnchorNext(1)), CommitDone(true, true)), 0);
  }

  /**
   * On every topic whose first two partitions start with different payloads within the
   * limit, although every read succeeds and every submission is settled before the next
   * start: a payload whose commit a crash lost is anchored again after the other one.
   */
  lemma TwoPartitionsAnchorTwice(c: Config, log: seq<seq<Record>>, a: Bytes, b: Bytes)
    requires Heads(c, log, a, b) && a != b && Injective(c.blake2)
    ensures var es := CrashBeforeFirstCommit() + SecondPartitionFirst();
      && ReadsSucceed(es) && ResolvedStarts(c, log, None, es)
      && After(c, log, None, es).history == [None, Some(a), Some(b), Some(a)] && After(c, log, None, es).log == log
  {
    hide Run, Injective;
    FirstIsLostInTheCrash(c, log);
    RunConcat(c, Init(log, None), CrashBeforeFirstCommit(), SecondPartitionFirst());
    SecondThenFirst(c, a, b, After(c, log, None, CrashBeforeFirstCommit()));
    StartsAreResolved(c, log, None, CrashBeforeFirstCommit(), SecondPartitionFirst());
  }

  /** Two runs that start with their only Start, the second one with nothing in limbo. */
  lemma StartsAreResolved(c: Config, log: seq<seq<Record>>, onChain: Option<Bytes>, a: seq<Event>, b: seq<Event>)
    requires a != [] && b != [] && Start !in a[1..] && Start !in b[1..]
    requires After(c, log, onChain, a).limbo == []
    ensures ResolvedStarts(c, log, onChain, a + b)
  {
    assert After(c, log, onChain, []).limbo == [];
    hide Run;
    OneStart(c, log, onChain, [], a);
    assert [] + a == a;
    OneStart(c, log, onChain, a, b);
  }

  lemma {:induction false} OneStart(c: Config, log: seq<seq<Record>>, onChain: Option<Bytes>, a: seq<Event>, b: seq<Event>)
    requires ResolvedStarts(c, log, onChain, a) && After(c, log, onChain, a).limbo == []
    requires b != [] ==> Start !in b[1..]
    ensures ResolvedStarts(c, log, onChain, a + b)
  {
    hide Run;
    if b == [] {
      assert a + b == a;
    } else {
      assert Front(a + b) == a + Front(b) && Last(a + b) == Last(b);
      if |b| > 1 {
        assert Front(b)[1..] == Front(b[1..]);
        assert b[1..][|b| - 2] == Last(b);
      } else {
        assert a + Front(b) == a;
      }
      OneStart(c, log, onChain, a, Front(b));
    }
  }

  /** All payloads the topic allows to be written, each as often as it occurs. */
  function Supply(c: Config, log: seq<seq<Record>>): multiset<Option<Bytes>> {
    if log == [] then multiset{} else Supply(c, Front(log)) + multiset(InLimit(c, Last(log)))
  }

  /** No more writes of a payload than the topic has records with it. */
  ghost predicate AtMostOnce(c: Config, s: State) {
    s.history != [] && multiset(s.history[1..]) <= Supply(c, s.log)
  }

  ghost predicate MeetsOnce(c: Config, log: seq<seq<Record>>, onChain: Option<Bytes>, es: seq<Event>) {
    var s := After(c, log, onChain, es);
    Honest(c, s.log) && ResolvedStarts(c, log, onChain, es) && ReadsSucceed(es) ==> AtMostOnce(c, s)
  }

  /** A topic of `n` partitions, the first two with one record each. */
  function Witness(c: Config, n: nat): seq<seq<Record>>
    requires n >= 2
  {
    if n == 2 then [[Batched([], c.blake2([]))], [Batched([0], c.blake2([0]))]] else Witness(c, n - 1) + [[]]
  }

  lemma {:induction false} WitnessIsTopic(c: Config, n: nat)
    requires n >= 2 && c.maxPayloadBytes >= 1
    ensures |Witness(c, n)| == n && Heads(c, Witness(c, n), [], [0]) && Honest(c, Witness(c, n))
  {
    if n > 2 {
      WitnessIsTopic(c, n - 1);
    }
  }

  lemma OneRecordSupply(c: Config, r: Record)
    requires Anchorable(c, r)
    ensures multiset(InLimit(c, [r])) == multiset{Some(r.payload)}
  {
    InLimitLast(c, [], r);
    assert [] + [r] == [r];
  }

  lemma TwoRecordsSupply(c: Config, a: Record, b: Record)
    requires Anchorable(c, a) && Anchorable(c, b)
    ensures Supply(c, [[a], [b]]) == multiset{Some(a.payload), Some(b.payload)}
  {
    hide InLimit, Supply, Anchorable;
    SupplyOfNothing(c);
    OneRecordSupply(c, a);
    OneRecordSupply(c, b);
    SupplyAppend(c, [], [a]);
    SupplyAppend(c, [[a]], [b]);
    assert [] + [[a]] == [[a]] && [[a]] + [[b]] == [[a], [b]];
  }

  lemma {:induction false} WitnessSupply(c: Config, n: nat)
    requires n >= 2 && c.maxPayloadBytes >= 1
    ensures Supply(c, Witness(c, n)) == multiset{Some([]), Some([0])}
  {
    hide InLimit, Supply;
    if n == 2 {
      TwoRecordsSupply(c, Batched([], c.blake2([])), Batched([0], c.blake2([0])));
    } else {
      WitnessSupply(c, n - 1);
      SupplyAppend(c, Witness(c, n - 1), []);
      SupplyOfNothing(c);
    }
  }

  lemma SupplyOfNothing(c: Config)
    ensures Supply(c, []) == multiset{} && InLimit(c, []) == []
  {
  }

  lemma SupplyAppend(c: Config, log: seq<seq<Record>>, records: seq<Record>)
    ensures Supply(c, log + [records]) == Supply(c, log) + multiset(InLimit(c, records))
  {
    assert Front(log + [records]) == log;
  }

  lemma {:induction false} CollapseKeepsItems<T>(xs: seq<T>)
    requires xs != []
    ensures Collapse(xs) != [] && Collapse(xs)[0] == xs[0] && multiset(Collapse(xs)) <= multiset(xs)
  {
    assert xs == Front(xs) + [Last(xs)];
    if |xs| > 1 {
      CollapseKeepsItems(Front(xs));
    }
  }

  lemma PrefixOfCollapse<T>(h: seq<T>, xs: seq<T>)
    requires xs != [] && h != [] && h <= Collapse(xs)
    ensures multiset(h[1..]) <= multiset(xs[1..])
  {
    CollapseKeepsItems(xs);
    var k := Collapse(xs);
    hide Collapse;
    MultisetHead(xs);
    MultisetHead(k);
    assert k[1..] == h[1..] + k[|h|..] && multiset(k[1..]) == multiset(h[1..]) + multiset(k[|h|..]);
    forall x ensures multiset(h[1..])[x] <= multiset(xs[1..])[x] {
      assert multiset(k)[x] <= multiset(xs)[x];
    }
  }

  lemma MultisetHead<T>(xs: seq<T>)
    requires xs != []
    ensures multiset(xs) == multiset{xs[0]} + multiset(xs[1..])
  {
    assert xs == [xs[0]] + xs[1..];
  }

  lemma PrefixIsAtMostOnce(c: Config, onChain: Option<Bytes>, s: State)
    requires |s.log| == 1 && s.history != [] && s.history <= Collapse(Expected(c, onChain, s.log[0]))
    ensures AtMostOnce(c, s)
  {
    PrefixOfCollapse(s.history, Expected(c, onChain, s.log[0]));
    assert Expected(c, onChain, s.log[0])[1..] == InLimit(c, s.log[0]);
    assert s.log == [] + [s.log[0]];
    SupplyAppend(c, [], s.log[0]);
    hide Collapse, InLimit;
  }

  lemma SinglePartitionMeetsOnce(c: Config, log: seq<seq<Record>>, onChain: Option<Bytes>, es: seq<Event>)
    requires |log| == 1 && Injective(c.blake2) && c.reportsFailure
    ensures MeetsOnce(c, log, onChain, es)
  {
    hide Collapse, Expected, Injective, Run, ResolvedStarts, FailuresNoticed, InLimit, AtMostOnce, Honest, ReadsSucceed;
    var s := After(c, log, onChain, es);
    if Honest(c, s.log) && ResolvedStarts(c, log, onChain, es) && ReadsSucceed(es) {
      ReportedFailuresAreNoticed(c, Init(log, onChain), es);
      ExactlyOnce(c, log, onChain, es);
      RunOnce(c, log, onChain, es);
      assert WellFormed(s);
      PrefixIsAtMostOnce(c, onChain, s);
    }
  }

  /** Without partitions nothing is ever written. */
  lemma {:induction false} NoPartitionWritesNothing(c: Config, onChain: Option<Bytes>, es: seq<Event>)
    ensures var s := After(c, [], onChain, es);
      s.log == [] && s.history == [onChain] && s.limbo == [] && (s.phase.Stopped? || s.phase.Polling?) && s.cursor == [] == s.committed
  {
    if es != [] {
      NoPartitionWritesNothing(c, onChain, Front(es));
    }
  }

  /**
   * At-most-once writing over all topics of `n` partitions and all schedules with
   * successful reads and settled starts: exactly for n <= 1.
   */
  lemma OnceExactlyOnOnePartition(c: Config, n: nat)
    requires Injective(c.blake2) && c.reportsFailure && c.maxPayloadBytes >= 1
    ensures n <= 1 <==> forall log: seq<seq<Record>>, onChain: Option<Bytes>, es: seq<Event> ::
      |log| == n ==> MeetsOnce(c, log, onChain, es)
  {
    if n == 0 {
      forall log: seq<seq<Record>>, onChain: Option<Bytes>, es: seq<Event> | |log| == 0 ensures MeetsOnce(c, log, onChain, es) {
        assert log == [];
        NoPartitionWritesNothing(c, onChain, es);
      }
    } else if n == 1 {
      forall log: seq<seq<Record>>, onChain: Option<Bytes>, es: seq<Event> | |log| == 1 ensures MeetsOnce(c, log, onChain, es) {
        SinglePartitionMeetsOnce(c, log, onChain, es);
      }
    } else {
      ManyPartitionsFail(c, n);
    }
  }

  lemma ManyPartitionsFail(c: Config, n: nat)
    requires Injective(c.blake2) && c.maxPayloadBytes >= 1 && n >= 2
    ensures |Witness(c, n)| == n && !MeetsOnce(c, Witness(c, n), None, CrashBeforeFirstCommit() + SecondPartitionFirst())
  {
    WitnessIsTopic(c, n);
    WitnessSupply(c, n);
    TwoPartitionsAnchorTwice(c, Witness(c, n), [], [0]);
    hide Witness, Supply, Honest, ResolvedStarts, ReadsSucceed, After, Heads;
    var h: seq<Option<Bytes>> := [None, Some([]), Some([0]), Some([])];
    assert h[1..] == [Some([]), Some([0]), Some([])];
    assert multiset(h[1..])[Some([])] == 2;
  }
}
