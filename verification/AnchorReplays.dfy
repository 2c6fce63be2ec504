/**
 * Exactly-once on one partition without its other two assumptions: for which topics it
 * survives submissions that outlive their process, and for which failing chain reads.
 */
module AnchorReplays {
  import opened Common
  import opened Anchor
  import opened AnchorSafety
  import opened AnchorOnce
  import opened AnchorService
  import AnchorLimits

  // ---------------------------------------------------------------------------
  // Runs that meet no failure
  // ---------------------------------------------------------------------------

  const ALL_GOOD: Outcomes := Outcomes(true, true, true, [Finalized([])], Applied, true, true)

  lemma GoodIsPossible(c: Config)
    ensures Possible(c, ALL_GOOD) && SubmitOk(c, ALL_GOOD)
  {
    assert Front([Finalized([])]) == [];
    assert FateOf([]) == Applied;
  }

  /** Between two passes, having read nothing that matters past the committed offset. */
  ghost predicate Ready(c: Config, s: State) {
    && WellFormed(s) && |s.log| == 1 && s.phase.Polling?
    && s.committed[0] <= s.cursor[0] && Quiet(c, s, s.cursor[0])
    && Honest(c, s.log)
  }

  /** Reads succeed, nothing starts, and the topic stays as it is. */
  predicate Smooth(es: seq<Event>) {
    forall e <- es :: !e.Start? && !e.TopicGrows? && (e.ReadDone? ==> e.ok)
  }

  /** The cell after one more record: written unless it already shows the payload. */
  function Shown(c: Config, history: seq<Option<Bytes>>, r: Record): seq<Option<Bytes>>
    requires history != []
  {
    if Anchorable(c, r) && Last(history) != Some(r.payload) then history + [Some(r.payload)] else history
  }

  lemma PassShows(c: Config, s: State)
    requires Injective(c.blake2) && Ready(c, s) && s.cursor[0] < |s.log[0]|
    ensures var s1 := Pass(c, s, 0, ALL_GOOD);
      && s1.phase.Polling? && s1.log == s.log && s1.limbo == s.limbo
      && s1.cursor == [s.cursor[0] + 1]
      && s1.history == Shown(c, s.history, s.log[0][s.cursor[0]])
      && s1.committed == if s.log[0][s.cursor[0]].NullValue? || s.log[0][s.cursor[0]].Foreign? then s.committed else [s.cursor[0] + 1]
  {
    GoodIsPossible(c);
    hide Watch, Quiet, FateOf;
    var r := s.log[0][s.cursor[0]];
    if r.Batched? {
      assert r.payloadHash == c.blake2(r.payload);
      HashesCompareBytes(c, Last(s.history), r.payload);
    }
  }

  lemma ShownCollapses(c: Config, history: seq<Option<Bytes>>, r: Record)
    requires history != []
    ensures Shown(c, history, r) != [] && Collapse(Shown(c, history, r)) == Collapse(history + Payloads(c, r))
  {
    if Anchorable(c, r) {
      CollapseAppend(history, Some(r.payload));
    } else {
      assert history + [] == history;
    }
  }

  lemma Snoc<T>(xs: seq<T>, zs: seq<T>)
    requires zs != []
    ensures xs + zs == (xs + Front(zs)) + [Last(zs)]
  {
    assert zs == Front(zs) + [Last(zs)];
  }

  /** What follows collapses alike after histories that collapse alike. */
  lemma {:induction false} CollapseBoth<T>(xs: seq<T>, ys: seq<T>, zs: seq<T>)
    requires xs != [] && ys != [] && Collapse(xs) == Collapse(ys)
    ensures Collapse(xs + zs) == Collapse(ys + zs)
  {
    hide Collapse;
    if zs == [] {
      assert xs + zs == xs && ys + zs == ys;
    } else {
      CollapseBoth(xs, ys, Front(zs));
      SameCollapse(xs + Front(zs), ys + Front(zs), Last(zs));
      Snoc(xs, zs);
      Snoc(ys, zs);
      hide Last, Front;
    }
  }

  lemma NothingMore(c: Config, recs: seq<Record>, k: nat, o: nat)
    requires k <= o < |recs| && InLimit(c, recs[k..o]) == []
    ensures !Anchorable(c, recs[o]) ==> InLimit(c, recs[k..o + 1]) == []
    ensures InLimit(c, recs[o + 1..o + 1]) == []
  {
    assert recs[o + 1..o + 1] == [] && InLimit(c, []) == [];
    hide InLimit;
    InLimitLast(c, recs[k..o], recs[o]);
    assert recs[k..o + 1] == recs[k..o] + [recs[o]];
  }

  lemma PassStaysReady(c: Config, s: State)
    requires Injective(c.blake2) && Ready(c, s) && s.cursor[0] < |s.log[0]|
    ensures Ready(c, Pass(c, s, 0, ALL_GOOD))
  {
    hide Pass, Shown, InLimit, Injective, Honest;
    NothingMore(c, s.log[0], s.committed[0], s.cursor[0]);
    PassShows(c, s);
    PassKeepsWellFormed(c, s, 0, ALL_GOOD);
  }

  /** The partition has been worked off from where `s` stood up to offset `k`. */
  ghost predicate Reached(c: Config, s: State, k: nat, s1: State)
    requires Ready(c, s)
  {
    && s.cursor[0] <= k <= |s.log[0]|
    && Ready(c, s1)
    && s1.log == s.log && s1.limbo == s.limbo && s1.cursor == [k]
    && Collapse(s1.history) == Collapse(s.history + InLimit(c, s.log[0][s.cursor[0]..k]))
  }

  lemma GoodPath(c: Config, s: State)
    requires Ready(c, s) && s.cursor[0] < |s.log[0]|
    ensures Smooth(Path(c, s, 0, ALL_GOOD)) && Run(c, s, Path(c, s, 0, ALL_GOOD)) == Pass(c, s, 0, ALL_GOOD)
  {
    hide Pass, Run, Watch, Possible, Quiet, Honest;
    GoodIsPossible(c);
    PassIsRun(c, s, 0, ALL_GOOD);
    PathIsSmooth(c, s);
  }

  lemma PathIsSmooth(c: Config, s: State)
    requires Available(s, 0) && SubmitOk(c, ALL_GOOD)
    ensures Smooth(Path(c, s, 0, ALL_GOOD))
  {
    hide AnchoredPayloadMatches;
  }

  lemma ShowsOneMore(c: Config, start: seq<Option<Bytes>>, recs: seq<Record>, r: Record, history: seq<Option<Bytes>>)
    requires start != [] && history != [] && Collapse(history) == Collapse(start + InLimit(c, recs))
    ensures Collapse(Shown(c, history, r)) == Collapse(start + InLimit(c, recs + [r]))
  {
    ShownCollapses(c, history, r);
    InLimitLast(c, recs, r);
    hide Collapse, Shown, InLimit;
    CollapseBoth(history, start + InLimit(c, recs), Payloads(c, r));
    assert start + InLimit(c, recs) + Payloads(c, r) == start + InLimit(c, recs + [r]);
  }

  lemma SmoothPass(c: Config, s: State, k: nat, s1: State)
    requires Injective(c.blake2) && Ready(c, s) && Reached(c, s, k, s1) && k < |s.log[0]|
    ensures Smooth(Path(c, s1, 0, ALL_GOOD)) && Reached(c, s, k + 1, Run(c, s1, Path(c, s1, 0, ALL_GOOD)))
  {
    hide Pass, Run, Collapse, Shown, InLimit, Smooth, Path, Injective;
    var recs := s.log[0][s.cursor[0]..k];
    assert s1.log == s.log && s1.cursor == [k] && s1.history != [] && s.history != [];
    assert s.log[0][s.cursor[0]..k + 1] == recs + [s.log[0][k]];
    GoodPath(c, s1);
    PassShows(c, s1);
    PassStaysReady(c, s1);
    ShowsOneMore(c, s.history, recs, s.log[0][k], s1.history);
  }

  lemma ReachedAlready(c: Config, s: State)
    requires Ready(c, s)
    ensures Reached(c, s, s.cursor[0], s)
  {
    var k := s.cursor[0];
    assert s.log[0][k..k] == [] && InLimit(c, []) == [] && s.history + [] == s.history && s.cursor == [k];
    hide Collapse;
  }

  /** The partition can be worked off up to any offset. */
  lemma {:induction false} SmoothRun(c: Config, s: State, k: nat) returns (es: seq<Event>)
    requires Injective(c.blake2) && Ready(c, s) && s.cursor[0] <= k <= |s.log[0]|
    ensures Smooth(es) && Reached(c, s, k, Run(c, s, es))
    decreases k
  {
    if k == s.cursor[0] {
      es := [];
      ReachedAlready(c, s);
      hide Reached, Ready;
    } else {
      hide Reached, Path, Injective;
      var before := SmoothRun(c, s, k - 1);
      var s1 := Run(c, s, before);
      var pass := SmoothMore(c, s, k - 1, s1);
      es := before + pass;
      hide Run, Ready;
      RunConcat(c, s, before, pass);
    }
  }

  lemma SmoothMore(c: Config, s: State, k: nat, s1: State) returns (pass: seq<Event>)
    requires Injective(c.blake2) && Ready(c, s) && Reached(c, s, k, s1) && k < |s.log[0]|
    ensures Smooth(pass) && Reached(c, s, k + 1, Run(c, s1, pass))
  {
    SmoothPass(c, s, k, s1);
    pass := Path(c, s1, 0, ALL_GOOD);
    hide Run, Path, Collapse;
  }

  /** One process: it starts, and meets no failing read and no new records. */
  ghost predicate OneProcess(es: seq<Event>) {
    es != [] && es[0].Start? && Start !in es[1..] && ReadsSucceed(es) && forall e <- es :: !e.TopicGrows?
  }

  /** A stopped service can be started and work the partition off up to any offset past the committed one. */
  lemma Resume(c: Config, s: State, k: nat) returns (es: seq<Event>)
    requires Injective(c.blake2) && Honest(c, s.log)
    requires WellFormed(s) && |s.log| == 1 && s.phase.Stopped? && s.committed[0] <= k <= |s.log[0]|
    ensures OneProcess(es)
    ensures var s1 := Run(c, s, es);
      && Ready(c, s1) && s1.log == s.log && s1.limbo == s.limbo && s1.cursor == [k]
      && Collapse(s1.history) == Collapse(s.history + InLimit(c, s.log[0][s.committed[0]..k]))
  {
    var started := Step(c, s, Start);
    assert s.log[0][s.committed[0]..s.committed[0]] == [] && InLimit(c, []) == [];
    var smooth := SmoothRun(c, started, k);
    es := [Start] + smooth;
    RunOne(c, s, Start);
    RunConcat(c, s, [Start], smooth);
    assert es[1..] == smooth;
    hide Run, Collapse, InLimit;
  }

  // ---------------------------------------------------------------------------
  // Failing reads
  // ---------------------------------------------------------------------------

  lemma {:induction false} CollapseHasNoRepeats<T>(xs: seq<T>)
    ensures NoRepeats(Collapse(xs))
  {
    if |xs| > 1 {
      CollapseHasNoRepeats(Front(xs));
      LastOfCollapse(Front(xs));
    }
  }

  lemma {:induction false} NothingInLimit(c: Config, recs: seq<Record>)
    ensures InLimit(c, recs) == [] <==> forall r <- recs :: !Anchorable(c, r)
  {
    if recs != [] {
      NothingInLimit(c, Front(recs));
      assert recs == Front(recs) + [Last(recs)];
    }
  }

  /** The history of the cell is, literally, a prefix of the collapsed topic. */
  ghost predicate Literal(c: Config, log: seq<seq<Record>>, onChain: Option<Bytes>, es: seq<Event>) {
    var s := After(c, log, onChain, es);
    |s.log| == 1 && s.history <= Collapse(Expected(c, onChain, s.log[0]))
  }

  lemma {:induction false} NothingIsWritten(c: Config, log: seq<seq<Record>>, onChain: Option<Bytes>, es: seq<Event>)
    requires |log| == 1
    ensures var s := After(c, log, onChain, es);
      && |s.log| == 1 && WellFormed(s)
      && (InLimit(c, s.log[0]) == [] ==>
            s.history == [onChain] && s.limbo == [] && !s.phase.ChainRead? && !s.phase.Submitting?)
  {
    if es != [] {
      NothingIsWritten(c, log, onChain, Front(es));
      QuietStep(c, onChain, After(c, log, onChain, Front(es)), Last(es));
    }
  }

  lemma QuietStep(c: Config, onChain: Option<Bytes>, s: State, e: Event)
    requires WellFormed(s) && |s.log| == 1
    requires InLimit(c, s.log[0]) == [] ==>
      s.history == [onChain] && s.limbo == [] && !s.phase.ChainRead? && !s.phase.Submitting?
    ensures var s1 := Step(c, s, e);
      && |s1.log| == 1 && WellFormed(s1)
      && (InLimit(c, s1.log[0]) == [] ==>
            s1.history == [onChain] && s1.limbo == [] && !s1.phase.ChainRead? && !s1.phase.Submitting?)
  {
    hide InLimit, AnchoredPayloadMatches;
    var s1 := Step(c, s, e);
    StepIsWellFormed(c, s, e);
    NothingInLimit(c, s.log[0]);
    NothingInLimit(c, s1.log[0]);
    assert s.log[0] <= s1.log[0];
    assert forall r <- s.log[0] :: r in s1.log[0];
    if s.cursor[0] < |s.log[0]| {
      assert s.log[0][s.cursor[0]] in s.log[0];
    }
  }

  /** The next payload is written although the cell could not be read. */
  function BlindWrite(): seq<Event> {
    [Deliver(0), ReadDone(false), ChainSettles(true)]
  }

  lemma BlindWriteWrites(c: Config, s: State)
    requires Ready(c, s) && s.cursor[0] < |s.log[0]| && Anchorable(c, s.log[0][s.cursor[0]])
    ensures var s1 := Run(c, s, BlindWrite());
      && s1.history == s.history + [Some(s.log[0][s.cursor[0]].payload)]
      && s1.log == s.log && s1.committed == s.committed && s1.limbo == s.limbo
      && s1.phase == Submitting(Position(0, s.cursor[0]), Applied) && WellFormed(s1)
  {
    RunTwo(c, s, Deliver(0), ReadDone(false));
    RunOne(c, Run(c, s, [Deliver(0), ReadDone(false)]), ChainSettles(true));
    RunConcat(c, s, [Deliver(0), ReadDone(false)], [ChainSettles(true)]);
    assert [Deliver(0), ReadDone(false)] + [ChainSettles(true)] == BlindWrite();
    hide Quiet;
  }

  lemma FirstInLimit(c: Config, recs: seq<Record>) returns (k: nat)
    requires InLimit(c, recs) != []
    ensures k < |recs| && Anchorable(c, recs[k])
  {
    NothingInLimit(c, recs);
    var r :| r in recs && Anchorable(c, r);
    k :| 0 <= k < |recs| && recs[k] == r;
  }

  lemma RepeatIsNotCollapsed<T>(h: seq<T>, xs: seq<T>)
    requires |h| >= 2 && h[|h| - 2] == Last(h)
    ensures !(h <= Collapse(xs))
  {
    CollapseHasNoRepeats(xs);
    var k := |h| - 1;
    assert !(0 < k < |Collapse(xs)| && Collapse(xs)[k - 1] == Collapse(xs)[k]);
  }

  /** Works up to record `k`, writes blindly, and dies with the write applied. */
  lemma WriteBlindlyAndDie(c: Config, s: State, k: nat) returns (es: seq<Event>)
    requires Injective(c.blake2) && Honest(c, s.log)
    requires WellFormed(s) && |s.log| == 1 && s.phase.Stopped? && s.committed[0] <= k < |s.log[0]|
    requires Anchorable(c, s.log[0][k]) && s.limbo == []
    ensures es != [] && es[0].Start? && Start !in es[1..]
    ensures var s1 := Run(c, s, es);
      && WellFormed(s1) && s1.phase.Stopped? && s1.log == s.log && s1.limbo == []
      && s1.committed[0] <= k && InLimit(c, s.log[0][s1.committed[0]..k]) == []
      && s1.history != [] && Last(s1.history) == Some(s.log[0][k].payload)
  {
    var first := Resume(c, s, k);
    var s1 := Run(c, s, first);
    var s2 := Run(c, s1, BlindWrite());
    BlindWriteWrites(c, s1);
    RunOne(c, s2, Halt);
    assert [] + [] == s2.limbo;
    es := first + BlindWrite() + [Halt];
    assert es[1..] == first[1..] + BlindWrite() + [Halt];
    hide Run, Collapse, InLimit;
    RunConcat(c, s, first, BlindWrite());
    RunConcat(c, s, first + BlindWrite(), [Halt]);
  }

  lemma SameLast<T>(xs: seq<T>, ys: seq<T>)
    requires xs != [] && ys != [] && Collapse(xs) == Collapse(ys)
    ensures Last(xs) == Last(ys)
  {
    LastOfCollapse(xs);
    LastOfCollapse(ys);
  }

  /** From there a second process that cannot read the cell writes the same payload again. */
  lemma WriteAgain(c: Config, s: State, k: nat) returns (es: seq<Event>)
    requires Injective(c.blake2) && Honest(c, s.log)
    requires WellFormed(s) && |s.log| == 1 && s.phase.Stopped? && s.committed[0] <= k < |s.log[0]|
    requires InLimit(c, s.log[0][s.committed[0]..k]) == []
    requires Anchorable(c, s.log[0][k]) && Last(s.history) == Some(s.log[0][k].payload)
    ensures es != [] && es[0].Start? && Start !in es[1..]
    ensures var s1 := Run(c, s, es);
      s1.log == s.log && |s1.history| >= 2 && s1.history[|s1.history| - 2] == Last(s1.history)
  {
    hide Run, Collapse, InLimit, Injective, Honest, Quiet;
    var first := Resume(c, s, k);
    var s1 := Run(c, s, first);
    assert s.history + [] == s.history;
    SameLast(s1.history, s.history);
    BlindWriteWrites(c, s1);
    es := first + BlindWrite();
    assert es[1..] == first[1..] + BlindWrite();
    RunConcat(c, s, first, BlindWrite());
  }

  lemma FailingReadsRepeat(c: Config, onChain: Option<Bytes>, recs: seq<Record>) returns (es: seq<Event>)
    requires Injective(c.blake2) && Honest(c, [recs]) && InLimit(c, recs) != []
    ensures After(c, [recs], onChain, es).log == [recs] && ResolvedStarts(c, [recs], onChain, es)
    ensures !Literal(c, [recs], onChain, es)
  {
    hide Run, Collapse, InLimit, Injective, ResolvedStarts;
    var k := FirstInLimit(c, recs);
    var s := Init([recs], onChain);
    var first := WriteBlindlyAndDie(c, s, k);
    var s1 := Run(c, s, first);
    var second := WriteAgain(c, s1, k);
    es := first + second;
    AnchorLimits.StartsAreResolved(c, [recs], onChain, first, second);
    RunConcat(c, s, first, second);
    RepeatIsNotCollapsed(After(c, [recs], onChain, es).history, Expected(c, onChain, recs));
  }

  /**
   * With failing reads the literal history conforms in every run with settled starts, for
   * exactly those topics that have nothing within the limit to write.
   */
  lemma FailingReadsAreHarmlessOnlyIfNothingIsWritten(c: Config, onChain: Option<Bytes>, recs: seq<Record>)
    requires Injective(c.blake2) && Honest(c, [recs])
    ensures InLimit(c, recs) == [] <==> forall log: seq<seq<Record>>, es: seq<Event> ::
      |log| == 1 && After(c, log, onChain, es).log == [recs] && ResolvedStarts(c, log, onChain, es) ==> Literal(c, log, onChain, es)
  {
    if InLimit(c, recs) == [] {
      forall log: seq<seq<Record>>, es: seq<Event> | |log| == 1 && After(c, log, onChain, es).log == [recs]
        ensures Literal(c, log, onChain, es)
      {
        NothingIsWritten(c, log, onChain, es);
        assert Collapse(Expected(c, onChain, recs)) == [onChain];
      }
    } else {
      var es := FailingReadsRepeat(c, onChain, recs);
      assert |[recs]| == 1;
    }
  }

  // ---------------------------------------------------------------------------
  // Submissions that outlive their process
  // ---------------------------------------------------------------------------

  /** Up to immediate repetitions, the history is a prefix of the topic. */
  ghost predicate InOrder(c: Config, log: seq<seq<Record>>, onChain: Option<Bytes>, es: seq<Event>) {
    var s := After(c, log, onChain, es);
    |s.log| == 1 && Collapse(s.history) <= Collapse(Expected(c, onChain, s.log[0]))
  }

  lemma ExpectedLast(c: Config, onChain: Option<Bytes>, recs: seq<Record>, r: Record)
    ensures Expected(c, onChain, recs + [r]) == Expected(c, onChain, recs) + Payloads(c, r)
    ensures Collapse(Expected(c, onChain, recs + [r]))
      == if Anchorable(c, r) && Last(Expected(c, onChain, recs)) != Some(r.payload)
         then Collapse(Expected(c, onChain, recs)) + [Some(r.payload)] else Collapse(Expected(c, onChain, recs))
  {
    InLimitLast(c, recs, r);
    var before := Expected(c, onChain, recs);
    assert [onChain] + (InLimit(c, recs) + Payloads(c, r)) == before + Payloads(c, r);
    if Anchorable(c, r) {
      CollapseAppend(before, Some(r.payload));
    } else {
      assert before + [] == before;
    }
    hide InLimit, Collapse;
  }

  lemma ExpectedOfNothing(c: Config, onChain: Option<Bytes>)
    ensures Collapse(Expected(c, onChain, [])) == [onChain]
  {
  }

  /** Record `k` brings a payload that the cell did not show before. */
  ghost predicate Brings(c: Config, onChain: Option<Bytes>, recs: seq<Record>, k: nat) {
    k < |recs| && Anchorable(c, recs[k]) && Last(Expected(c, onChain, recs[..k])) != Some(recs[k].payload)
  }

  lemma BringsInFront(c: Config, onChain: Option<Bytes>, recs: seq<Record>, k: nat)
    requires recs != [] && Brings(c, onChain, Front(recs), k)
    ensures Brings(c, onChain, recs, k) && k < |recs| && recs[k] == Front(recs)[k] && recs[k].Batched?
  {
    assert Front(recs)[..k] == recs[..k];
  }

  lemma BringsAtEnd(c: Config, onChain: Option<Bytes>, recs: seq<Record>)
    requires recs != [] && Anchorable(c, Last(recs)) && Last(Expected(c, onChain, Front(recs))) != Some(Last(recs).payload)
    ensures Brings(c, onChain, recs, |recs| - 1)
    ensures Last(Expected(c, onChain, recs)) == Some(Last(recs).payload)
  {
    assert Front(recs) == recs[..|recs| - 1];
    ExpectedLast(c, onChain, Front(recs), Last(recs));
    assert recs == Front(recs) + [Last(recs)];
  }

  lemma NothingAtEnd(c: Config, onChain: Option<Bytes>, recs: seq<Record>)
    requires recs != [] && !(Anchorable(c, Last(recs)) && Last(Expected(c, onChain, Front(recs))) != Some(Last(recs).payload))
    ensures Collapse(Expected(c, onChain, recs)) == Collapse(Expected(c, onChain, Front(recs)))
    ensures Last(Expected(c, onChain, recs)) == Last(Expected(c, onChain, Front(recs)))
  {
    hide Collapse, InLimit;
    ExpectedLast(c, onChain, Front(recs), Last(recs));
    assert recs == Front(recs) + [Last(recs)];
    var before := Expected(c, onChain, Front(recs));
    assert before + [] == before;
    hide Expected;
  }

  lemma EndAddsOne(c: Config, onChain: Option<Bytes>, recs: seq<Record>)
    requires recs != []
    ensures |Collapse(Expected(c, onChain, recs))| <= |Collapse(Expected(c, onChain, Front(recs)))| + 1
  {
    hide Collapse, Expected, InLimit;
    ExpectedLast(c, onChain, Front(recs), Last(recs));
    assert recs == Front(recs) + [Last(recs)];
  }

  /** The record that brought what the cell shows in the end. */
  lemma {:induction false} LastBrought(c: Config, onChain: Option<Bytes>, recs: seq<Record>) returns (k: nat)
    requires |Collapse(Expected(c, onChain, recs))| >= 2
    ensures Brings(c, onChain, recs, k) && Last(Expected(c, onChain, recs)) == Some(recs[k].payload)
  {
    ExpectedOfNothing(c, onChain);
    hide Collapse, InLimit;
    if Anchorable(c, Last(recs)) && Last(Expected(c, onChain, Front(recs))) != Some(Last(recs).payload) {
      k := |recs| - 1;
      BringsAtEnd(c, onChain, recs);
    } else {
      NothingAtEnd(c, onChain, recs);
      hide Brings;
      k := LastBrought(c, onChain, Front(recs));
      BringsInFront(c, onChain, recs, k);
    }
  }

  /** If the topic changes the cell twice, one record brought a payload that is not the last one shown. */
  lemma {:induction false} Overwritten(c: Config, onChain: Option<Bytes>, recs: seq<Record>) returns (k: nat)
    requires |Collapse(Expected(c, onChain, recs))| >= 3
    ensures Brings(c, onChain, recs, k) && Last(Expected(c, onChain, recs)) != Some(recs[k].payload)
  {
    ExpectedOfNothing(c, onChain);
    EndAddsOne(c, onChain, recs);
    hide Collapse, InLimit;
    if Anchorable(c, Last(recs)) && Last(Expected(c, onChain, Front(recs))) != Some(Last(recs).payload) {
      BringsAtEnd(c, onChain, recs);
      hide Brings;
      k := LastBrought(c, onChain, Front(recs));
      BringsInFront(c, onChain, recs, k);
    } else {
      NothingAtEnd(c, onChain, recs);
      hide Brings;
      k := Overwritten(c, onChain, Front(recs));
      BringsInFront(c, onChain, recs, k);
    }
  }

  function SubmitAndDie(): seq<Event> {
    [Deliver(0), ReadDone(true), Halt]
  }

  lemma SubmitAndDieLeavesIt(c: Config, s: State)
    requires Ready(c, s) && s.cursor[0] < |s.log[0]| && Anchorable(c, s.log[0][s.cursor[0]]) && s.limbo == []
    requires Injective(c.blake2) && Last(s.history) != Some(s.log[0][s.cursor[0]].payload)
    ensures var s1 := Run(c, s, SubmitAndDie());
      && s1.limbo == [s.log[0][s.cursor[0]].payload] && s1.phase.Stopped? && WellFormed(s1)
      && s1.log == s.log && s1.committed == s.committed && s1.history == s.history
  {
    var r := s.log[0][s.cursor[0]];
    assert r.payloadHash == c.blake2(r.payload);
    HashesCompareBytes(c, Last(s.history), r.payload);
    RunTwo(c, s, Deliver(0), ReadDone(true));
    RunOne(c, Run(c, s, [Deliver(0), ReadDone(true)]), Halt);
    RunConcat(c, s, [Deliver(0), ReadDone(true)], [Halt]);
    assert [Deliver(0), ReadDone(true)] + [Halt] == SubmitAndDie();
    hide Quiet, Injective;
  }

  lemma LeftBehind(c: Config, onChain: Option<Bytes>, recs: seq<Record>, k: nat) returns (es: seq<Event>)
    requires Injective(c.blake2) && Honest(c, [recs]) && Brings(c, onChain, recs, k)
    ensures ReadsSucceed(es)
    ensures var s := After(c, [recs], onChain, es);
      && WellFormed(s) && s.phase.Stopped? && s.log == [recs] && s.limbo == [recs[k].payload]
      && s.committed[0] <= k && InLimit(c, recs[s.committed[0]..k]) == []
      && Collapse(s.history) == Collapse(Expected(c, onChain, recs[..k]))
  {
    var s := Init([recs], onChain);
    var first := Resume(c, s, k);
    var s1 := Run(c, s, first);
    assert s.history + InLimit(c, recs[0..k]) == Expected(c, onChain, recs[..k]);
    SameLast(s1.history, Expected(c, onChain, recs[..k]));
    SubmitAndDieLeavesIt(c, s1);
    es := first + SubmitAndDie();
    RunConcat(c, s, first, SubmitAndDie());
    hide Run, Collapse, InLimit;
  }

  lemma LateWrite(c: Config, s: State, payload: Bytes)
    requires s.limbo == [payload]
    ensures Run(c, s, [LimboSettles(0, true)]).history == s.history + [Some(payload)]
    ensures Run(c, s, [LimboSettles(0, true)]).log == s.log
  {
    RunOne(c, s, LimboSettles(0, true));
  }

  /** The whole topic is anchored, then the chain applies the submission left behind. */
  lemma LateSubmissionBreaksOrder(c: Config, onChain: Option<Bytes>, recs: seq<Record>, k: nat) returns (es: seq<Event>)
    requires Injective(c.blake2) && Honest(c, [recs])
    requires Brings(c, onChain, recs, k) && Last(Expected(c, onChain, recs)) != Some(recs[k].payload)
    ensures ReadsSucceed(es) && After(c, [recs], onChain, es).log == [recs]
    ensures !InOrder(c, [recs], onChain, es)
  {
    var payload := recs[k].payload;
    hide Run, Collapse, InLimit, Injective, Brings, Ready, Honest;
    var start, late := Init([recs], onChain), [LimboSettles(0, true)];
    var first := LeftBehind(c, onChain, recs, k);
    var s := After(c, [recs], onChain, first);
    var second := Resume(c, s, |recs|);
    var s1 := Run(c, s, second);
    LateWrite(c, s1, payload);
    es := first + second + late;
    RunConcat(c, start, first, second);
    RunConcat(c, start, first + second, late);
    WholeTopicShown(c, onChain, recs, k, s.committed[0], s.history);
    OneTooMany(s1.history, Expected(c, onChain, recs), Some(payload));
  }

  lemma WholeTopicShown(c: Config, onChain: Option<Bytes>, recs: seq<Record>, k: nat, from: nat, history: seq<Option<Bytes>>)
    requires from <= k <= |recs| && InLimit(c, recs[from..k]) == [] && history != []
    requires Collapse(history) == Collapse(Expected(c, onChain, recs[..k]))
    ensures Collapse(history + InLimit(c, recs[from..|recs|])) == Collapse(Expected(c, onChain, recs))
  {
    hide InLimit, Collapse;
    var rest := InLimit(c, recs[k..]);
    assert InLimit(c, recs[from..|recs|]) == rest by {
      InLimitConcat(c, recs[from..k], recs[k..]);
      assert recs[from..|recs|] == recs[from..k] + recs[k..] && [] + rest == rest;
    }
    assert Expected(c, onChain, recs) == Expected(c, onChain, recs[..k]) + rest by {
      InLimitConcat(c, recs[..k], recs[k..]);
      assert recs == recs[..k] + recs[k..];
    }
    hide Expected;
    CollapseBoth(history, Expected(c, onChain, recs[..k]), rest);
  }

  lemma OneTooMany<T>(history: seq<T>, expected: seq<T>, x: T)
    requires history != [] && expected != [] && Collapse(history) == Collapse(expected) && Last(expected) != x
    ensures !(Collapse(history + [x]) <= Collapse(expected))
  {
    LastOfCollapse(history);
    LastOfCollapse(expected);
    CollapseAppend(history, x);
    assert |Collapse(history + [x])| > |Collapse(expected)|;
  }

  /** Below record `o` everything within the limit repeats the initial value; from `o` on it is one other payload. */
  ghost predicate OneTurn(c: Config, onChain: Option<Bytes>, recs: seq<Record>, x: Bytes, o: nat) {
    && o <= |recs|
    && (o < |recs| ==> Anchorable(c, recs[o]) && Some(x) != onChain)
    && forall i :: 0 <= i < |recs| && Anchorable(c, recs[i]) ==> Some(recs[i].payload) == if i < o then onChain else Some(x)
  }

  lemma TurnExtends(c: Config, onChain: Option<Bytes>, recs: seq<Record>, r: Record, x: Bytes, o: nat) returns (x1: Bytes, o1: nat)
    requires OneTurn(c, onChain, recs, x, o)
    requires Anchorable(c, r) && Some(r.payload) != (if o < |recs| then Some(x) else onChain) ==> o == |recs|
    ensures OneTurn(c, onChain, recs + [r], x1, o1)
    ensures if o1 < |recs| + 1
      then (o < |recs| && x1 == x) || (o == |recs| == o1 && Anchorable(c, r) && x1 == r.payload && Some(r.payload) != onChain)
      else o == |recs| && (Anchorable(c, r) ==> Some(r.payload) == onChain)
  {
    if o < |recs| {
      x1, o1 := x, o;
    } else if Anchorable(c, r) && Some(r.payload) != onChain {
      x1, o1 := r.payload, o;
    } else {
      x1, o1 := x, |recs| + 1;
    }
  }

  lemma {:induction false} FindTurn(c: Config, onChain: Option<Bytes>, recs: seq<Record>) returns (x: Bytes, o: nat)
    requires |Collapse(Expected(c, onChain, recs))| <= 2
    ensures OneTurn(c, onChain, recs, x, o)
    ensures Collapse(Expected(c, onChain, recs)) == if o < |recs| then [onChain, Some(x)] else [onChain]
  {
    ExpectedOfNothing(c, onChain);
    if recs == [] {
      x, o := [], 0;
    } else {
      var r := Last(recs);
      assert recs == Front(recs) + [r];
      ExpectedLast(c, onChain, Front(recs), r);
      LastOfCollapse(Expected(c, onChain, Front(recs)));
      hide Collapse, Expected, Payloads, OneTurn;
      x, o := FindTurn(c, onChain, Front(recs));
      x, o := TurnExtends(c, onChain, Front(recs), r, x, o);
    }
  }

  /** The initial value, then perhaps the other payload. */
  ghost predicate Turned(history: seq<Option<Bytes>>, onChain: Option<Bytes>, x: Bytes) {
    && history != [] && history[0] == onChain
    && (forall i :: 0 <= i < |history| ==> history[i] == onChain || history[i] == Some(x))
    && (forall i :: 0 < i < |history| && history[i] == onChain ==> history[i - 1] == onChain)
  }

  lemma {:induction false} TurnedCollapses(history: seq<Option<Bytes>>, onChain: Option<Bytes>, x: Bytes)
    requires Turned(history, onChain, x)
    ensures Collapse(history) == if Last(history) == onChain then [onChain] else [onChain, Some(x)]
  {
    if |history| > 1 {
      TurnedCollapses(Front(history), onChain, x);
    }
  }

  /** Where the loop stands: everything before this offset has been read, all but what matters not committed. */
  function Standing(s: State): nat
    requires |s.cursor| == 1
  {
    if s.phase.Stopped? || s.phase.Polling? then s.cursor[0] else s.phase.at.offset
  }

  ghost predicate NoneBetween(c: Config, recs: seq<Record>, from: nat, to: nat) {
    forall i :: from <= i < to && i < |recs| ==> !Anchorable(c, recs[i])
  }

  /** Some submission of the other payload has been made. */
  predicate Late(onChain: Option<Bytes>, s: State) {
    s.limbo != [] || s.phase.Submitting? || (s.history != [] && Last(s.history) != onChain)
  }

  /** Once the other payload has been submitted, no record below the turn is left to redeliver. */
  ghost predicate Turning(c: Config, onChain: Option<Bytes>, recs: seq<Record>, x: Bytes, o: nat, s: State) {
    && WellFormed(s) && |s.log| == 1 && s.log[0] <= recs
    && Turned(s.history, onChain, x)
    && (forall l <- s.limbo :: l == x)
    && (Late(onChain, s) ==> o < |recs| && NoneBetween(c, recs, s.committed[0], o))
    && (!s.phase.Stopped? ==> s.committed[0] <= Standing(s) && NoneBetween(c, recs, s.committed[0], Standing(s)))
    && (s.phase.ChainRead? || s.phase.Submitting? ==> Anchorable(c, RecordAt(s, s.phase.at)))
    && (s.phase.Submitting? ==> RecordAt(s, s.phase.at).payload == x)
  }

  lemma CompareTurns(c: Config, onChain: Option<Bytes>, recs: seq<Record>, x: Bytes, o: nat, s: State)
    requires OneTurn(c, onChain, recs, x, o) && Turning(c, onChain, recs, x, o, s)
    requires Injective(c.blake2) && Honest(c, s.log) && s.phase.ChainRead?
    ensures Turning(c, onChain, recs, x, o, Compare(c, s, true))
  {
    var k := s.phase.at.offset;
    var r := RecordAt(s, s.phase.at);
    assert r == recs[k] && r.payloadHash == c.blake2(r.payload);
    HashesCompareBytes(c, Last(s.history), r.payload);
    hide Injective, AnchoredPayloadMatches;
  }

  lemma WriteTurns(history: seq<Option<Bytes>>, onChain: Option<Bytes>, x: Bytes)
    requires Turned(history, onChain, x) && Some(x) != onChain
    ensures Turned(history + [Some(x)], onChain, x)
  {
  }

  lemma SettlingTurns(c: Config, onChain: Option<Bytes>, recs: seq<Record>, x: Bytes, o: nat, s: State, applied: bool)
    requires OneTurn(c, onChain, recs, x, o) && Turning(c, onChain, recs, x, o, s)
    ensures Turning(c, onChain, recs, x, o, Step(c, s, ChainSettles(applied)))
  {
    if s.phase.Submitting? {
      WriteTurns(s.history, onChain, x);
    }
    hide NoneBetween, Anchorable, Turned;
  }

  lemma LimboTurns(c: Config, onChain: Option<Bytes>, recs: seq<Record>, x: Bytes, o: nat, s: State, i: nat, applied: bool)
    requires OneTurn(c, onChain, recs, x, o) && Turning(c, onChain, recs, x, o, s) && i < |s.limbo|
    ensures Turning(c, onChain, recs, x, o, Step(c, s, LimboSettles(i, applied)))
  {
    assert s.limbo[i] in s.limbo;
    WriteTurns(s.history, onChain, x);
    var left := s.limbo[..i] + s.limbo[i + 1..];
    assert forall l <- left :: l in s.limbo;
    var s1 := Step(c, s, LimboSettles(i, applied));
    assert s1 == s.(limbo := left, history := if applied then s.history + [Some(x)] else s.history);
  }

  lemma CommitTurns(c: Config, onChain: Option<Bytes>, recs: seq<Record>, x: Bytes, o: nat, s: State, ok: bool, landed: bool)
    requires Turning(c, onChain, recs, x, o, s)
    ensures Turning(c, onChain, recs, x, o, Step(c, s, CommitDone(ok, landed)))
  {
    hide Turned, Anchorable;
  }

  lemma GrowthTurns(c: Config, onChain: Option<Bytes>, recs: seq<Record>, x: Bytes, o: nat, s: State, log: seq<seq<Record>>)
    requires Turning(c, onChain, recs, x, o, s)
    requires |log| == 1 && s.log[0] <= log[0] <= recs
    ensures Turning(c, onChain, recs, x, o, s.(log := log))
  {
    hide Turned, NoneBetween, Anchorable;
  }

  lemma AcceptTurns(c: Config, onChain: Option<Bytes>, recs: seq<Record>, x: Bytes, o: nat, s: State)
    requires Turning(c, onChain, recs, x, o, s) && s.phase.Polling? && s.cursor[0] < |s.log[0]|
    ensures Turning(c, onChain, recs, x, o, Accept(c, s, 0))
  {
    assert s.log[0][s.cursor[0]] == recs[s.cursor[0]];
    hide Turned;
  }

  lemma StopTurns(c: Config, onChain: Option<Bytes>, recs: seq<Record>, x: Bytes, o: nat, s: State)
    requires Turning(c, onChain, recs, x, o, s)
    ensures Turning(c, onChain, recs, x, o, Stop(s))
  {
    hide Turned, NoneBetween, Anchorable;
  }

  lemma StepTurns(c: Config, onChain: Option<Bytes>, recs: seq<Record>, x: Bytes, o: nat, s: State, e: Event)
    requires OneTurn(c, onChain, recs, x, o) && Turning(c, onChain, recs, x, o, s)
    requires Injective(c.blake2) && Honest(c, s.log) && (e.ReadDone? ==> e.ok)
    requires |Step(c, s, e).log| == 1 && Step(c, s, e).log[0] <= recs
    ensures Turning(c, onChain, recs, x, o, Step(c, s, e))
  {
    match e
    case ReadDone(_) => if s.phase.ChainRead? { CompareTurns(c, onChain, recs, x, o, s); }
    case ChainSettles(applied) => SettlingTurns(c, onChain, recs, x, o, s, applied);
    case LimboSettles(i, applied) => if i < |s.limbo| { LimboTurns(c, onChain, recs, x, o, s, i, applied); }
    case CommitDone(ok, landed) => CommitTurns(c, onChain, recs, x, o, s, ok, landed);
    case TopicGrows(log) => if |log| == 1 && s.log[0] <= log[0] { GrowthTurns(c, onChain, recs, x, o, s, log); }
    case Deliver(p) => if s.phase.Polling? && p == 0 && s.cursor[0] < |s.log[0]| { AcceptTurns(c, onChain, recs, x, o, s); }
    case Halt => StopTurns(c, onChain, recs, x, o, s); hide Turned, NoneBetween;
    case Start => StartTurns(c, onChain, recs, x, o, s);
    case Break => BreakTurns(c, onChain, recs, x, o, s);
    case DlqSendDone(ok, landed) => DlqSendTurns(c, onChain, recs, x, o, s, ok, landed);
    case SubmitDone(ok) => SubmitTurns(c, onChain, recs, x, o, s, ok);
  }

  lemma StartTurns(c: Config, onChain: Option<Bytes>, recs: seq<Record>, x: Bytes, o: nat, s: State)
    requires Turning(c, onChain, recs, x, o, s)
    ensures Turning(c, onChain, recs, x, o, Step(c, s, Start))
  {
    hide Turned, Anchorable;
  }

  lemma BreakTurns(c: Config, onChain: Option<Bytes>, recs: seq<Record>, x: Bytes, o: nat, s: State)
    requires Turning(c, onChain, recs, x, o, s)
    ensures Turning(c, onChain, recs, x, o, Step(c, s, Break))
  {
    hide Turned, Anchorable, RecordAt, NoneBetween;
  }

  lemma DlqSendTurns(c: Config, onChain: Option<Bytes>, recs: seq<Record>, x: Bytes, o: nat, s: State, ok: bool, landed: bool)
    requires Turning(c, onChain, recs, x, o, s)
    ensures Turning(c, onChain, recs, x, o, Step(c, s, DlqSendDone(ok, landed)))
  {
    hide Turned, Anchorable, NoneBetween;
  }

  lemma SubmitTurns(c: Config, onChain: Option<Bytes>, recs: seq<Record>, x: Bytes, o: nat, s: State, ok: bool)
    requires Turning(c, onChain, recs, x, o, s)
    ensures Turning(c, onChain, recs, x, o, Step(c, s, SubmitDone(ok)))
  {
    if s.phase.Submitting? && !ok {
      StopTurns(c, onChain, recs, x, o, s.(metrics := s.metrics.(failed := s.metrics.failed + 1)));
    }
    hide Turned, Anchorable, NoneBetween, Stop;
  }

  lemma HonestPrefix(c: Config, log: seq<seq<Record>>, recs: seq<Record>)
    requires |log| == 1 && log[0] <= recs && Honest(c, [recs])
    ensures Honest(c, log)
  {
    assert forall i :: 0 <= i < |log[0]| ==> log[0][i] == [recs][0][i];
  }

  lemma {:induction false} RunTurns(c: Config, log: seq<seq<Record>>, onChain: Option<Bytes>, recs: seq<Record>, x: Bytes, o: nat, es: seq<Event>)
    requires |log| == 1 && OneTurn(c, onChain, recs, x, o) && Injective(c.blake2) && Honest(c, [recs]) && ReadsSucceed(es)
    requires |After(c, log, onChain, es).log| == 1 && After(c, log, onChain, es).log[0] <= recs
    ensures Turning(c, onChain, recs, x, o, After(c, log, onChain, es))
  {
    if es == [] {
      assert log[0] <= recs;
    } else {
      hide Turning, OneTurn, Injective, InLimit, Step, Honest, WellFormed;
      var s := After(c, log, onChain, Front(es));
      NothingIsWritten(c, log, onChain, Front(es));
      StepIsWellFormed(c, s, Last(es));
      assert s.log[0] <= Step(c, s, Last(es)).log[0];
      assert Last(es) in es && forall e <- Front(es) :: e in es;
      RunTurns(c, log, onChain, recs, x, o, Front(es));
      HonestPrefix(c, s.log, recs);
      StepTurns(c, onChain, recs, x, o, s, Last(es));
    }
  }

  /**
   * With submissions that may outlive their process, the history follows the topic in
   * every run with successful reads, for exactly those topics that change the cell at most once.
   */
  lemma UnsettledSubmissionsAreHarmlessOnlyForOneChange(c: Config, onChain: Option<Bytes>, recs: seq<Record>)
    requires Injective(c.blake2) && Honest(c, [recs])
    ensures |Collapse(Expected(c, onChain, recs))| <= 2 <==> forall log: seq<seq<Record>>, es: seq<Event> ::
      |log| == 1 && After(c, log, onChain, es).log == [recs] && ReadsSucceed(es) ==> InOrder(c, log, onChain, es)
  {
    if |Collapse(Expected(c, onChain, recs))| <= 2 {
      var x, o := FindTurn(c, onChain, recs);
      forall log: seq<seq<Record>>, es: seq<Event> | |log| == 1 && After(c, log, onChain, es).log == [recs] && ReadsSucceed(es)
        ensures InOrder(c, log, onChain, es)
      {
        RunTurns(c, log, onChain, recs, x, o, es);
        TurnedCollapses(After(c, log, onChain, es).history, onChain, x);
      }
    } else {
      var k := Overwritten(c, onChain, recs);
      var es := LateSubmissionBreaksOrder(c, onChain, recs, k);
      assert |[recs]| == 1;
    }
  }

  // ---------------------------------------------------------------------------
  // A batch that is published again
  // ---------------------------------------------------------------------------

  lemma {:induction false} CollapsedLength<T>(xs: seq<T>, ys: seq<T>)
    requires xs != [] && ys != []
    ensures |Collapse(xs + ys)| == |Collapse(xs)| + |Collapse(ys)| - (if Last(xs) == ys[0] then 1 else 0)
  {
    var y := Last(ys);
    Snoc(xs, ys);
    if |ys| == 1 {
      assert xs + [] == xs;
      CollapseAppend(xs, y);
      assert ys == [y];
    } else {
      CollapsedLength(xs, Front(ys));
      hide Collapse;
      CollapseAppend(xs + Front(ys), y);
      CollapseAppend(Front(ys), y);
      Snoc([], ys);
      assert [] + Front(ys) == Front(ys) && [] + ys == ys && Last(xs + Front(ys)) == Last(Front(ys));
    }
  }

  /** Anchoring a batch's payloads a second time writes nothing new exactly if they are all the same one. */
  lemma AgainOnlyIfAllTheSame<T>(history: seq<T>, payloads: seq<T>)
    requires history != []
    ensures Collapse(history + payloads + payloads) == Collapse(history + payloads) <==> |Collapse(payloads)| <= 1
  {
    if payloads == [] {
      assert history + payloads + payloads == history + payloads;
    } else {
      CollapsedLength(history + payloads, payloads);
      LastOfCollapse(payloads);
      FirstOfCollapse(payloads);
      CollapsePrefix(history + payloads, payloads);
      hide Collapse;
    }
  }

  /**
   * What was anchored in between vanishes: it repeats the cell's value, and then the first of
   * the values that follow.
   */
  ghost predicate Absorbed<T>(landed: seq<T>, cell: T, next: seq<T>) {
    exists k: nat :: AbsorbedAt(landed, cell, next, k)
  }

  ghost predicate AbsorbedAt<T>(landed: seq<T>, cell: T, next: seq<T>, k: nat) {
    && k <= |landed|
    && (forall i :: 0 <= i < k ==> landed[i] == cell)
    && (k < |landed| ==> |next| > 0 && forall i :: k <= i < |landed| ==> landed[i] == next[0])
  }

  lemma AbsorbedTail<T>(landed: seq<T>, cell: T, next: seq<T>)
    requires landed != []
    requires landed[0] == cell || (|next| > 0 && landed[0] == next[0])
    ensures Absorbed(landed, cell, next) <==> Absorbed(landed[1..], landed[0], next)
  {
    var rest := landed[1..];
    if Absorbed(landed, cell, next) {
      var k: nat :| AbsorbedAt(landed, cell, next, k);
      assert AbsorbedAt(rest, landed[0], next, if k > 0 then k - 1 else 0);
    }
    if Absorbed(rest, landed[0], next) {
      var k: nat :| AbsorbedAt(rest, landed[0], next, k);
      var l := if landed[0] == cell then k + 1 else 0;
      forall i | 0 < i < |landed| ensures landed[i] == rest[i - 1] {}
      assert AbsorbedAt(landed, cell, next, l);
    }
  }

  lemma NotAbsorbed<T>(landed: seq<T>, cell: T, next: seq<T>)
    requires landed != [] && landed[0] != cell && (|next| == 0 || landed[0] != next[0])
    ensures !Absorbed(landed, cell, next)
  {
  }

  /** Anchoring `x` before what follows changes nothing if the cell shows it already, or it comes first anyway. */
  lemma OneAbsorbed<T>(history: seq<T>, x: T, next: seq<T>)
    requires history != [] && (x == Last(history) || (|next| > 0 && x == next[0]))
    ensures Collapse(history + [x] + next) == Collapse(history + next)
  {
    hide Collapse;
    if x == Last(history) {
      CollapseAppend(history, x);
      CollapseBoth(history + [x], history, next);
    } else {
      var shown := history + [x];
      CollapseAppend(shown, x);
      CollapseBoth(shown + [x], shown, next[1..]);
      assert shown + next == shown + [x] + next[1..];
      assert history + next == shown + next[1..];
    }
  }

  /** A value neither shown nor coming next leaves a trace, whatever comes in between. */
  lemma OneMoreStays<T>(history: seq<T>, x: T, between: seq<T>, next: seq<T>)
    requires history != [] && x != Last(history) && (|next| == 0 || x != next[0])
    ensures |Collapse(history + [x] + between + next)| > |Collapse(history + next)|
  {
    hide Collapse;
    var longer := history + [x] + between;
    CollapseAppend(history, x);
    CollapsePrefix(history + [x], between);
    if next == [] {
      assert longer + next == longer && history + next == history;
    } else {
      CollapsedLength(longer, next);
      CollapsedLength(history, next);
      LastOfCollapse(longer);
      LastOfCollapse(history + [x]);
    }
  }

  /**
   * Exactly when values anchored in between vanish from the collapsed history: if they repeat
   * the value before them, and then the first value after them.
   */
  lemma {:induction false} VanishesExactlyIfAbsorbed<T>(history: seq<T>, landed: seq<T>, next: seq<T>)
    requires history != []
    ensures Collapse(history + landed + next) == Collapse(history + next) <==> Absorbed(landed, Last(history), next)
    decreases |landed|
  {
    if landed == [] {
      assert history + landed == history && AbsorbedAt(landed, Last(history), next, 0);
    } else {
      hide Collapse, Absorbed;
      var x := landed[0];
      assert history + landed + next == history + [x] + landed[1..] + next;
      if x == Last(history) || (|next| > 0 && x == next[0]) {
        AbsorbedTail(landed, Last(history), next);
        VanishesExactlyIfAbsorbed(history + [x], landed[1..], next);
        OneAbsorbed(history, x, next);
      } else {
        NotAbsorbed(landed, Last(history), next);
        OneMoreStays(history, x, landed[1..], next);
      }
    }
  }

  lemma {:induction false} FirstOfCollapse<T>(xs: seq<T>)
    requires xs != []
    ensures Collapse(xs) != [] && Collapse(xs)[0] == xs[0]
  {
    if |xs| > 1 {
      FirstOfCollapse(Front(xs));
    }
  }
}
