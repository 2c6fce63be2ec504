/**
 * Which identifiers survive a retry. The identifier is computed for each sub-batch that
 * fitting a batch yields, so what a retry took in changes it only where it changes the cuts.
 */
module BatcherIdentity {
  import opened Common
  import opened PayloadBuilder
  import opened BatchFlushing
  import opened Batcher
  import BatcherCounters
  import BatcherProgress
  import BatcherSafety
  import BatchId

  /** The halving comes to the segment [lo, hi), which fits, and nothing larger on the way does. */
  ghost predicate Reaches(events: seq<Item>, lo: nat, hi: nat, limit: int, codec: Codec<Item>)
    requires lo < hi <= |events|
    decreases |events|
  {
    if Fits(events, limit, codec) then lo == 0 && hi == |events|
    else
      var middle := (|events| + 1) / 2;
      && |events| > 1
      && ((hi <= middle && Reaches(events[..middle], lo, hi, limit, codec))
          || (middle <= lo && Reaches(events[middle..], lo - middle, hi - middle, limit, codec)))
  }

  function SourceOf(it: Item): BatchId.Source {
    BatchId.Source(it.partition, it.offset)
  }

  /** Some fitted batch is made of the source records of `part`, in whatever order. */
  ghost predicate SameSourcesIn(batches: seq<FittedBatch<Item>>, part: seq<Item>) {
    exists b <- batches :: multiset(SourcesOf(b.events)) == multiset(SourcesOf(part))
  }

  lemma SourceIsListed(items: seq<Item>, x: Item)
    requires x in items
    ensures SourceOf(x) in SourcesOf(items)
  {
    var i :| 0 <= i < |items| && items[i] == x;
    assert SourcesOf(items)[i] == SourceOf(x);
  }

  /** A batch drawn from `pool` is not made of the sources of `part` if some item of that has its source elsewhere. */
  lemma ForeignSource(drawn: seq<Item>, pool: seq<Item>, part: seq<Item>, x: Item)
    requires x in part && SourceOf(x) !in SourcesOf(pool) && forall y <- drawn :: y in pool
    ensures multiset(SourcesOf(drawn)) != multiset(SourcesOf(part))
  {
    SourceIsListed(part, x);
    assert SourceOf(x) in multiset(SourcesOf(part));
    if SourceOf(x) in SourcesOf(drawn) {
      var j :| 0 <= j < |drawn| && SourcesOf(drawn)[j] == SourceOf(x);
      assert drawn[j] in drawn;
      SourceIsListed(pool, drawn[j]);
    }
  }

  lemma HalvesAreApart(events: seq<Item>, middle: nat, i: nat)
    requires Distinct(SourcesOf(events)) && middle <= |events| && i < |events|
    ensures i < middle ==> SourceOf(events[i]) !in SourcesOf(events[middle..])
    ensures i >= middle ==> SourceOf(events[i]) !in SourcesOf(events[..middle])
    ensures Distinct(SourcesOf(events[..middle])) && Distinct(SourcesOf(events[middle..]))
  {
    var sources := SourcesOf(events);
    assert SourcesOf(events[..middle]) == sources[..middle] && SourcesOf(events[middle..]) == sources[middle..];
    assert sources[i] == SourceOf(events[i]);
  }

  /** Fitting one half publishes nothing of the sources of a segment that is not wholly in it. */
  lemma NotFromThisHalf(half: seq<Item>, limit: int, codec: Codec<Item>, part: seq<Item>, x: Item)
    requires x in part && SourceOf(x) !in SourcesOf(half)
    ensures !SameSourcesIn(FitBatch(half, limit, codec).batches, part)
  {
    FitBatchKeepsEveryEvent(half, limit, codec);
    forall b <- FitBatch(half, limit, codec).batches ensures multiset(SourcesOf(b.events)) != multiset(SourcesOf(part)) {
      ForeignSource(b.events, half, part, x);
    }
  }

  lemma SameSourcesConcat(a: seq<FittedBatch<Item>>, b: seq<FittedBatch<Item>>, part: seq<Item>)
    ensures SameSourcesIn(a + b, part) <==> SameSourcesIn(a, part) || SameSourcesIn(b, part)
  {
    forall x <- a ensures x in a + b {}
    forall x <- b ensures x in a + b {}
  }

  lemma FittingAsAWhole(events: seq<Item>, lo: nat, hi: nat, limit: int, codec: Codec<Item>)
    requires lo < hi <= |events| && (Fits(events, limit, codec) || |events| == 1)
    ensures SameSourcesIn(FitBatch(events, limit, codec).batches, events[lo..hi]) <==> Reaches(events, lo, hi, limit, codec)
  {
    var part := events[lo..hi];
    if Fits(events, limit, codec) {
      assert FitBatch(events, limit, codec).batches == [Wrap(events, codec)];
      if SameSourcesIn([Wrap(events, codec)], part) {
        assert |multiset(SourcesOf(events))| == |events| && |multiset(SourcesOf(part))| == hi - lo;
      }
      if lo == 0 && hi == |events| {
        assert part == events && Wrap(events, codec) in [Wrap(events, codec)];
      }
    }
  }

  lemma FitOfHalves(events: seq<Item>, limit: int, codec: Codec<Item>)
    requires |events| > 1 && !Fits(events, limit, codec)
    ensures var middle := (|events| + 1) / 2;
      FitBatch(events, limit, codec).batches
        == FitBatch(events[..middle], limit, codec).batches + FitBatch(events[middle..], limit, codec).batches
  {
  }

  lemma EndsAreInside<T>(xs: seq<T>, lo: nat, hi: nat)
    requires lo < hi <= |xs|
    ensures xs[lo] in xs[lo..hi] && xs[hi - 1] in xs[lo..hi]
  {
    assert xs[lo..hi][0] == xs[lo] && xs[lo..hi][hi - 1 - lo] == xs[hi - 1];
  }

  lemma NotFromTheOtherHalf(events: seq<Item>, middle: nat, lo: nat, hi: nat, limit: int, codec: Codec<Item>)
    requires Distinct(SourcesOf(events)) && lo < hi <= |events| && middle <= |events|
    ensures lo < middle ==> !SameSourcesIn(FitBatch(events[middle..], limit, codec).batches, events[lo..hi])
    ensures middle < hi ==> !SameSourcesIn(FitBatch(events[..middle], limit, codec).batches, events[lo..hi])
  {
    HalvesAreApart(events, middle, lo);
    HalvesAreApart(events, middle, hi - 1);
    EndsAreInside(events, lo, hi);
    hide FitBatch, Distinct, SameSourcesIn, SourcesOf;
    if lo < middle {
      NotFromThisHalf(events[middle..], limit, codec, events[lo..hi], events[lo]);
    }
    if middle < hi {
      NotFromThisHalf(events[..middle], limit, codec, events[lo..hi], events[hi - 1]);
    }
  }

  /** What of a segment the two halves publish: nothing if it straddles the cut. */
  lemma PublishedByOneHalf(events: seq<Item>, lo: nat, hi: nat, limit: int, codec: Codec<Item>)
    requires Distinct(SourcesOf(events)) && lo < hi <= |events| && |events| > 1 && !Fits(events, limit, codec)
    ensures var middle, part := (|events| + 1) / 2, events[lo..hi];
      SameSourcesIn(FitBatch(events, limit, codec).batches, part)
      <==>
      || (hi <= middle && SameSourcesIn(FitBatch(events[..middle], limit, codec).batches, part))
      || (middle <= lo && SameSourcesIn(FitBatch(events[middle..], limit, codec).batches, part))
  {
    FitOfHalves(events, limit, codec);
    hide FitBatch, Distinct, Fits, SameSourcesIn, SourcesOf;
    var middle := (|events| + 1) / 2;
    NotFromTheOtherHalf(events, middle, lo, hi, limit, codec);
    SameSourcesConcat(FitBatch(events[..middle], limit, codec).batches, FitBatch(events[middle..], limit, codec).batches, events[lo..hi]);
  }

  lemma SegmentOfAHalf<T>(xs: seq<T>, middle: nat, lo: nat, hi: nat)
    requires lo <= hi <= |xs| && middle <= |xs|
    ensures hi <= middle ==> xs[..middle][lo..hi] == xs[lo..hi]
    ensures middle <= lo ==> xs[middle..][lo - middle..hi - middle] == xs[lo..hi]
  {
  }

  /** A fit publishes the sources of a segment as one batch exactly if the halving comes to that very segment. */
  lemma {:induction false} SegmentIsPublishedExactly(events: seq<Item>, lo: nat, hi: nat, limit: int, codec: Codec<Item>)
    requires Distinct(SourcesOf(events)) && lo < hi <= |events|
    ensures SameSourcesIn(FitBatch(events, limit, codec).batches, events[lo..hi]) <==> Reaches(events, lo, hi, limit, codec)
    decreases |events|
  {
    hide FitBatch, SameSourcesIn, Distinct, Fits, SourcesOf;
    if Fits(events, limit, codec) || |events| == 1 {
      FittingAsAWhole(events, lo, hi, limit, codec);
    } else {
      var middle := (|events| + 1) / 2;
      PublishedByOneHalf(events, lo, hi, limit, codec);
      SegmentOfAHalf(events, middle, lo, hi);
      HalvesAreApart(events, middle, lo);
      if hi <= middle {
        SegmentIsPublishedExactly(events[..middle], lo, hi, limit, codec);
      } else if middle <= lo {
        SegmentIsPublishedExactly(events[middle..], lo - middle, hi - middle, limit, codec);
      }
    }
  }

  /** A segment that the halving comes to is published as it is. */
  lemma {:induction false} ReachedSegmentIsWrapped(events: seq<Item>, lo: nat, hi: nat, limit: int, codec: Codec<Item>)
    requires lo < hi <= |events| && Reaches(events, lo, hi, limit, codec)
    ensures Wrap(events[lo..hi], codec) in FitBatch(events, limit, codec).batches
    decreases |events|
  {
    var middle := (|events| + 1) / 2;
    if Fits(events, limit, codec) {
      assert events[lo..hi] == events && FitBatch(events, limit, codec).batches == [Wrap(events, codec)];
    } else if hi <= middle {
      ReachedSegmentIsWrapped(events[..middle], lo, hi, limit, codec);
      SegmentOfAHalf(events, middle, lo, hi);
    } else {
      ReachedSegmentIsWrapped(events[middle..], lo - middle, hi - middle, limit, codec);
      SegmentOfAHalf(events, middle, lo, hi);
    }
    hide Fits, Wrap;
  }

  /** Conversely, whatever a fit publishes is such a segment. */
  lemma {:induction false} FittedIsReached(events: seq<Item>, limit: int, codec: Codec<Item>, b: FittedBatch<Item>) returns (lo: nat, hi: nat)
    requires b in FitBatch(events, limit, codec).batches
    ensures lo < hi <= |events| && Reaches(events, lo, hi, limit, codec) && b == Wrap(events[lo..hi], codec)
    decreases |events|
  {
    hide Fits, Wrap;
    var middle := (|events| + 1) / 2;
    if Fits(events, limit, codec) || |events| <= 1 {
      lo, hi := 0, |events|;
      assert events[0..|events|] == events;
    } else {
      FitOfHalves(events, limit, codec);
      hide FitBatch;
      if b in FitBatch(events[..middle], limit, codec).batches {
        lo, hi := FittedIsReached(events[..middle], limit, codec, b);
        SegmentOfAHalf(events, middle, lo, hi);
      } else {
        var l, h := FittedIsReached(events[middle..], limit, codec, b);
        lo, hi := l + middle, h + middle;
        SegmentOfAHalf(events, middle, lo, hi);
      }
    }
  }

  // ---------------------------------------------------------------------------
  // Identifiers
  // ---------------------------------------------------------------------------

  ghost predicate IdIsAmong(messages: seq<BatchedMessage>, batchId: string) {
    exists m <- messages :: m.batchId == batchId
  }

  lemma IdsAreSources(c: Config, batches: seq<FittedBatch<Item>>, part: seq<Item>)
    requires Injective(c.sha256)
    ensures IdIsAmong(ToMessages(c, batches), BatchId.ComputeBatchId(SourcesOf(part), c.sha256)) <==> SameSourcesIn(batches, part)
  {
    var messages, batchId := ToMessages(c, batches), BatchId.ComputeBatchId(SourcesOf(part), c.sha256);
    hide BatchId.ComputeBatchId;
    if IdIsAmong(messages, batchId) {
      var i :| 0 <= i < |messages| && messages[i].batchId == batchId;
      BatchId.BatchIdIdentifiesSources(SourcesOf(batches[i].events), SourcesOf(part), c.sha256);
      assert batches[i] in batches;
    }
    if SameSourcesIn(batches, part) {
      var i :| 0 <= i < |batches| && multiset(SourcesOf(batches[i].events)) == multiset(SourcesOf(part));
      BatchId.BatchIdIdentifiesSources(SourcesOf(batches[i].events), SourcesOf(part), c.sha256);
      assert messages[i] in messages && messages[i].batchId == batchId;
    }
  }

  /** The valid items of a process stem from distinct records. */
  ghost predicate Once(items: seq<Item>) {
    Distinct(SourcesOf(ValidOf(items)))
  }

  lemma OnceAppend(before: seq<Item>, items: seq<Item>)
    requires Distinct(SourcesOf(before)) && |items| <= 1
    requires items != [] ==> SourceOf(items[0]) !in SourcesOf(before)
    ensures Distinct(SourcesOf(before + items))
  {
    assert SourcesOf(before + items) == SourcesOf(before) + SourcesOf(items);
  }

  /** A record that is only now read has another offset than all that were added. */
  lemma NewSource(c: Config, d: Data, p: nat, it: Item)
    requires BatcherSafety.Sizes(d) && BatcherSafety.ItemsKnown(d) && p < |d.log|
    requires it.partition == p && it.offset == d.cursor[p] + 1
    ensures SourceOf(it) !in SourcesOf(ValidOf(d.flusher.added))
  {
    var valid := ValidOf(d.flusher.added);
    BatcherSafety.ValidOrPoison(d.flusher.added);
    forall i | 0 <= i < |valid| ensures SourcesOf(valid)[i] != SourceOf(it) {
      assert valid[i] in d.flusher.added;
    }
    hide ValidOf;
  }

  /** Reading a record adds at most one valid item, from a source not seen before. */
  lemma NewItem(c: Config, d: Data, p: nat)
    requires BatcherSafety.Sizes(d) && BatcherSafety.ItemsKnown(d) && p < |d.log| && d.cursor[p] < |d.log[p]|
    ensures var valid := ValidOf(ItemsOf(c, d.log[p][d.cursor[p]], p, d.cursor[p]));
      |valid| <= 1 && (valid != [] ==> SourceOf(valid[0]) !in SourcesOf(ValidOf(d.flusher.added)))
  {
    var o := d.cursor[p];
    var items := ItemsOf(c, d.log[p][o], p, o);
    BatcherSafety.ItemsStandForTheRecord(c, d.log, p, o);
    BatcherCounters.OneValidItem(c, d.log[p][o], p, o);
    hide ItemsOf, ValidOf, SourcesOf, BatcherSafety.Sizes, BatcherSafety.ItemsKnown, BatcherSafety.ItemOf;
    BatcherSafety.ValidOrPoison(items);
    if ValidOf(items) != [] {
      assert ValidOf(items)[0] in items;
      NewSource(c, d, p, ValidOf(items)[0]);
    }
  }

  lemma OnceMore(c: Config, d: Data, p: nat)
    requires BatcherSafety.Inv(c, d) && Once(d.flusher.added)
    requires p < |d.cursor| == |d.log| && d.cursor[p] < |d.log[p]|
    ensures Once(Receive(c, d, p).flusher.added)
  {
    hide ItemsOf, AddAll, ValidOf, Distinct, SourcesOf;
    var items := ItemsOf(c, d.log[p][d.cursor[p]], p, d.cursor[p]);
    NewItem(c, d, p);
    hide BatcherSafety.Inv;
    BatcherCounters.AddAllAdds(d.flusher, items);
    BatcherCounters.ValidOfConcat(d.flusher.added, items);
    OnceAppend(ValidOf(d.flusher.added), ValidOf(items));
  }

  lemma SettlingAddsNothing(s: State, ok: bool)
    ensures SettleAndResume(s, ok).data.flusher.added == s.data.flusher.added
  {
  }

  lemma FailingAddsNothing(s: State)
    ensures ProduceFails(s).data.flusher.added == s.data.flusher.added
  {
    var m := s.control.metrics;
    SettlingAddsNothing(s.(control := s.control.(metrics := m.(produceFailure := m.produceFailure + 1))), false);
    hide SettleAndResume;
  }

  lemma AnswersAddNothing(c: Config, s: State, e: Event)
    requires BatcherProgress.HandlerEvent(e)
    ensures Step(c, s, e).data.flusher.added == s.data.flusher.added
  {
    hide SettleAndResume, ProduceFails, Delivered, ToDlqAll, PoisonOf, ValidOf, Fitting, Place, ToMessages, Events, CommitInto, SumEvents;
    match e
    case DlqSendDone(ok, landed) =>
      SettlingAddsNothing(s.(data := s.data.(dlq := s.data.dlq + landed)), false);
      FailingAddsNothing(s.(data := s.data.(dlq := s.data.dlq + landed)));
    case FitDone(ok) => FailingAddsNothing(s);
    case BatchedSendDone(ok, placed) =>
      if forall pl <- placed :: pl.partition < |s.data.batched| {
        FailingAddsNothing(s.(data := s.data.(batched := Place(s.data.batched, placed))));
      }
    case CommitDone(ok, partitions) =>
      SettlingAddsNothing(s.(data := s.data.(committed := CommitInto(s.data.committed, s.data.flusher.Flying(), partitions))), ok);
    case _ =>
  }

  lemma AddedStays(c: Config, s: State, e: Event)
    requires !e.Deliver? && !e.Crash?
    ensures Step(c, s, e).data.flusher.added == s.data.flusher.added
  {
    if BatcherProgress.HandlerEvent(e) {
      AnswersAddNothing(c, s, e);
    } else {
      hide DlqSent, FitReturned, BatchedSent, CommitReturned, Grows;
    }
  }

  lemma DeliveryAdds(c: Config, s: State, p: nat)
    ensures var f := Step(c, s, Deliver(p)).data.flusher;
      f.added == s.data.flusher.added
      || (p < |s.data.cursor| == |s.data.log| && s.data.cursor[p] < |s.data.log[p]| && f.added == Receive(c, s.data, p).flusher.added)
  {
    hide Receive;
  }

  lemma {:induction false} AddedOnce(c: Config, log: seq<seq<Record>>, batchedPartitions: nat, es: seq<Event>)
    ensures Once(After(c, log, batchedPartitions, es).data.flusher.added)
  {
    if es != [] {
      AddedOnce(c, log, batchedPartitions, Front(es));
      var s := After(c, log, batchedPartitions, Front(es));
      BatcherSafety.RunIsGood(c, log, batchedPartitions, Front(es));
      hide Step, Receive, Once, BatcherSafety.Inv, BatcherSafety.LoopInv;
      match Last(es)
      case Deliver(p) =>
        DeliveryAdds(c, s, p);
        if p < |s.data.cursor| == |s.data.log| && s.data.cursor[p] < |s.data.log[p]| {
          OnceMore(c, s.data, p);
        }
      case Crash => NothingAdded(c, s);
      case _ => AddedStays(c, s, Last(es));
    } else {
      assert SourcesOf(ValidOf([])) == [];
    }
  }

  lemma NothingAdded(c: Config, s: State)
    ensures Once(Step(c, s, Crash).data.flusher.added)
  {
    assert SourcesOf(ValidOf([])) == [];
  }

  lemma MiddleIsDistinct(before: seq<Item>, items: seq<Item>, rest: seq<Item>)
    requires Distinct(SourcesOf(before + (items + rest)))
    ensures Distinct(SourcesOf(items))
  {
    var all := SourcesOf(before + (items + rest));
    forall i, j | 0 <= i < j < |items| ensures SourcesOf(items)[i] != SourcesOf(items)[j] {
      assert all[|before| + i] == SourcesOf(items)[i] && all[|before| + j] == SourcesOf(items)[j];
    }
  }

  lemma BufferedOnce(c: Config, log: seq<seq<Record>>, batchedPartitions: nat, es: seq<Event>, items: seq<Item>)
    requires var f := After(c, log, batchedPartitions, es).data.flusher; items <= f.Flying() + f.pending
    ensures Once(items)
  {
    hide After, Distinct, SourcesOf, ValidOf;
    var f := After(c, log, batchedPartitions, es).data.flusher;
    AddedOnce(c, log, batchedPartitions, es);
    BatcherSafety.BufferIsConserved(c, log, batchedPartitions, es);
    var rest := (f.Flying() + f.pending)[|items|..];
    assert f.Flying() + f.pending == items + rest;
    assert f.added == f.handled + (items + rest);
    BatcherCounters.ValidOfConcat(f.handled, items + rest);
    BatcherCounters.ValidOfConcat(items, rest);
    MiddleIsDistinct(ValidOf(f.handled), ValidOf(items), ValidOf(rest));
  }

  // ---------------------------------------------------------------------------
  // Main results
  // ---------------------------------------------------------------------------

  /** The buffer of a reachable state begins with `batch` and the items that came after it. */
  ghost predicate Retried(c: Config, log: seq<seq<Record>>, batchedPartitions: nat, es: seq<Event>, batch: seq<Item>, more: seq<Item>) {
    var f := After(c, log, batchedPartitions, es).data.flusher;
    batch + more <= f.Flying() + f.pending
  }

  /**
   * In any reachable state: a message that a batch yields has its identifier among those that
   * the batch yields together with later items exactly if the halving of all their valid items
   * comes to the same segment; then the message itself is repeated.
   */
  lemma IdSurvivesTheRetryExactly(
      c: Config, log: seq<seq<Record>>, batchedPartitions: nat, es: seq<Event>, batch: seq<Item>, more: seq<Item>, m: BatchedMessage)
    returns (lo: nat, hi: nat)
    requires Injective(c.sha256) && Retried(c, log, batchedPartitions, es, batch, more)
    requires m in ToMessages(c, Fitting(c, batch).batches)
    ensures var valid, retried := ValidOf(batch), ToMessages(c, Fitting(c, batch + more).batches);
      && lo < hi <= |valid| && m == ToMessage(c, Wrap(valid[lo..hi], ItemCodec(c)))
      && Reaches(valid, lo, hi, c.maxPayloadBytes, ItemCodec(c))
      && (IdIsAmong(retried, m.batchId) <==> Reaches(valid + ValidOf(more), lo, hi, c.maxPayloadBytes, ItemCodec(c)))
      && (IdIsAmong(retried, m.batchId) ==> m in retried)
  {
    hide After, Reaches, Fits, Wrap;
    var valid, fitted := ValidOf(batch), Fitting(c, batch).batches;
    var i :| 0 <= i < |fitted| && ToMessages(c, fitted)[i] == m;
    lo, hi := FittedIsReached(valid, c.maxPayloadBytes, ItemCodec(c), fitted[i]);
    BufferedOnce(c, log, batchedPartitions, es, batch + more);
    BatcherCounters.ValidOfConcat(batch, more);
    assert (valid + ValidOf(more))[lo..hi] == valid[lo..hi];
    KeptIfReached(c, valid + ValidOf(more), lo, hi);
    hide ToMessages, FitBatch, ValidOf, Distinct, BatchId.ComputeBatchId;
  }

  lemma KeptIfReached(c: Config, events: seq<Item>, lo: nat, hi: nat)
    requires Injective(c.sha256) && Distinct(SourcesOf(events)) && lo < hi <= |events|
    ensures var messages := ToMessages(c, FitBatch(events, c.maxPayloadBytes, ItemCodec(c)).batches);
      var m := ToMessage(c, Wrap(events[lo..hi], ItemCodec(c)));
      && (IdIsAmong(messages, m.batchId) <==> Reaches(events, lo, hi, c.maxPayloadBytes, ItemCodec(c)))
      && (IdIsAmong(messages, m.batchId) ==> m in messages)
  {
    var batches := FitBatch(events, c.maxPayloadBytes, ItemCodec(c)).batches;
    var part := events[lo..hi];
    hide FitBatch, Reaches, Distinct, BatchId.ComputeBatchId, IdIsAmong, SameSourcesIn;
    SegmentIsPublishedExactly(events, lo, hi, c.maxPayloadBytes, ItemCodec(c));
    IdsAreSources(c, batches, part);
    if Reaches(events, lo, hi, c.maxPayloadBytes, ItemCodec(c)) {
      ReachedSegmentIsWrapped(events, lo, hi, c.maxPayloadBytes, ItemCodec(c));
      var i :| 0 <= i < |batches| && batches[i] == Wrap(part, ItemCodec(c));
      assert ToMessages(c, batches)[i] == ToMessage(c, Wrap(part, ItemCodec(c)));
    }
  }

  /** Repeated halving of the front comes to a prefix of `n` events, and no longer prefix on the way fits. */
  ghost predicate HalvesDownTo(events: seq<Item>, n: nat, limit: int, codec: Codec<Item>)
    decreases |events|
  {
    || |events| == n
    || (|events| > n && |events| > 1 && !Fits(events, limit, codec)
        && HalvesDownTo(events[..(|events| + 1) / 2], n, limit, codec))
  }

  lemma {:induction false} FrontIsReached(events: seq<Item>, n: nat, limit: int, codec: Codec<Item>)
    requires 1 <= n <= |events| && Fits(events[..n], limit, codec)
    ensures Reaches(events, 0, n, limit, codec) <==> HalvesDownTo(events, n, limit, codec)
    decreases |events|
  {
    if n == |events| {
      assert events[..n] == events;
    } else {
      var middle := (|events| + 1) / 2;
      if n <= middle {
        assert events[..middle][..n] == events[..n];
        FrontIsReached(events[..middle], n, limit, codec);
      }
      hide Fits;
    }
  }

  /** A batch that fits whole keeps its one identifier exactly if the front of the merged batch is halved down to it. */
  lemma WholeBatchKeepsItsIdExactly(
      c: Config, log: seq<seq<Record>>, batchedPartitions: nat, es: seq<Event>, batch: seq<Item>, more: seq<Item>)
    requires Injective(c.sha256) && Retried(c, log, batchedPartitions, es, batch, more)
    requires ValidOf(batch) != [] && Fits(ValidOf(batch), c.maxPayloadBytes, ItemCodec(c))
    ensures var valid, retried := ValidOf(batch), ToMessages(c, Fitting(c, batch + more).batches);
      IdIsAmong(retried, BatchId.ComputeBatchId(SourcesOf(valid), c.sha256))
      <==> HalvesDownTo(valid + ValidOf(more), |valid|, c.maxPayloadBytes, ItemCodec(c))
  {
    hide After, Reaches, HalvesDownTo;
    var valid := ValidOf(batch);
    var all := valid + ValidOf(more);
    BufferedOnce(c, log, batchedPartitions, es, batch + more);
    BatcherCounters.ValidOfConcat(batch, more);
    assert all[0..|valid|] == valid && all[..|valid|] == valid;
    KeptIfReached(c, all, 0, |valid|);
    FrontIsReached(all, |valid|, c.maxPayloadBytes, ItemCodec(c));
    hide ToMessages, FitBatch, ValidOf, Distinct, BatchId.ComputeBatchId, Fits, IdIsAmong;
  }

  /** So it may keep it although valid items came: when one item came to another and the two do not fit together. */
  lemma IdSurvivesASplit(c: Config, x: Item, y: Item)
    requires x.kind.Valid? && y.kind.Valid?
    requires Fits([x], c.maxPayloadBytes, ItemCodec(c)) && !Fits([x, y], c.maxPayloadBytes, ItemCodec(c))
    ensures var first, retried := ToMessages(c, Fitting(c, [x]).batches), ToMessages(c, Fitting(c, [x] + [y]).batches);
      && |first| == 1 && first <= retried
      && (!Fits([y], c.maxPayloadBytes, ItemCodec(c)) ==> retried == first)
  {
    assert Front([x]) == [] && Front([y]) == [] && ValidOf([x]) == [x] && ValidOf([y]) == [y];
    BatcherCounters.ValidOfConcat([x], [y]);
    assert [x] + [y] == [x, y] && [x, y][..1] == [x] && [x, y][1..] == [y];
    hide ValidOf;
    assert FitBatch([x], c.maxPayloadBytes, ItemCodec(c)).batches == [Wrap([x], ItemCodec(c))];
    hide Fits;
    var first, second := [x, y][..1], [x, y][1..];
    assert FitBatch([x, y], c.maxPayloadBytes, ItemCodec(c)).batches
      == FitBatch(first, c.maxPayloadBytes, ItemCodec(c)).batches + FitBatch(second, c.maxPayloadBytes, ItemCodec(c)).batches;
  }
}
