/**
 * A record whose sensor id does not format: it is never handled, and its partition is
 * never committed past it.
 */
module BatcherPinned {
  import opened Common
  import opened PayloadBuilder
  import opened BatchFlushing
  import opened Batcher
  import opened BatcherProgress
  import BatcherCounters
  import BatcherSafety

  /** Past the poison records a batch has only sensor ids that format, and so has everything handled. */
  ghost predicate Formatted(c: Config, d: Data) {
    && Formats(c, d.flusher.handled)
    && (d.handler.NoHandler? <==> d.flusher.inFlight.None?)
    && (!d.handler.NoHandler? && !d.handler.PoisonSend? ==> Formats(c, d.flusher.Flying()))
  }

  lemma SettleFormatted(c: Config, s: State, ok: bool)
    requires Formatted(c, s.data) && !s.data.handler.NoHandler? && (ok ==> !s.data.handler.PoisonSend?)
    ensures Formatted(c, SettleAndResume(s, ok).data)
  {
    BatcherCounters.ValidOfConcat(s.data.flusher.handled, s.data.flusher.Flying());
    assert Formatted(c, Settle(s.data, ok));
    hide ValidOf, Settle;
  }

  lemma ProduceFailsFormatted(c: Config, s: State)
    requires Formatted(c, s.data) && !s.data.handler.NoHandler?
    ensures Formatted(c, ProduceFails(s).data)
  {
    var m := s.control.metrics;
    SettleFormatted(c, s.(control := s.control.(metrics := m.(produceFailure := m.produceFailure + 1))), false);
    hide SettleAndResume;
  }

  lemma DlqSendFormatted(c: Config, s: State, ok: bool, landed: seq<DlqMessage>)
    requires Formatted(c, s.data)
    ensures Formatted(c, DlqSent(c, s, ok, landed).data)
  {
    if !s.data.handler.NoHandler? {
      SettleFormatted(c, s.(data := s.data.(dlq := s.data.dlq + landed)), false);
      ProduceFailsFormatted(c, s.(data := s.data.(dlq := s.data.dlq + landed)));
    }
    hide SettleAndResume, ProduceFails, Delivered, Fitting, ToDlqAll, PoisonOf, ValidOf;
  }

  lemma FitFormatted(c: Config, s: State, ok: bool)
    requires Formatted(c, s.data)
    ensures Formatted(c, FitReturned(c, s, ok).data)
  {
    hide ProduceFails, Fitting, ValidOf;
    if s.data.handler.Fit? {
      ProduceFailsFormatted(c, s);
    }
  }

  lemma BatchedSendFormatted(c: Config, s: State, ok: bool, placed: seq<Placed>)
    requires Formatted(c, s.data)
    ensures Formatted(c, BatchedSent(c, s, ok, placed).data)
  {
    hide ProduceFails, Fitting, ValidOf, ToMessages, Place, SumEvents;
    if BatchedSent(c, s, ok, placed) != s && !ok {
      ProduceFailsFormatted(c, s.(data := s.data.(batched := Place(s.data.batched, placed))));
    }
  }

  lemma CommitFormatted(c: Config, s: State, ok: bool, partitions: set<nat>)
    requires Formatted(c, s.data)
    ensures Formatted(c, CommitReturned(s, ok, partitions).data)
  {
    hide SettleAndResume, CommitInto, ValidOf;
    if s.data.handler.CommitOffsets? {
      SettleFormatted(c, s.(data := s.data.(committed := CommitInto(s.data.committed, s.data.flusher.Flying(), partitions))), ok);
    }
  }

  lemma ConsumeFormatted(c: Config, s: State, p: nat)
    requires Formatted(c, s.data)
    requires p < |s.data.cursor| == |s.data.log| && s.data.cursor[p] < |s.data.log[p]|
    ensures Formatted(c, Consume(c, s, p).data)
  {
    BatcherCounters.AddAllAdds(s.data.flusher, ItemsOf(c, s.data.log[p][s.data.cursor[p]], p, s.data.cursor[p]));
    hide ItemsOf, AddAll, ValidOf;
  }

  lemma StepFormatted(c: Config, s: State, e: Event)
    requires Formatted(c, s.data)
    ensures Formatted(c, Step(c, s, e).data)
  {
    hide DlqSent, FitReturned, BatchedSent, CommitReturned, Consume;
    match e
    case DlqSendDone(ok, landed) => DlqSendFormatted(c, s, ok, landed);
    case FitDone(ok) => FitFormatted(c, s, ok);
    case BatchedSendDone(ok, placed) => BatchedSendFormatted(c, s, ok, placed);
    case CommitDone(ok, partitions) => CommitFormatted(c, s, ok, partitions);
    case Deliver(p) =>
      if p < |s.data.cursor| == |s.data.log| && s.data.cursor[p] < |s.data.log[p]| {
        ConsumeFormatted(c, s, p);
      }
    case _ =>
  }

  /**
   * Conversely, a batch with a valid record whose sensor id does not format is never
   * handled, by any schedule: it is retried as long as the process lives.
   */
  lemma {:induction false} UnformattableIsNeverHandled(c: Config, log: seq<seq<Record>>, batchedPartitions: nat, es: seq<Event>)
    ensures Formatted(c, After(c, log, batchedPartitions, es).data)
  {
    if es != [] {
      UnformattableIsNeverHandled(c, log, batchedPartitions, Front(es));
      StepFormatted(c, After(c, log, batchedPartitions, Front(es)), Last(es));
    }
  }

  // ---------------------------------------------------------------------------
  // The partition is pinned
  // ---------------------------------------------------------------------------

  /** The valid item that the authorized record at this position adds. */
  function ValidItem(r: Record, p: nat, offset: nat): Item
    requires r.Authorized?
  {
    Item(Valid(r.envelope, r.sensorId), p, offset, r.raw)
  }

  predicate AuthorizedAt(log: seq<seq<Record>>, p: nat, o: nat) {
    p < |log| && o < |log[p]| && log[p][o].Authorized?
  }

  /** If the item stands for an authorized record, that record's valid item is among the given ones. */
  ghost predicate HasValid(log: seq<seq<Record>>, it: Item, among: seq<Item>) {
    it.offset > 0 && AuthorizedAt(log, it.partition, it.offset - 1) ==>
      ValidItem(log[it.partition][it.offset - 1], it.partition, it.offset) in among
  }

  /** Each item of an authorized record comes with or after that record's valid item. */
  ghost predicate ValidFirst(log: seq<seq<Record>>, items: seq<Item>) {
    forall j :: 0 <= j < |items| ==> HasValid(log, items[j], items[..j + 1])
  }

  lemma ItemsShape(c: Config, r: Record, p: nat, o: nat)
    ensures forall it <- ItemsOf(c, r, p, o) :: it.partition == p && it.offset == o + 1
    ensures r.Authorized? ==> ItemsOf(c, r, p, o) != [] && ItemsOf(c, r, p, o)[0] == ValidItem(r, p, o + 1)
  {
  }

  lemma ValidFirstAppends(log: seq<seq<Record>>, items: seq<Item>, c: Config, p: nat, o: nat)
    requires ValidFirst(log, items) && p < |log| && o < |log[p]|
    ensures ValidFirst(log, items + ItemsOf(c, log[p][o], p, o))
  {
    hide ItemsOf;
    ItemsShape(c, log[p][o], p, o);
    var more := ItemsOf(c, log[p][o], p, o);
    var all := items + more;
    forall j | 0 <= j < |all| ensures HasValid(log, all[j], all[..j + 1]) {
      if j < |items| {
        assert all[..j + 1] == items[..j + 1] && all[j] == items[j];
      } else {
        assert all[j] in more;
        if log[p][o].Authorized? {
          assert all[..j + 1][|items|] == more[0];
        }
      }
    }
  }

  lemma ValidFirstOnPrefix(log: seq<seq<Record>>, seen: seq<Item>, rest: seq<Item>)
    requires ValidFirst(log, seen + rest)
    ensures ValidFirst(log, seen)
  {
    forall j | 0 <= j < |seen| ensures HasValid(log, seen[j], seen[..j + 1]) {
      assert (seen + rest)[j] == seen[j] && (seen + rest)[..j + 1] == seen[..j + 1];
    }
  }

  /** Added items do not change their records as the topic grows. */
  lemma ValidFirstSurvivesGrowth(log: seq<seq<Record>>, log1: seq<seq<Record>>, items: seq<Item>)
    requires ValidFirst(log, items) && Grows(log, log1)
    requires forall it <- items :: BatcherSafety.ItemOf(log, it)
    ensures ValidFirst(log1, items)
  {
    forall j | 0 <= j < |items| ensures HasValid(log1, items[j], items[..j + 1]) {
      var it := items[j];
      assert HasValid(log, it, items[..j + 1]) && BatcherSafety.ItemOf(log, it);
      assert log[it.partition] <= log1[it.partition];
    }
  }

  lemma SettlingAddsNothing(s: State, ok: bool)
    ensures var d1 := SettleAndResume(s, ok).data;
      d1.flusher.added == s.data.flusher.added && d1.log == s.data.log && d1.committed == s.data.committed
  {
  }

  lemma ProduceFailsAddsNothing(s: State)
    ensures var d1 := ProduceFails(s).data;
      d1.flusher.added == s.data.flusher.added && d1.log == s.data.log && d1.committed == s.data.committed
  {
    var m := s.control.metrics;
    SettlingAddsNothing(s.(control := s.control.(metrics := m.(produceFailure := m.produceFailure + 1))), false);
    hide SettleAndResume;
  }

  lemma BatchedSendAddsNothing(c: Config, s: State, ok: bool, placed: seq<Placed>)
    ensures var d1 := BatchedSent(c, s, ok, placed).data;
      d1.flusher.added == s.data.flusher.added && d1.log == s.data.log && d1.committed == s.data.committed
  {
    hide ProduceFails, Fitting, ToMessages, Place, SumEvents;
    if BatchedSent(c, s, ok, placed) != s {
      ProduceFailsAddsNothing(s.(data := s.data.(batched := Place(s.data.batched, placed))));
    }
  }

  /** The handler adds nothing to the buffer, and only its commit changes the committed offsets. */
  lemma HandlerAddsNothing(c: Config, s: State, e: Event)
    requires HandlerEvent(e)
    ensures var d1 := Step(c, s, e).data;
      && d1.flusher.added == s.data.flusher.added && d1.log == s.data.log
      && (d1.committed == s.data.committed
          || (e.CommitDone? && s.data.handler.CommitOffsets? && d1.committed == CommitInto(s.data.committed, s.data.flusher.Flying(), e.partitions)))
  {
    hide SettleAndResume, ProduceFails, Delivered, ToDlqAll, PoisonOf, Fitting, BatchedSent, ToMessages, Events, CommitInto, ValidOf, SumEvents;
    match e
    case DlqSendDone(ok, landed) =>
      SettlingAddsNothing(s.(data := s.data.(dlq := s.data.dlq + landed)), false);
      ProduceFailsAddsNothing(s.(data := s.data.(dlq := s.data.dlq + landed)));
    case FitDone(_) => ProduceFailsAddsNothing(s);
    case BatchedSendDone(ok, placed) => BatchedSendAddsNothing(c, s, ok, placed);
    case CommitDone(ok, partitions) =>
      SettlingAddsNothing(s.(data := s.data.(committed := CommitInto(s.data.committed, s.data.flusher.Flying(), partitions))), ok);
    case _ =>
  }

  /** A delivered record adds its items; nothing else does, and a crash forgets them. */
  lemma LoopAdds(c: Config, s: State, e: Event)
    requires !HandlerEvent(e) && |s.data.cursor| == |s.data.log|
    ensures var d1 := Step(c, s, e).data;
      && d1.committed == s.data.committed
      && (d1.log == s.data.log || (e.TopicGrows? && Grows(s.data.log, d1.log)))
      && (|| d1.flusher.added == s.data.flusher.added
          || d1.flusher.added == []
          || (e.Deliver? && e.partition < |s.data.log| && s.data.cursor[e.partition] < |s.data.log[e.partition]| && d1.log == s.data.log
              && d1.flusher.added == s.data.flusher.added
                   + ItemsOf(c, s.data.log[e.partition][s.data.cursor[e.partition]], e.partition, s.data.cursor[e.partition])))
  {
    if e.Deliver? && e.partition < |s.data.log| && s.data.cursor[e.partition] < |s.data.log[e.partition]| {
      var o := s.data.cursor[e.partition];
      BatcherCounters.AddAllAdds(s.data.flusher, ItemsOf(c, s.data.log[e.partition][o], e.partition, o));
    }
    hide ItemsOf, AddAll, Grows;
  }

  lemma StepKeepsValidFirst(c: Config, s: State, e: Event)
    requires BatcherSafety.Inv(c, s.data) && ValidFirst(s.data.log, s.data.flusher.added)
    ensures ValidFirst(Step(c, s, e).data.log, Step(c, s, e).data.flusher.added)
  {
    var d := s.data;
    assert |d.cursor| == |d.log| && forall it <- d.flusher.added :: BatcherSafety.ItemOf(d.log, it);
    hide BatcherSafety.Inv, BatcherSafety.ItemOf, Step, ItemsOf;
    if HandlerEvent(e) {
      HandlerAddsNothing(c, s, e);
    } else {
      LoopAdds(c, s, e);
      if e.TopicGrows? && Grows(d.log, Step(c, s, e).data.log) {
        ValidFirstSurvivesGrowth(d.log, Step(c, s, e).data.log, d.flusher.added);
      }
      if e.Deliver? && e.partition < |d.log| && d.cursor[e.partition] < |d.log[e.partition]| {
        ValidFirstAppends(d.log, d.flusher.added, c, e.partition, d.cursor[e.partition]);
      }
      hide ValidFirst;
      EmptyIsValidFirst(Step(c, s, e).data.log);
    }
  }

  lemma EmptyIsValidFirst(log: seq<seq<Record>>)
    ensures ValidFirst(log, [])
  {
  }

  predicate Unformattable(c: Config, log: seq<seq<Record>>, p: nat, o: nat) {
    AuthorizedAt(log, p, o) && !c.formats(log[p][o].sensorId)
  }

  /** No partition is committed past a record whose sensor id does not format. */
  ghost predicate Pinned(c: Config, d: Data) {
    |d.committed| == |d.log| && forall p: nat, o: nat :: Unformattable(c, d.log, p, o) ==> d.committed[p] <= o
  }

  lemma {:induction false} ValidMember(items: seq<Item>, it: Item)
    requires it in items && it.kind.Valid?
    ensures it in ValidOf(items)
  {
    assert items == Front(items) + [Last(items)];
    if it != Last(items) {
      ValidMember(Front(items), it);
    }
  }

  lemma HasValidItem(log: seq<seq<Record>>, seen: seq<Item>, it: Item)
    requires ValidFirst(log, seen) && it in seen
    ensures HasValid(log, it, seen)
  {
    var j :| 0 <= j < |seen| && seen[j] == it;
    assert HasValid(log, it, seen[..j + 1]);
    assert forall x <- seen[..j + 1] :: x in seen;
  }

  /** What is handled or about to be committed stands for records whose sensor ids format. */
  lemma SeenFormats(c: Config, d: Data, it: Item)
    requires Formatted(c, d) && d.handler.CommitOffsets? && d.flusher.Conserved() && ValidFirst(d.log, d.flusher.added)
    requires (it in d.flusher.handled || it in d.flusher.Flying()) && it.offset > 0
    ensures !Unformattable(c, d.log, it.partition, it.offset - 1)
  {
    if Unformattable(c, d.log, it.partition, it.offset - 1) {
      var seen := d.flusher.handled + d.flusher.Flying();
      var valid := ValidItem(d.log[it.partition][it.offset - 1], it.partition, it.offset);
      ValidFirstOnPrefix(d.log, seen, d.flusher.pending);
      assert it in seen;
      HasValidItem(d.log, seen, it);
      hide ValidFirst, ValidOf;
      ValidMember(if valid in d.flusher.handled then d.flusher.handled else d.flusher.Flying(), valid);
      assert false;
    }
  }

  lemma CommitStaysPinned(c: Config, d: Data, landed: set<nat>, p: nat, o: nat)
    requires BatcherSafety.Inv(c, d) && Formatted(c, d) && d.handler.CommitOffsets? && ValidFirst(d.log, d.flusher.added)
    requires Pinned(c, d) && Unformattable(c, d.log, p, o)
    ensures CommitInto(d.committed, d.flusher.Flying(), landed)[p] <= o
  {
    var batch := d.flusher.Flying();
    if p in landed && Touches(batch, p) && MaxOffset(batch, p, 0) > o {
      BatcherSafety.BatchDominates(d, p);
      assert d.start[p] <= d.committed[p] <= o < d.cursor[p];
      assert BatcherSafety.Has(d.flusher.added, p, o + 1);
      var it := BatcherSafety.ReadUpTo(d, p, o);
      SeenFormats(c, d, it);
    }
  }

  lemma StepStaysPinned(c: Config, s: State, e: Event)
    requires BatcherSafety.Inv(c, s.data) && Formatted(c, s.data) && ValidFirst(s.data.log, s.data.flusher.added)
    requires Pinned(c, s.data)
    ensures Pinned(c, Step(c, s, e).data)
  {
    var d, d1 := s.data, Step(c, s, e).data;
    assert |d.cursor| == |d.log| && forall p :: 0 <= p < |d.log| ==> d.committed[p] <= |d.log[p]|;
    hide Step;
    if HandlerEvent(e) {
      HandlerAddsNothing(c, s, e);
    } else {
      LoopAdds(c, s, e);
    }
    hide BatcherSafety.Inv, ValidFirst, Formatted;
    forall p: nat, o: nat | Unformattable(c, d1.log, p, o) ensures d1.committed[p] <= o {
      if d1.committed != d.committed {
        CommitStaysPinned(c, d, e.partitions, p, o);
      } else if o < |d.log[p]| {
        assert d.log[p] <= d1.log[p];
        assert Unformattable(c, d.log, p, o);
      }
    }
  }

  /**
   * In every reachable state no committed offset has passed a record whose sensor id does
   * not format: its partition is pinned there, across restarts.
   */
  lemma {:induction false} PartitionIsPinned(c: Config, log: seq<seq<Record>>, batchedPartitions: nat, es: seq<Event>)
    ensures var d := After(c, log, batchedPartitions, es).data;
      Pinned(c, d) && ValidFirst(d.log, d.flusher.added)
  {
    if es != [] {
      var s := After(c, log, batchedPartitions, Front(es));
      PartitionIsPinned(c, log, batchedPartitions, Front(es));
      UnformattableIsNeverHandled(c, log, batchedPartitions, Front(es));
      BatcherSafety.RunIsGood(c, log, batchedPartitions, Front(es));
      assert BatcherSafety.Inv(c, s.data);
      hide BatcherSafety.Inv, Step, Pinned, ValidFirst, Formatted;
      StepKeepsValidFirst(c, s, Last(es));
      StepStaysPinned(c, s, Last(es));
    } else {
      EmptyIsValidFirst(log);
    }
  }
}
