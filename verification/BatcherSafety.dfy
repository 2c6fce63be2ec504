/** What every run of the batcher keeps: no record is lost, whatever fails or crashes. */
module BatcherSafety {
  import opened Common
  import opened PayloadBuilder
  import opened BatchFlushing
  import opened Batcher
  import BatchId

  // ---------------------------------------------------------------------------
  // Coverage of records
  // ---------------------------------------------------------------------------

  /** `item` stands for the record of the log it names, with that record's bytes. */
  ghost predicate ItemOf(log: seq<seq<Record>>, item: Item) {
    && item.partition < |log|
    && 0 < item.offset <= |log[item.partition]|
    && match log[item.partition][item.offset - 1] {
         case Authorized(envelope, sensorId, raw) =>
           item.raw == raw && (item.kind.Valid? ==> item.kind == Valid(envelope, sensorId))
         case Unparseable(raw) => item.raw == raw && item.kind.Poison?
         case _ => false
       }
  }

  ghost predicate InDlq(dlq: seq<DlqMessage>, item: Item) {
    exists reason :: ToDlq(item, reason) in dlq
  }

  ghost predicate InBatched(batched: seq<seq<BatchedMessage>>, item: Item) {
    exists q, m :: 0 <= q < |batched| && m in batched[q] && item in m.fitted.events
  }

  ghost predicate Covered(d: Data, item: Item) {
    InDlq(d.dlq, item) || InBatched(d.batched, item)
  }

  ghost predicate AllCovered(d: Data, items: seq<Item>) {
    forall it <- items :: Covered(d, it)
  }

  /** The record at this position is in a batched message or in the DLQ. */
  ghost predicate Safe(d: Data, p: nat, o: nat) {
    exists it: Item :: it.partition == p && it.offset == o + 1 && ItemOf(d.log, it) && Covered(d, it)
  }

  ghost predicate NoLoss(d: Data) {
    && |d.committed| == |d.log|
    && (forall p :: 0 <= p < |d.log| ==> d.committed[p] <= |d.log[p]|)
    && forall p, o :: 0 <= p < |d.log| && 0 <= o < d.committed[p] && Relevant(d.log[p][o]) ==> Safe(d, p, o)
  }

  // ---------------------------------------------------------------------------
  // The invariant
  // ---------------------------------------------------------------------------

  ghost predicate Sizes(d: Data) {
    && |d.committed| == |d.log| && |d.cursor| == |d.log| && |d.start| == |d.log|
    && forall p :: 0 <= p < |d.log| ==> d.start[p] <= d.committed[p] <= d.cursor[p] <= |d.log[p]|
  }

  /** Added items stand for records this process has read, in offset order per partition. */
  ghost predicate ItemsKnown(d: Data)
    requires Sizes(d)
  {
    && (forall it <- d.flusher.added :: ItemOf(d.log, it) && d.start[it.partition] < it.offset <= d.cursor[it.partition])
    && Ordered(d.flusher.added)
  }

  ghost predicate Ordered(items: seq<Item>) {
    forall i, j :: 0 <= i < j < |items| && items[i].partition == items[j].partition ==> items[i].offset <= items[j].offset
  }

  ghost predicate Has(items: seq<Item>, p: nat, offset: nat) {
    exists it <- items :: it.partition == p && it.offset == offset
  }

  ghost predicate AllRead(d: Data)
    requires Sizes(d)
  {
    forall p, o :: 0 <= p < |d.log| && d.start[p] <= o < d.cursor[p] && Relevant(d.log[p][o]) ==> Has(d.flusher.added, p, o + 1)
  }

  /** The items whose offsets a commit may have reached: those handled, then those detached last. */
  function Reach(f: Flusher<Item>): seq<Item> {
    f.handled + (if f.inFlight.Some? then f.inFlight.value else f.pending)
  }

  ghost predicate CommitBounds(d: Data)
    requires Sizes(d)
  {
    forall p :: 0 <= p < |d.log| ==>
      MaxOffset(d.flusher.handled, p, d.start[p]) <= d.committed[p] <= MaxOffset(Reach(d.flusher), p, d.start[p])
  }

  /** What the handler has already made durable when it waits at each await. */
  ghost predicate HandlerCovered(c: Config, d: Data) {
    var batch := d.flusher.Flying();
    match d.handler
    case NoHandler => d.flusher.inFlight.None?
    case PoisonSend => d.flusher.inFlight.Some?
    case Fit => d.flusher.inFlight.Some? && AllCovered(d, PoisonOf(batch))
    case OversizedSend => d.flusher.inFlight.Some? && AllCovered(d, PoisonOf(batch))
    case BatchedSend =>
      && d.flusher.inFlight.Some?
      && AllCovered(d, PoisonOf(batch))
      && AllCovered(d, Events(Fitting(c, batch).oversized))
    case CommitOffsets => d.flusher.inFlight.Some? && AllCovered(d, batch)
  }

  ghost predicate Inv(c: Config, d: Data) {
    && Sizes(d)
    && d.flusher.Conserved()
    && ItemsKnown(d)
    && AllRead(d)
    && CommitBounds(d)
    && AllCovered(d, d.flusher.handled)
    && HandlerCovered(c, d)
    && NoLoss(d)
  }

  // ---------------------------------------------------------------------------
  // Highest offsets
  // ---------------------------------------------------------------------------

  lemma {:induction false} MaxOffsetConcat(a: seq<Item>, b: seq<Item>, p: nat, base: nat)
    ensures MaxOffset(a + b, p, base) == MaxOffset(b, p, MaxOffset(a, p, base))
  {
    if b == [] {
      assert a + b == a;
    } else {
      assert Front(a + b) == a + Front(b) && Last(a + b) == Last(b);
      MaxOffsetConcat(a, Front(b), p, base);
    }
  }

  lemma {:induction false} MaxOffsetIsHighest(items: seq<Item>, p: nat, base: nat)
    ensures base <= MaxOffset(items, p, base)
    ensures forall it <- items :: it.partition == p ==> it.offset <= MaxOffset(items, p, base)
    ensures MaxOffset(items, p, base) == base || Has(items, p, MaxOffset(items, p, base))
    ensures !Touches(items, p) ==> MaxOffset(items, p, base) == base
  {
    if items != [] {
      MaxOffsetIsHighest(Front(items), p, base);
      assert items == Front(items) + [Last(items)];
      assert Last(items) in items && forall it <- Front(items) :: it in items;
    }
  }

  /** Offsets of a later batch are at least those before it, so its own maximum is the overall one. */
  lemma LaterBatchDominates(earlier: seq<Item>, batch: seq<Item>, p: nat, base: nat)
    requires Ordered(earlier + batch) && Touches(batch, p)
    requires forall it <- earlier + batch :: it.partition == p ==> base < it.offset
    ensures MaxOffset(earlier + batch, p, base) == MaxOffset(batch, p, 0)
    ensures Has(batch, p, MaxOffset(batch, p, 0))
  {
    MaxOffsetConcat(earlier, batch, p, base);
    MaxOffsetIsHighest(earlier, p, base);
    MaxOffsetIsHighest(batch, p, 0);
    var top := MaxOffset(earlier, p, base);
    MaxOffsetIsHighest(batch, p, top);
    var x :| x in batch && x.partition == p;
    var j :| 0 <= j < |batch| && batch[j] == x;
    assert x in earlier + batch by { assert (earlier + batch)[|earlier| + j] == x; }
    assert top <= x.offset by {
      if top != base {
        var y :| y in earlier && y.partition == p && y.offset == top;
        var i :| 0 <= i < |earlier| && earlier[i] == y;
        assert (earlier + batch)[i] == y && (earlier + batch)[|earlier| + j] == x;
      }
    }
    assert x.offset > 0;
    var m := MaxOffset(batch, p, top);
    if m == top {
      assert x.offset == top;
    }
  }

  // ---------------------------------------------------------------------------
  // Coverage only grows
  // ---------------------------------------------------------------------------

  ghost predicate Kept(before: Data, after: Data) {
    && Grows(before.log, after.log)
    && (forall it :: InDlq(before.dlq, it) ==> InDlq(after.dlq, it))
    && (forall it :: InBatched(before.batched, it) ==> InBatched(after.batched, it))
  }

  lemma SafeIsKept(before: Data, after: Data, p: nat, o: nat)
    requires Kept(before, after) && Safe(before, p, o)
    ensures Safe(after, p, o)
  {
    var it: Item :| it.partition == p && it.offset == o + 1 && ItemOf(before.log, it) && Covered(before, it);
    assert before.log[p] <= after.log[p];
    assert ItemOf(after.log, it) && Covered(after, it);
  }

  lemma CoveredIsKept(before: Data, after: Data, items: seq<Item>)
    requires Kept(before, after) && AllCovered(before, items)
    ensures AllCovered(after, items)
  {
  }

  /** Committed positions carry over when coverage grows and no offset moves. */
  lemma NoLossIsKept(before: Data, after: Data)
    requires NoLoss(before) && Kept(before, after) && after.committed == before.committed
    ensures NoLoss(after)
  {
    forall p, o | 0 <= p < |after.log| && 0 <= o < after.committed[p] && Relevant(after.log[p][o])
      ensures Safe(after, p, o)
    {
      assert before.log[p] <= after.log[p];
      SafeIsKept(before, after, p, o);
    }
  }

  // ---------------------------------------------------------------------------
  // Each step keeps the invariant
  // ---------------------------------------------------------------------------

  lemma TopicGrowthKeeps(c: Config, d: Data, log: seq<seq<Record>>)
    requires Inv(c, d) && Grows(d.log, log)
    ensures Inv(c, d.(log := log))
  {
    var d1 := d.(log := log);
    forall p, o | 0 <= p < |log| && 0 <= o < |d.log[p]| ensures log[p][o] == d.log[p][o] {
      assert d.log[p] <= log[p];
    }
    assert Kept(d, d1);
    NoLossIsKept(d, d1);
  }

  lemma CrashKeeps(c: Config, d: Data)
    requires Inv(c, d)
    ensures Inv(c, Fresh(d))
  {
    var d1 := Fresh(d);
    assert Kept(d, d1);
    NoLossIsKept(d, d1);
  }

  lemma DetachKeeps(c: Config, d: Data)
    requires Inv(c, d)
    ensures Inv(c, Detach(d))
  {
    var d1 := Detach(d);
    if d1 != d {
      ApplyConserves(d.flusher, RequestFlush);
      assert Reach(d1.flusher) == Reach(d.flusher);
      assert Kept(d, d1);
      NoLossIsKept(d, d1);
    }
  }

  /** Everything the running handler was given, and everything before it, is committed. */
  ghost predicate FullyCommitted(d: Data)
    requires Sizes(d)
  {
    forall p :: 0 <= p < |d.log| ==> MaxOffset(d.flusher.handled + d.flusher.Flying(), p, d.start[p]) <= d.committed[p]
  }

  lemma SettleKeeps(c: Config, d: Data, ok: bool)
    requires Inv(c, d) && d.flusher.inFlight.Some?
    requires ok ==> d.handler.CommitOffsets? && FullyCommitted(d)
    ensures Inv(c, Settle(d, ok))
  {
    var d1 := Settle(d, ok);
    var batch := d.flusher.inFlight.value;
    ApplyConserves(d.flusher, HandlerSettles(ok));
    forall p | 0 <= p < |d.log|
      ensures d.committed[p] <= MaxOffset(Reach(d1.flusher), p, d.start[p])
    {
      assert Reach(d1.flusher) == Reach(d.flusher) + d.flusher.pending;
      MaxOffsetConcat(Reach(d.flusher), d.flusher.pending, p, d.start[p]);
      MaxOffsetIsHighest(d.flusher.pending, p, MaxOffset(Reach(d.flusher), p, d.start[p]));
    }
    assert Kept(d, d1);
    NoLossIsKept(d, d1);
    CoveredIsKept(d, d1, d.flusher.handled);
    if ok {
      CoveredIsKept(d, d1, batch);
    }
  }

  lemma {:induction false} AddAllAppends(f: Flusher<Item>, items: seq<Item>)
    requires f.Conserved()
    ensures AddAll(f, items) == f.(pending := f.pending + items, added := f.added + items)
    ensures AddAll(f, items).Conserved()
  {
    if items == [] {
      assert f.pending + items == f.pending && f.added + items == f.added;
    } else {
      AddAllAppends(f, Front(items));
      ApplyConserves(AddAll(f, Front(items)), AddItem(Last(items)));
      assert items == Front(items) + [Last(items)];
      assert f.pending + Front(items) + [Last(items)] == f.pending + items;
      assert f.added + Front(items) + [Last(items)] == f.added + items;
    }
  }

  lemma OrderedAppend(before: seq<Item>, items: seq<Item>, p: nat, offset: nat)
    requires Ordered(before)
    requires forall it <- before :: it.partition == p ==> it.offset <= offset
    requires forall it <- items :: it.partition == p && it.offset == offset
    ensures Ordered(before + items)
  {
    var after := before + items;
    forall i, j | 0 <= i < j < |after| && after[i].partition == after[j].partition
      ensures after[i].offset <= after[j].offset
    {
      if j >= |before| {
        assert after[j] in items;
        assert after[i] in if i < |before| then before else items;
      }
    }
  }

  lemma ReceivedItemsAreKnown(c: Config, d: Data, p: nat)
    requires Sizes(d) && ItemsKnown(d) && d.flusher.Conserved()
    requires p < |d.log| && d.cursor[p] < |d.log[p]|
    ensures Sizes(Receive(c, d, p)) && ItemsKnown(Receive(c, d, p))
  {
    var here := d.cursor[p];
    var items := ItemsOf(c, d.log[p][here], p, here);
    AddAllAppends(d.flusher, items);
    ItemsStandForTheRecord(c, d.log, p, here);
    OrderedAppend(d.flusher.added, items, p, here + 1);
    var d1 := Receive(c, d, p);
    forall it <- d1.flusher.added
      ensures ItemOf(d.log, it) && d.start[it.partition] < it.offset <= d1.cursor[it.partition]
    {
      assert it in d.flusher.added || it in items;
    }
  }

  lemma ItemsStandForTheRecord(c: Config, log: seq<seq<Record>>, p: nat, o: nat)
    requires p < |log| && o < |log[p]|
    ensures forall it <- ItemsOf(c, log[p][o], p, o) :: it.partition == p && it.offset == o + 1 && ItemOf(log, it)
    ensures Relevant(log[p][o]) ==> ItemsOf(c, log[p][o], p, o) != []
  {
  }

  lemma ReceivedRecordIsRead(c: Config, d: Data, p: nat)
    requires Sizes(d) && d.flusher.Conserved() && AllRead(d)
    requires p < |d.log| && d.cursor[p] < |d.log[p]|
    requires Sizes(Receive(c, d, p))
    ensures AllRead(Receive(c, d, p))
  {
    var d1 := Receive(c, d, p);
    var here := d.cursor[p];
    var items := ItemsOf(c, d.log[p][here], p, here);
    AddAllAppends(d.flusher, items);
    var before, after := d.flusher.added, d1.flusher.added;
    forall q, o | 0 <= q < |d.log| && d1.start[q] <= o < d1.cursor[q] && Relevant(d.log[q][o])
      ensures Has(after, q, o + 1)
    {
      if q == p && o == here {
        assert items[0] in after;
      } else {
        assert Has(before, q, o + 1);
        var it :| it in before && it.partition == q && it.offset == o + 1;
        assert it in after;
      }
    }
  }

  lemma ReceiveKeeps(c: Config, d: Data, p: nat)
    requires Inv(c, d) && p < |d.log| && d.cursor[p] < |d.log[p]|
    ensures Inv(c, Receive(c, d, p))
  {
    var d1 := Receive(c, d, p);
    var items := ItemsOf(c, d.log[p][d.cursor[p]], p, d.cursor[p]);
    ReceivedItemsAreKnown(c, d, p);
    ReceivedRecordIsRead(c, d, p);
    AddAllAppends(d.flusher, items);
    assert CommitBounds(d1) by {
      LongerReachKeepsBounds(d, d1, items);
    }
    assert Kept(d, d1);
    NoLossIsKept(d, d1);
    CoveredIsKept(d, d1, d.flusher.handled);
  }

  lemma LongerReachKeepsBounds(d: Data, d1: Data, items: seq<Item>)
    requires Sizes(d) && Sizes(d1) && CommitBounds(d)
    requires d1.committed == d.committed && d1.start == d.start && |d1.log| == |d.log|
    requires d1.flusher == d.flusher.(pending := d.flusher.pending + items, added := d1.flusher.added)
    ensures CommitBounds(d1)
  {
    forall q | 0 <= q < |d.log|
      ensures d.committed[q] <= MaxOffset(Reach(d1.flusher), q, d.start[q])
    {
      if d.flusher.inFlight.None? {
        assert Reach(d1.flusher) == Reach(d.flusher) + items;
        MaxOffsetConcat(Reach(d.flusher), items, q, d.start[q]);
        MaxOffsetIsHighest(items, q, MaxOffset(Reach(d.flusher), q, d.start[q]));
      }
    }
  }

  // Commits ---------------------------------------------------------------------

  /** The commit of a covered batch passes only over records that are safe. */
  lemma CommitPassesSafeRecords(d: Data, p: nat, o: nat)
    requires Sizes(d) && d.flusher.Conserved() && ItemsKnown(d) && AllRead(d) && NoLoss(d) && p < |d.log|
    requires AllCovered(d, d.flusher.handled) && AllCovered(d, d.flusher.Flying())
    requires Touches(d.flusher.Flying(), p) && o < MaxOffset(d.flusher.Flying(), p, 0) <= d.cursor[p]
    requires Relevant(d.log[p][o])
    ensures Safe(d, p, o)
  {
    BatchDominates(d, p);
    if o < d.start[p] {
      assert Safe(d, p, o);
    } else {
      assert Has(d.flusher.added, p, o + 1);
      var it := ReadUpTo(d, p, o);
      assert ItemOf(d.log, it) && Covered(d, it);
    }
  }

  /** A record read so far and no later than the flying batch's last has an item in that batch or before it. */
  lemma ReadUpTo(d: Data, p: nat, o: nat) returns (it: Item)
    requires Sizes(d) && d.flusher.Conserved() && ItemsKnown(d) && p < |d.log|
    requires Touches(d.flusher.Flying(), p) && o < MaxOffset(d.flusher.Flying(), p, 0)
    requires Has(d.flusher.added, p, o + 1)
    ensures it.partition == p && it.offset == o + 1 && it in d.flusher.added
    ensures it in d.flusher.handled || it in d.flusher.Flying()
  {
    var f := d.flusher;
    it :| it in f.added && it.partition == p && it.offset == o + 1;
    if it !in f.handled && it !in f.Flying() {
      BatchDominates(d, p);
      var x :| x in f.Flying() && x.partition == p && x.offset == MaxOffset(f.Flying(), p, 0);
      assert it in f.pending;
      PendingIsLater(f, x, it);
      it := x;
    }
  }

  lemma PendingIsLater(f: Flusher<Item>, x: Item, y: Item)
    requires f.Conserved() && Ordered(f.added)
    requires x in f.Flying() && y in f.pending && x.partition == y.partition
    ensures x.offset <= y.offset
  {
    var a, b := f.handled, f.Flying();
    var i :| 0 <= i < |b| && b[i] == x;
    var j :| 0 <= j < |f.pending| && f.pending[j] == y;
    assert f.added[|a| + i] == x && f.added[|a| + |b| + j] == y;
  }

  lemma OrderedPrefix(seen: seq<Item>, rest: seq<Item>)
    requires Ordered(seen + rest)
    ensures Ordered(seen)
  {
    forall i, j | 0 <= i < j < |seen| && seen[i].partition == seen[j].partition
      ensures seen[i].offset <= seen[j].offset
    {
      assert (seen + rest)[i] == seen[i] && (seen + rest)[j] == seen[j];
    }
  }

  lemma BatchDominates(d: Data, p: nat)
    requires Sizes(d) && d.flusher.Conserved() && ItemsKnown(d)
    requires p < |d.log| && Touches(d.flusher.Flying(), p)
    ensures MaxOffset(d.flusher.handled + d.flusher.Flying(), p, d.start[p]) == MaxOffset(d.flusher.Flying(), p, 0)
    ensures Has(d.flusher.Flying(), p, MaxOffset(d.flusher.Flying(), p, 0))
    ensures MaxOffset(d.flusher.Flying(), p, 0) <= d.cursor[p]
  {
    var f := d.flusher;
    var seen := f.handled + f.Flying();
    OrderedPrefix(seen, f.pending);
    assert forall it <- seen :: it in f.added;
    LaterBatchDominates(f.handled, f.Flying(), p, d.start[p]);
    var x :| x in f.Flying() && x.partition == p && x.offset == MaxOffset(f.Flying(), p, 0);
    assert x in seen;
  }

  lemma SafeUpToTheBatch(d: Data, p: nat)
    requires Sizes(d) && d.flusher.Conserved() && ItemsKnown(d) && AllRead(d) && NoLoss(d) && p < |d.log|
    requires AllCovered(d, d.flusher.handled) && AllCovered(d, d.flusher.Flying()) && Touches(d.flusher.Flying(), p)
    ensures MaxOffset(d.flusher.Flying(), p, 0) <= d.cursor[p]
    ensures forall o :: 0 <= o < MaxOffset(d.flusher.Flying(), p, 0) && Relevant(d.log[p][o]) ==> Safe(d, p, o)
  {
    BatchDominates(d, p);
    forall o | 0 <= o < MaxOffset(d.flusher.Flying(), p, 0) && Relevant(d.log[p][o]) ensures Safe(d, p, o) {
      CommitPassesSafeRecords(d, p, o);
    }
  }

  lemma CommittedBounds(d: Data, landed: set<nat>, p: nat)
    requires Sizes(d) && d.flusher.Conserved() && ItemsKnown(d) && CommitBounds(d)
    requires d.flusher.inFlight.Some? && p < |d.log|
    ensures var v := CommitInto(d.committed, d.flusher.Flying(), landed)[p];
      && d.committed[p] <= v <= d.cursor[p]
      && v <= MaxOffset(Reach(d.flusher), p, d.start[p])
      && (p in landed || !Touches(d.flusher.Flying(), p) ==> MaxOffset(Reach(d.flusher), p, d.start[p]) <= v)
  {
    var batch := d.flusher.Flying();
    if Touches(batch, p) {
      BatchDominates(d, p);
    } else {
      MaxOffsetConcat(d.flusher.handled, batch, p, d.start[p]);
      MaxOffsetIsHighest(batch, p, MaxOffset(d.flusher.handled, p, d.start[p]));
    }
  }

  lemma CommittedIsSafe(d: Data, landed: set<nat>, p: nat)
    requires Sizes(d) && d.flusher.Conserved() && ItemsKnown(d) && AllRead(d) && NoLoss(d) && p < |d.log|
    requires AllCovered(d, d.flusher.handled) && AllCovered(d, d.flusher.Flying())
    ensures forall o :: 0 <= o < CommitInto(d.committed, d.flusher.Flying(), landed)[p] && o < |d.log[p]| && Relevant(d.log[p][o])
              ==> Safe(d, p, o)
  {
    if p in landed && Touches(d.flusher.Flying(), p) {
      SafeUpToTheBatch(d, p);
    }
  }

  /** Whatever part of a commit lands: offsets only move up, and only over safe records. */
  lemma CommitKeeps(c: Config, d: Data, landed: set<nat>)
    requires Inv(c, d) && d.handler.CommitOffsets?
    ensures var d1 := d.(committed := CommitInto(d.committed, d.flusher.Flying(), landed));
      && Inv(c, d1)
      && (forall p :: 0 <= p < |d.log| ==> d.committed[p] <= d1.committed[p])
      && ((forall it <- d.flusher.Flying() :: it.partition in landed) ==> FullyCommitted(d1))
  {
    var batch := d.flusher.Flying();
    var d1 := d.(committed := CommitInto(d.committed, batch, landed));
    forall p | 0 <= p < |d.log|
      ensures d.committed[p] <= d1.committed[p] <= d.cursor[p]
      ensures d1.committed[p] <= MaxOffset(Reach(d.flusher), p, d.start[p])
      ensures p in landed || !Touches(batch, p) ==> MaxOffset(Reach(d.flusher), p, d.start[p]) <= d1.committed[p]
    {
      CommittedBounds(d, landed, p);
    }
    assert Kept(d, d1);
    forall p, o | 0 <= p < |d.log| && 0 <= o < d1.committed[p] && Relevant(d.log[p][o]) ensures Safe(d1, p, o) {
      CommittedIsSafe(d, landed, p);
      SafeIsKept(d, d1, p, o);
    }
    CoveredIsKept(d, d1, d.flusher.handled);
    CoveredIsKept(d, d1, batch);
  }

  // Sends -------------------------------------------------------------------------

  lemma {:induction false} PlaceKeepsMessages(batched: seq<seq<BatchedMessage>>, placed: seq<Placed>, q: nat)
    requires forall pl <- placed :: pl.partition < |batched|
    requires q < |batched|
    ensures batched[q] <= Place(batched, placed)[q]
    ensures forall m :: m in Place(batched, placed)[q] <==> m in batched[q] || Placed(q, m) in placed
  {
    if placed != [] {
      PlaceKeepsMessages(batched, Front(placed), q);
      assert placed == Front(placed) + [Last(placed)];
    }
  }

  lemma LandingIsKept(d: Data, dlq: seq<DlqMessage>, placed: seq<Placed>)
    requires forall pl <- placed :: pl.partition < |d.batched|
    ensures Kept(d, d.(dlq := d.dlq + dlq, batched := Place(d.batched, placed)))
  {
    var d1 := d.(dlq := d.dlq + dlq, batched := Place(d.batched, placed));
    forall it | InDlq(d.dlq, it) ensures InDlq(d1.dlq, it) {
      var reason :| ToDlq(it, reason) in d.dlq;
      assert ToDlq(it, reason) in d1.dlq;
    }
    forall it | InBatched(d.batched, it) ensures InBatched(d1.batched, it) {
      var q, m :| 0 <= q < |d.batched| && m in d.batched[q] && it in m.fitted.events;
      PlaceKeepsMessages(d.batched, placed, q);
      assert m in d1.batched[q];
    }
  }

  lemma LandingKeeps(c: Config, d: Data, dlq: seq<DlqMessage>, placed: seq<Placed>)
    requires Inv(c, d)
    requires forall pl <- placed :: pl.partition < |d.batched|
    ensures Inv(c, d.(dlq := d.dlq + dlq, batched := Place(d.batched, placed)))
  {
    var d1 := d.(dlq := d.dlq + dlq, batched := Place(d.batched, placed));
    LandingIsKept(d, dlq, placed);
    NoLossIsKept(d, d1);
    CoveredIsKept(d, d1, d.flusher.handled);
    var batch := d.flusher.Flying();
    if AllCovered(d, PoisonOf(batch)) { CoveredIsKept(d, d1, PoisonOf(batch)); }
    if AllCovered(d, Events(Fitting(c, batch).oversized)) { CoveredIsKept(d, d1, Events(Fitting(c, batch).oversized)); }
    if AllCovered(d, batch) { CoveredIsKept(d, d1, batch); }
  }

  lemma ResumedHandlerKeeps(c: Config, d: Data, handler: Handler)
    requires Inv(c, d) && HandlerCovered(c, d.(handler := handler))
    ensures Inv(c, d.(handler := handler))
  {
    var d1 := d.(handler := handler);
    assert Kept(d, d1);
    NoLossIsKept(d, d1);
    CoveredIsKept(d, d1, d.flusher.handled);
  }

  lemma DlqLandedCovers(d: Data, items: seq<Item>, reason: Reason, landed: seq<DlqMessage>)
    requires Delivered(true, landed, ToDlqAll(items, reason))
    ensures AllCovered(d.(dlq := d.dlq + landed), items)
  {
    forall it <- items ensures InDlq(d.dlq + landed, it) {
      var i :| 0 <= i < |items| && items[i] == it;
      assert ToDlqAll(items, reason)[i] == ToDlq(it, reason);
      assert ToDlq(it, reason) in landed;
    }
  }

  lemma PlacedCovers(c: Config, d: Data, fitted: seq<FittedBatch<Item>>, placed: seq<Placed>)
    requires PlacedAs(true, placed, ToMessages(c, fitted), |d.batched|)
    ensures forall b <- fitted :: AllCovered(d.(batched := Place(d.batched, placed)), b.events)
  {
    var batched := Place(d.batched, placed);
    forall b <- fitted, it <- b.events ensures InBatched(batched, it) {
      var i :| 0 <= i < |fitted| && fitted[i] == b;
      var m := ToMessages(c, fitted)[i];
      assert m in ToMessages(c, fitted) && m.fitted == b;
      var pl :| pl in placed && pl.message == m;
      PlaceKeepsMessages(d.batched, placed, pl.partition);
      assert m in batched[pl.partition];
    }
  }

  lemma {:induction false} ValidOrPoison(batch: seq<Item>)
    ensures forall it <- batch :: it in ValidOf(batch) || it in PoisonOf(batch)
    ensures forall it <- ValidOf(batch) :: it in batch && it.kind.Valid?
    ensures forall it <- PoisonOf(batch) :: it in batch && it.kind.Poison?
  {
    if batch != [] {
      ValidOrPoison(Front(batch));
      assert batch == Front(batch) + [Last(batch)];
    }
  }

  /** Poison, oversized and fitted items together are the whole batch. */
  lemma WholeBatchCovered(c: Config, d: Data)
    requires var batch := d.flusher.Flying();
      && AllCovered(d, PoisonOf(batch))
      && AllCovered(d, Events(Fitting(c, batch).oversized))
      && forall b <- Fitting(c, batch).batches :: AllCovered(d, b.events)
    ensures AllCovered(d, d.flusher.Flying())
  {
    var batch := d.flusher.Flying();
    var r := Fitting(c, batch);
    ValidOrPoison(batch);
    FitBatchKeepsEveryEvent(ValidOf(batch), c.maxPayloadBytes, ItemCodec(c));
    forall it <- batch ensures Covered(d, it) {
      if it in ValidOf(batch) {
        if o :| o in r.oversized && o.event == it {
          var i :| 0 <= i < |r.oversized| && r.oversized[i] == o;
          assert Events(r.oversized)[i] == it;
        } else {
          var b :| b in r.batches && it in b.events;
        }
      }
    }
  }

  // ---------------------------------------------------------------------------
  // The whole service
  // ---------------------------------------------------------------------------

  /** Who may be waiting for the running flush, and what the drain has left. */
  ghost predicate LoopInv(s: State) {
    var f := s.data.flusher;
    && (s.control.loop.AwaitFlush? || s.control.loop.DrainJoin? || s.control.timerWaiting ==> f.inFlight.Some?)
    && (f.inFlight.Some? ==> s.control.loop.AwaitFlush? || s.control.loop.DrainJoin? || s.control.loop.DrainFlush? || s.control.timerWaiting)
    && (s.control.loop.DrainFlush? ==> f.inFlight.Some? && f.pending == [])
    && (s.control.loop == Ended(true) ==> f.inFlight.None? && f.pending == [])
  }

  ghost predicate Good(c: Config, s: State) {
    Inv(c, s.data) && LoopInv(s)
  }

  /** What one step promises: the invariant, and no committed offset moving back. */
  ghost predicate Advances(c: Config, s: State, s1: State) {
    && Good(c, s1)
    && |s1.data.committed| == |s.data.committed|
    && forall p :: 0 <= p < |s.data.committed| ==> s.data.committed[p] <= s1.data.committed[p]
  }

  lemma FinalFlushKeeps(c: Config, s: State)
    requires Inv(c, s.data) && s.data.flusher.inFlight.None? && !s.control.timerWaiting
    ensures Advances(c, s, FinalFlush(s))
  {
    DetachKeeps(c, s.data);
  }

  lemma LeaveLoopKeeps(c: Config, s: State)
    requires Good(c, s) && s.control.loop.Reading?
    ensures Advances(c, s, LeaveLoop(s))
  {
    if s.data.flusher.inFlight.None? {
      FinalFlushKeeps(c, s.(control := s.control.(timerArmed := false)));
    }
  }

  lemma SettleAndResumeKeeps(c: Config, s: State, ok: bool)
    requires Good(c, s) && s.data.flusher.inFlight.Some?
    requires ok ==> s.data.handler.CommitOffsets? && FullyCommitted(s.data)
    ensures Advances(c, s, SettleAndResume(s, ok))
  {
    hide Inv;
    SettleKeeps(c, s.data, ok);
    if s.control.loop.DrainJoin? {
      var d := Settle(s.data, ok);
      var k := s.control;
      var rearm := !ok && !k.stopping && d.flusher.pending != [] && (k.timerWaiting || k.loop.AwaitFlush?);
      FinalFlushKeeps(c, State(d, k.(timerArmed := k.timerArmed || rearm, timerWaiting := false)));
    }
  }

  lemma MaybeFlushKeeps(c: Config, s: State)
    requires Good(c, s) && s.control.loop.Reading?
    ensures Advances(c, s, MaybeFlush(c, s))
  {
    hide Inv;
    DetachKeeps(c, s.data);
  }

  lemma ReceivedIsGood(c: Config, s: State, p: nat)
    requires Good(c, s) && s.control.loop.Reading?
    requires p < |s.data.log| && s.data.cursor[p] < |s.data.log[p]|
    ensures Advances(c, s, Received(c, s, p)) && Received(c, s, p).control.loop.Reading?
  {
    ReceiveKeeps(c, s.data, p);
    AddAllAppends(s.data.flusher, ItemsOf(c, s.data.log[p][s.data.cursor[p]], p, s.data.cursor[p]));
  }

  lemma ConsumeKeeps(c: Config, s: State, p: nat)
    requires Good(c, s) && s.control.loop.Reading?
    requires p < |s.data.log| && s.data.cursor[p] < |s.data.log[p]|
    ensures Advances(c, s, Consume(c, s, p))
  {
    ReceivedIsGood(c, s, p);
    var s1 := Received(c, s, p);
    hide Inv, Received, LoopInv;
    MaybeFlushKeeps(c, s1);
    AdvancesTwice(c, s, s1, MaybeFlush(c, s1));
  }

  lemma DlqLandingKeeps(c: Config, s: State, landed: seq<DlqMessage>)
    requires Good(c, s)
    ensures Advances(c, s, s.(data := s.data.(dlq := s.data.dlq + landed)))
  {
    LandingKeeps(c, s.data, landed, []);
    assert s.data.(dlq := s.data.dlq + landed) == s.data.(dlq := s.data.dlq + landed, batched := Place(s.data.batched, []));
  }

  lemma PoisonSendKeeps(c: Config, s: State, ok: bool, landed: seq<DlqMessage>)
    requires Good(c, s) && s.data.handler.PoisonSend?
    requires Delivered(ok, landed, ToDlqAll(PoisonOf(s.data.flusher.Flying()), ParseError))
    ensures Advances(c, s, AfterPoison(c, s.(data := s.data.(dlq := s.data.dlq + landed)), ok))
  {
    DlqLandingKeeps(c, s, landed);
    if ok {
      DlqLandedCovers(s.data, PoisonOf(s.data.flusher.Flying()), ParseError, landed);
    }
    AfterPoisonKeeps(c, s.(data := s.data.(dlq := s.data.dlq + landed)), ok);
  }

  lemma OversizedSendKeeps(c: Config, s: State, ok: bool, landed: seq<DlqMessage>)
    requires Good(c, s) && s.data.handler.OversizedSend?
    requires Delivered(ok, landed, ToDlqAll(Events(Fitting(c, s.data.flusher.Flying()).oversized), TooLarge))
    ensures var s1 := s.(data := s.data.(dlq := s.data.dlq + landed));
      Advances(c, s, if ok then ToBatchedSend(s1, Fitting(c, s.data.flusher.Flying()).batches) else ProduceFails(s1))
  {
    DlqLandingKeeps(c, s, landed);
    if ok {
      DlqLandedCovers(s.data, Events(Fitting(c, s.data.flusher.Flying()).oversized), TooLarge, landed);
      ToBatchedSendKeeps(c, s.(data := s.data.(dlq := s.data.dlq + landed)));
    } else {
      ProduceFailsKeeps(c, s.(data := s.data.(dlq := s.data.dlq + landed)));
    }
  }

  lemma DlqSendKeeps(c: Config, s: State, ok: bool, landed: seq<DlqMessage>)
    requires Good(c, s)
    ensures Advances(c, s, DlqSent(c, s, ok, landed))
  {
    var batch := s.data.flusher.Flying();
    if s.data.handler.PoisonSend? && Delivered(ok, landed, ToDlqAll(PoisonOf(batch), ParseError)) {
      PoisonSendKeeps(c, s, ok, landed);
    } else if s.data.handler.OversizedSend? && Delivered(ok, landed, ToDlqAll(Events(Fitting(c, batch).oversized), TooLarge)) {
      OversizedSendKeeps(c, s, ok, landed);
    }
  }

  lemma ProduceFailsKeeps(c: Config, s: State)
    requires Good(c, s) && s.data.flusher.inFlight.Some?
    ensures Advances(c, s, ProduceFails(s))
  {
    hide Inv;
    var m := s.control.metrics;
    SettleAndResumeKeeps(c, s.(control := s.control.(metrics := m.(produceFailure := m.produceFailure + 1))), false);
  }

  lemma AfterPoisonKeeps(c: Config, s: State, ok: bool)
    requires Good(c, s) && s.data.handler.PoisonSend?
    requires ok ==> AllCovered(s.data, PoisonOf(s.data.flusher.Flying()))
    ensures Advances(c, s, AfterPoison(c, s, ok))
  {
    var batch := s.data.flusher.Flying();
    SettleAndResumeKeeps(c, s, false);
    if ok {
      ValidOrPoison(batch);
      if ValidOf(batch) == [] {
        CoveredWithHandler(s.data, CommitOffsets, batch);
        ResumedHandlerKeeps(c, s.data, CommitOffsets);
      } else {
        CoveredWithHandler(s.data, Fit, PoisonOf(batch));
        ResumedHandlerKeeps(c, s.data, Fit);
      }
    }
  }

  lemma CoveredWithHandler(d: Data, handler: Handler, items: seq<Item>)
    requires AllCovered(d, items)
    ensures AllCovered(d.(handler := handler), items)
  {
  }

  lemma ToBatchedSendKeeps(c: Config, s: State)
    requires Good(c, s) && s.data.flusher.inFlight.Some?
    requires AllCovered(s.data, PoisonOf(s.data.flusher.Flying()))
    requires AllCovered(s.data, Events(Fitting(c, s.data.flusher.Flying()).oversized))
    ensures Advances(c, s, ToBatchedSend(s, Fitting(c, s.data.flusher.Flying()).batches))
  {
    var d := s.data;
    var batch := d.flusher.Flying();
    var r := Fitting(c, batch);
    if r.batches == [] {
      WholeBatchCovered(c, d);
      CoveredWithHandler(d, CommitOffsets, batch);
      ResumedHandlerKeeps(c, d, CommitOffsets);
    } else {
      CoveredWithHandler(d, BatchedSend, PoisonOf(batch));
      CoveredWithHandler(d, BatchedSend, Events(r.oversized));
      ResumedHandlerKeeps(c, d, BatchedSend);
    }
  }

  lemma FitKeeps(c: Config, s: State, ok: bool)
    requires Good(c, s) && s.data.handler.Fit?
    ensures Advances(c, s, AfterFit(c, s, ok))
  {
    var batch := s.data.flusher.Flying();
    if !ok {
      ProduceFailsKeeps(c, s);
    } else if Fitting(c, batch).oversized != [] {
      CoveredWithHandler(s.data, OversizedSend, PoisonOf(batch));
      ResumedHandlerKeeps(c, s.data, OversizedSend);
    } else {
      assert Events(Fitting(c, batch).oversized) == [];
      ToBatchedSendKeeps(c, s);
    }
  }

  lemma PlacingKeeps(c: Config, s: State, placed: seq<Placed>)
    requires Good(c, s) && forall pl <- placed :: pl.partition < |s.data.batched|
    ensures Advances(c, s, s.(data := s.data.(batched := Place(s.data.batched, placed))))
  {
    LandingKeeps(c, s.data, [], placed);
    assert s.data.(batched := Place(s.data.batched, placed)) == s.data.(dlq := s.data.dlq + [], batched := Place(s.data.batched, placed));
  }

  lemma AcknowledgedBatchIsCovered(c: Config, d: Data, placed: seq<Placed>)
    requires Inv(c, d) && d.handler.BatchedSend?
    requires PlacedAs(true, placed, ToMessages(c, Fitting(c, d.flusher.Flying()).batches), |d.batched|)
    ensures Inv(c, d.(batched := Place(d.batched, placed), handler := CommitOffsets))
  {
    var d1 := d.(batched := Place(d.batched, placed));
    LandingKeeps(c, d, [], placed);
    assert d1 == d.(dlq := d.dlq + [], batched := Place(d.batched, placed));
    PlacedCovers(c, d, Fitting(c, d.flusher.Flying()).batches, placed);
    WholeBatchCovered(c, d1);
    CoveredWithHandler(d1, CommitOffsets, d.flusher.Flying());
    ResumedHandlerKeeps(c, d1, CommitOffsets);
  }

  lemma BatchedSendKeeps(c: Config, s: State, ok: bool, placed: seq<Placed>)
    requires Good(c, s)
    ensures Advances(c, s, BatchedSent(c, s, ok, placed))
  {
    var d := s.data;
    if d.handler.BatchedSend? && PlacedAs(ok, placed, ToMessages(c, Fitting(c, d.flusher.Flying()).batches), |d.batched|) {
      PlacingKeeps(c, s, placed);
      if ok {
        AcknowledgedBatchIsCovered(c, d, placed);
      } else {
        ProduceFailsKeeps(c, s.(data := d.(batched := Place(d.batched, placed))));
      }
    }
  }

  lemma CommitLandingKeeps(c: Config, s: State, partitions: set<nat>)
    requires Good(c, s) && s.data.handler.CommitOffsets?
    ensures var s1 := s.(data := s.data.(committed := CommitInto(s.data.committed, s.data.flusher.Flying(), partitions)));
      && Advances(c, s, s1)
      && ((forall it <- s.data.flusher.Flying() :: it.partition in partitions) ==> FullyCommitted(s1.data))
  {
    CommitKeeps(c, s.data, partitions);
  }

  lemma CommitDoneKeeps(c: Config, s: State, ok: bool, partitions: set<nat>)
    requires Good(c, s) && s.data.handler.CommitOffsets?
    requires ok ==> forall it <- s.data.flusher.Flying() :: it.partition in partitions
    ensures Advances(c, s, CommitReturned(s, ok, partitions))
  {
    CommitLandingKeeps(c, s, partitions);
    var s1 := s.(data := s.data.(committed := CommitInto(s.data.committed, s.data.flusher.Flying(), partitions)));
    SettleAndResumeKeeps(c, s1, ok);
    AdvancesTwice(c, s, s1, SettleAndResume(s1, ok));
  }

  lemma AdvancesTwice(c: Config, s: State, s1: State, s2: State)
    requires Advances(c, s, s1) && Advances(c, s1, s2)
    ensures Advances(c, s, s2)
  {
  }

  lemma CommitReturnedKeeps(c: Config, s: State, ok: bool, partitions: set<nat>)
    requires Good(c, s)
    ensures Advances(c, s, CommitReturned(s, ok, partitions))
  {
    if s.data.handler.CommitOffsets? && (ok ==> forall it <- s.data.flusher.Flying() :: it.partition in partitions) {
      CommitDoneKeeps(c, s, ok, partitions);
    }
  }

  lemma StandingStill(c: Config, s: State)
    requires Good(c, s)
    ensures Advances(c, s, s)
  {
  }

  lemma DeliverKeeps(c: Config, s: State, p: nat)
    requires Good(c, s) && s.control.loop.Reading?
    requires p < |s.data.log| && s.data.cursor[p] < |s.data.log[p]|
    ensures Advances(c, s, if s.control.stopping then LeaveLoop(s) else Consume(c, s, p))
  {
    if s.control.stopping {
      LeaveLoopKeeps(c, s);
    } else {
      ConsumeKeeps(c, s, p);
    }
  }

  lemma StreamEndKeeps(c: Config, s: State)
    requires Good(c, s)
    ensures Advances(c, s, Step(c, s, StreamEnds))
  {
    StandingStill(c, s);
    hide Good, Advances, LeaveLoop;
    if s.control.loop.Reading? {
      LeaveLoopKeeps(c, s);
    }
  }

  lemma DeliveryIsOneOf(c: Config, s: State, p: nat)
    ensures Step(c, s, Deliver(p)) ==
      if s.control.loop.Reading? && p < |s.data.cursor| == |s.data.log| && s.data.cursor[p] < |s.data.log[p]| then
        if s.control.stopping then LeaveLoop(s) else Consume(c, s, p)
      else s
  {
    hide LeaveLoop, Consume;
  }

  lemma DeliveryKeeps(c: Config, s: State, p: nat)
    requires Good(c, s)
    ensures Advances(c, s, Step(c, s, Deliver(p)))
  {
    assert |s.data.cursor| == |s.data.log|;
    hide Step, Good, Advances, Consume, LeaveLoop;
    DeliveryIsOneOf(c, s, p);
    StandingStill(c, s);
    if s.control.loop.Reading? && p < |s.data.log| && s.data.cursor[p] < |s.data.log[p]| {
      DeliverKeeps(c, s, p);
    }
  }

  lemma FitReturnedKeeps(c: Config, s: State, ok: bool)
    requires Good(c, s)
    ensures Advances(c, s, FitReturned(c, s, ok))
  {
    if s.data.handler.Fit? {
      FitKeeps(c, s, ok);
    }
  }

  lemma FlushEventKeeps(c: Config, s: State, e: Event)
    requires Good(c, s) && (e.Lag? || e.TimerFires?)
    ensures Advances(c, s, Step(c, s, e))
  {
    hide Inv;
    DetachKeeps(c, s.data);
  }

  lemma ControlEventKeeps(c: Config, s: State, e: Event)
    requires Good(c, s) && (e.TopicGrows? || e.Crash? || e.Start? || e.Stop?)
    ensures Advances(c, s, Step(c, s, e))
  {
    match e
    case TopicGrows(log) => if Grows(s.data.log, log) { TopicGrowthKeeps(c, s.data, log); }
    case Crash => CrashKeeps(c, s.data);
    case _ =>
  }

  lemma StepKeeps(c: Config, s: State, e: Event)
    requires Good(c, s)
    ensures Advances(c, s, Step(c, s, e))
  {
    hide Good, Inv, Advances, DlqSent, FitReturned, BatchedSent, CommitReturned;
    match e
    case DlqSendDone(ok, landed) => DlqSendKeeps(c, s, ok, landed);
    case FitDone(ok) => FitReturnedKeeps(c, s, ok);
    case BatchedSendDone(ok, placed) => BatchedSendKeeps(c, s, ok, placed);
    case CommitDone(ok, partitions) => CommitReturnedKeeps(c, s, ok, partitions);
    case StreamEnds => StreamEndKeeps(c, s);
    case Deliver(p) => DeliveryKeeps(c, s, p);
    case Lag(_) => FlushEventKeeps(c, s, e);
    case TimerFires => FlushEventKeeps(c, s, e);
    case _ => ControlEventKeeps(c, s, e);
  }

  lemma InitIsGood(c: Config, log: seq<seq<Record>>, batchedPartitions: nat)
    ensures Good(c, Init(log, batchedPartitions))
  {
  }

  lemma {:induction false} RunIsGood(c: Config, log: seq<seq<Record>>, batchedPartitions: nat, es: seq<Event>)
    ensures Good(c, After(c, log, batchedPartitions, es))
  {
    if es == [] {
      InitIsGood(c, log, batchedPartitions);
    } else {
      RunIsGood(c, log, batchedPartitions, Front(es));
      StepKeeps(c, After(c, log, batchedPartitions, Front(es)), Last(es));
    }
  }

  // ---------------------------------------------------------------------------
  // Main results
  // ---------------------------------------------------------------------------

  /**
   * No loss: whatever is delivered, fails, lands in part or crashes, each authorized
   * or unparseable record below a committed offset is in a batched message or in the DLQ.
   */
  lemma NoRecordIsLost(c: Config, log: seq<seq<Record>>, batchedPartitions: nat, es: seq<Event>)
    ensures NoLoss(After(c, log, batchedPartitions, es).data)
  {
    RunIsGood(c, log, batchedPartitions, es);
  }

  /** A committed offset never decreases, also across restarts. */
  lemma {:induction false} CommittedNeverDecreases(c: Config, log: seq<seq<Record>>, batchedPartitions: nat, es: seq<Event>, more: seq<Event>)
    ensures var before, after := After(c, log, batchedPartitions, es).data.committed, After(c, log, batchedPartitions, es + more).data.committed;
      |before| == |after| && forall p :: 0 <= p < |before| ==> before[p] <= after[p]
  {
    if more == [] {
      assert es + more == es;
    } else {
      CommittedNeverDecreases(c, log, batchedPartitions, es, Front(more));
      var prior := es + Front(more);
      assert Front(es + more) == prior && Last(es + more) == Last(more);
      RunIsGood(c, log, batchedPartitions, prior);
      StepKeeps(c, After(c, log, batchedPartitions, prior), Last(more));
    }
  }

  /** In every reachable state the buffer holds, in arrival order, all that this process added and has not handled. */
  lemma BufferIsConserved(c: Config, log: seq<seq<Record>>, batchedPartitions: nat, es: seq<Event>)
    ensures var f := After(c, log, batchedPartitions, es).data.flusher;
      f.Conserved() && f.handled + f.Flying() + f.pending == f.added
  {
    RunIsGood(c, log, batchedPartitions, es);
  }

  /**
   * A drain whose last flush succeeds leaves nothing behind: everything added is
   * handled, and each partition's commit is the highest offset added.
   */
  lemma DrainLeavesNothing(c: Config, log: seq<seq<Record>>, batchedPartitions: nat, es: seq<Event>)
    requires After(c, log, batchedPartitions, es).control.loop == Ended(true)
    ensures var d := After(c, log, batchedPartitions, es).data;
      && d.flusher.handled == d.flusher.added && d.flusher.pending == [] && d.flusher.inFlight.None?
      && |d.committed| == |d.start|
      && forall p :: 0 <= p < |d.committed| ==> d.committed[p] == MaxOffset(d.flusher.added, p, d.start[p])
  {
    RunIsGood(c, log, batchedPartitions, es);
    var d := After(c, log, batchedPartitions, es).data;
    assert d.flusher.handled + [] + [] == d.flusher.handled;
    assert Reach(d.flusher) == d.flusher.handled;
  }

  // ---------------------------------------------------------------------------
  // What is published
  // ---------------------------------------------------------------------------

  /** A published message carries the compression of its own events, within the limit, its digest, and its batch id. */
  ghost predicate SoundMessage(c: Config, m: BatchedMessage) {
    && SoundPiece(Published(m.fitted), c.maxPayloadBytes, ItemCodec(c))
    && m.batchId == BatchId.ComputeBatchId(SourcesOf(m.fitted.events), c.sha256)
  }

  ghost predicate SoundTopic(c: Config, batched: seq<seq<BatchedMessage>>) {
    forall q, m :: 0 <= q < |batched| && m in batched[q] ==> SoundMessage(c, m)
  }

  lemma FittedMessagesAreSound(c: Config, batch: seq<Item>)
    ensures forall m <- ToMessages(c, Fitting(c, batch).batches) :: SoundMessage(c, m)
  {
    FitBatchKeepsEveryEvent(ValidOf(batch), c.maxPayloadBytes, ItemCodec(c));
    var fitted := Fitting(c, batch).batches;
    forall m <- ToMessages(c, fitted) ensures SoundMessage(c, m) {
      var i :| 0 <= i < |fitted| && ToMessages(c, fitted)[i] == m;
      assert fitted[i] in fitted && m.fitted == fitted[i];
    }
  }

  lemma PlacedTopicIsSound(c: Config, d: Data, ok: bool, placed: seq<Placed>)
    requires SoundTopic(c, d.batched)
    requires PlacedAs(ok, placed, ToMessages(c, Fitting(c, d.flusher.Flying()).batches), |d.batched|)
    ensures SoundTopic(c, Place(d.batched, placed)) && Grows(d.batched, Place(d.batched, placed))
  {
    FittedMessagesAreSound(c, d.flusher.Flying());
    var after := Place(d.batched, placed);
    forall q | 0 <= q < |d.batched|
      ensures d.batched[q] <= after[q] && forall m <- after[q] :: SoundMessage(c, m)
    {
      PlaceKeepsMessages(d.batched, placed, q);
    }
  }

  lemma OtherStepsPublishNothing(c: Config, s: State, e: Event)
    requires !e.BatchedSendDone?
    ensures Step(c, s, e).data.batched == s.data.batched
  {
    hide Fitting, ValidOf, PoisonOf, ToDlqAll, Delivered, AddAll, ItemsOf;
  }

  lemma StepKeepsTopicSound(c: Config, s: State, e: Event)
    requires SoundTopic(c, s.data.batched)
    ensures SoundTopic(c, Step(c, s, e).data.batched) && Grows(s.data.batched, Step(c, s, e).data.batched)
  {
    if e.BatchedSendDone? {
      if s.data.handler.BatchedSend?
         && PlacedAs(e.ok, e.placed, ToMessages(c, Fitting(c, s.data.flusher.Flying()).batches), |s.data.batched|) {
        PlacedTopicIsSound(c, s.data, e.ok, e.placed);
      }
    } else {
      OtherStepsPublishNothing(c, s, e);
    }
  }

  /** Every message ever published is sound, failed and repeated sends included. */
  lemma {:induction false} PublishedMessagesAreSound(c: Config, log: seq<seq<Record>>, batchedPartitions: nat, es: seq<Event>)
    ensures SoundTopic(c, After(c, log, batchedPartitions, es).data.batched)
  {
    if es != [] {
      PublishedMessagesAreSound(c, log, batchedPartitions, Front(es));
      StepKeepsTopicSound(c, After(c, log, batchedPartitions, Front(es)), Last(es));
    }
  }
}
