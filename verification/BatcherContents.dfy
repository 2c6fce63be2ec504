/**
 * What the batcher puts into Kafka, in terms of the records it read: which bytes a payload
 * compresses, and which record a dead letter is.
 */
module BatcherContents {
  import opened Common
  import opened PayloadBuilder
  import opened BatchFlushing
  import opened Batcher
  import opened BatcherSafety
  import BatcherCounters
  import BatcherIdentity
  import BatchId

  /** The item was made from the record at its place in the log; only what cannot be published is poison. */
  ghost predicate Stems(c: Config, log: seq<seq<Record>>, it: Item) {
    && it.partition < |log| && 0 < it.offset <= |log[it.partition]|
    && match log[it.partition][it.offset - 1] {
         case Authorized(envelope, sensorId, raw) =>
           it.raw == raw && (it.kind == Valid(envelope, sensorId) || (it.kind == Poison && !c.formats(sensorId)))
         case Unparseable(raw) => it.raw == raw && it.kind == Poison
         case _ => false
       }
  }

  /** The payload is the compression of these envelopes: those of the authorized records that the events name, in order. */
  ghost predicate Compresses(c: Config, log: seq<seq<Record>>, fitted: FittedBatch<Item>, envelopes: seq<Bytes>) {
    && |envelopes| == |fitted.events| > 0
    && (forall i :: 0 <= i < |envelopes| ==>
          var it := fitted.events[i];
          && it.partition < |log| && 0 < it.offset <= |log[it.partition]|
          && log[it.partition][it.offset - 1].Authorized?
          && log[it.partition][it.offset - 1].envelope == envelopes[i])
    && fitted.payload == c.compress(c.serialize(envelopes))
    && fitted.uncompressedSize == |c.serialize(envelopes)|
    && fitted.compressedSize == |fitted.payload| <= c.maxPayloadBytes
    && fitted.payloadHash == c.blake2(fitted.payload)
  }

  ghost predicate Genuine(c: Config, log: seq<seq<Record>>, fitted: FittedBatch<Item>) {
    exists envelopes :: Compresses(c, log, fitted, envelopes)
  }

  /** A dead letter is a record of the log, as it was read, that cannot be published for the reason given. */
  ghost predicate Rejects(c: Config, log: seq<seq<Record>>, m: DlqMessage) {
    && m.partition < |log| && 0 <= m.offset < |log[m.partition]|
    && match log[m.partition][m.offset] {
         case Authorized(envelope, sensorId, raw) =>
           && m.raw == raw
           && (m.reason.ParseError? ==> !c.formats(sensorId))
           && (m.reason.TooLarge? ==> |c.compress(c.serialize([envelope]))| > c.maxPayloadBytes)
         case Unparseable(raw) => m.raw == raw && m.reason == ParseError
         case _ => false
       }
  }

  ghost predicate Truthful(c: Config, d: Data) {
    && (forall it <- d.flusher.added :: Stems(c, d.log, it))
    && (forall q, m :: 0 <= q < |d.batched| && m in d.batched[q] ==> Genuine(c, d.log, m.fitted))
    && (forall m <- d.dlq :: Rejects(c, d.log, m))
  }

  // ---------------------------------------------------------------------------
  // The topic grows
  // ---------------------------------------------------------------------------

  lemma CompressesStays(c: Config, log: seq<seq<Record>>, grown: seq<seq<Record>>, fitted: FittedBatch<Item>, envelopes: seq<Bytes>)
    requires Grows(log, grown) && Compresses(c, log, fitted, envelopes)
    ensures Compresses(c, grown, fitted, envelopes)
  {
    forall i | 0 <= i < |envelopes|
      ensures var it := fitted.events[i];
        && it.partition < |grown| && 0 < it.offset <= |grown[it.partition]|
        && grown[it.partition][it.offset - 1] == log[it.partition][it.offset - 1]
    {
      var p := fitted.events[i].partition;
      assert log[p] <= grown[p];
    }
  }

  lemma GrowthKeeps(c: Config, d: Data, grown: seq<seq<Record>>)
    requires Truthful(c, d) && Grows(d.log, grown)
    ensures Truthful(c, d.(log := grown))
  {
    forall it <- d.flusher.added ensures Stems(c, grown, it) {
      assert Stems(c, d.log, it) && d.log[it.partition] <= grown[it.partition];
    }
    forall q, m: BatchedMessage | 0 <= q < |d.batched| && m in d.batched[q] ensures Genuine(c, grown, m.fitted) {
      var envelopes :| Compresses(c, d.log, m.fitted, envelopes);
      CompressesStays(c, d.log, grown, m.fitted, envelopes);
    }
    forall m <- d.dlq ensures Rejects(c, grown, m) {
      assert Rejects(c, d.log, m) && d.log[m.partition] <= grown[m.partition];
    }
  }

  // ---------------------------------------------------------------------------
  // What is added, published and rejected
  // ---------------------------------------------------------------------------

  lemma ReadItemsStem(c: Config, log: seq<seq<Record>>, p: nat, o: nat)
    requires p < |log| && o < |log[p]|
    ensures forall it <- ItemsOf(c, log[p][o], p, o) :: Stems(c, log, it)
  {
  }

  lemma ReceivingKeeps(c: Config, d: Data, p: nat)
    requires Truthful(c, d) && p < |d.cursor| == |d.log| && d.cursor[p] < |d.log[p]|
    ensures Truthful(c, Receive(c, d, p))
  {
    BatcherCounters.AddAllAdds(d.flusher, ItemsOf(c, d.log[p][d.cursor[p]], p, d.cursor[p]));
    ReadItemsStem(c, d.log, p, d.cursor[p]);
    hide ItemsOf, AddAll, Stems, Genuine, Rejects;
  }

  /** The codec hands the serializer the envelopes of the events, in order. */
  lemma EnvelopesOfItems(c: Config, events: seq<Item>, envelopes: seq<Bytes>)
    requires |envelopes| == |events|
    requires forall i :: 0 <= i < |events| ==> events[i].kind.Valid? && events[i].kind.envelope == envelopes[i]
    ensures Serialize(events, ItemCodec(c)) == c.serialize(envelopes)
    ensures SerializeAndCompress(events, ItemCodec(c)) == c.compress(c.serialize(envelopes))
  {
    assert Envelopes(events, ItemCodec(c)) == envelopes;
  }

  lemma FittedIsGenuine(c: Config, log: seq<seq<Record>>, b: FittedBatch<Item>)
    requires SoundPiece(Published(b), c.maxPayloadBytes, ItemCodec(c))
    requires forall it <- b.events :: it.kind.Valid? && Stems(c, log, it)
    ensures Genuine(c, log, b)
  {
    var envelopes := seq(|b.events|, i requires 0 <= i < |b.events| => b.events[i].kind.envelope);
    EnvelopesOfItems(c, b.events, envelopes);
    forall i | 0 <= i < |envelopes|
      ensures var it := b.events[i];
        && it.partition < |log| && 0 < it.offset <= |log[it.partition]|
        && log[it.partition][it.offset - 1].Authorized? && log[it.partition][it.offset - 1].envelope == envelopes[i]
    {
      assert Stems(c, log, b.events[i]);
    }
    assert Compresses(c, log, b, envelopes);
  }

  /** What the batch in flight consists of stems from the log. */
  lemma FlyingStems(c: Config, d: Data)
    requires Truthful(c, d) && d.flusher.Conserved()
    ensures forall it <- d.flusher.Flying() :: Stems(c, d.log, it)
  {
    var f := d.flusher;
    forall it <- f.Flying() ensures it in f.added {
      assert it in f.handled + f.Flying() + f.pending;
    }
  }

  lemma PublishingKeeps(c: Config, d: Data, ok: bool, placed: seq<Placed>)
    requires Truthful(c, d) && d.flusher.Conserved()
    requires PlacedAs(ok, placed, ToMessages(c, Fitting(c, d.flusher.Flying()).batches), |d.batched|)
    ensures Truthful(c, d.(batched := Place(d.batched, placed)))
  {
    hide Stems, Compresses, Genuine, Rejects, SoundPiece, FitBatch;
    var batch := d.flusher.Flying();
    var after := Place(d.batched, placed);
    FlyingStems(c, d);
    ValidOrPoison(batch);
    FitBatchKeepsEveryEvent(ValidOf(batch), c.maxPayloadBytes, ItemCodec(c));
    var fitted := Fitting(c, batch).batches;
    forall q, m: BatchedMessage | 0 <= q < |after| && m in after[q] ensures Genuine(c, d.log, m.fitted) {
      PlaceKeepsMessages(d.batched, placed, q);
      if m !in d.batched[q] {
        assert Placed(q, m) in placed;
        var i :| 0 <= i < |fitted| && ToMessages(c, fitted)[i] == m;
        assert fitted[i] in fitted;
        FittedIsGenuine(c, d.log, fitted[i]);
      }
    }
  }

  lemma PoisonIsRejected(c: Config, log: seq<seq<Record>>, it: Item)
    requires Stems(c, log, it) && it.kind.Poison?
    ensures Rejects(c, log, ToDlq(it, ParseError))
  {
  }

  lemma OversizedIsRejected(c: Config, log: seq<seq<Record>>, o: OversizedItem<Item>)
    requires Stems(c, log, o.event) && o.event.kind.Valid?
    requires SoundPiece(PayloadBuilder.Rejected(o), c.maxPayloadBytes, ItemCodec(c))
    ensures Rejects(c, log, ToDlq(o.event, TooLarge))
  {
    EnvelopesOfItems(c, [o.event], [o.event.kind.envelope]);
  }

  lemma PoisonLettersAreRejects(c: Config, d: Data, m: DlqMessage)
    requires Truthful(c, d) && d.flusher.Conserved() && m in ToDlqAll(PoisonOf(d.flusher.Flying()), ParseError)
    ensures Rejects(c, d.log, m)
  {
    hide Rejects, Stems;
    var poison := PoisonOf(d.flusher.Flying());
    FlyingStems(c, d);
    ValidOrPoison(d.flusher.Flying());
    var i :| 0 <= i < |poison| && ToDlqAll(poison, ParseError)[i] == m;
    assert poison[i] in poison;
    PoisonIsRejected(c, d.log, poison[i]);
  }

  lemma OversizedLettersAreRejects(c: Config, d: Data, m: DlqMessage)
    requires Truthful(c, d) && d.flusher.Conserved()
    requires m in ToDlqAll(Events(Fitting(c, d.flusher.Flying()).oversized), TooLarge)
    ensures Rejects(c, d.log, m)
  {
    hide Rejects, Stems, SoundPiece, FitBatch;
    var batch := d.flusher.Flying();
    var oversized := Fitting(c, batch).oversized;
    FlyingStems(c, d);
    ValidOrPoison(batch);
    FitBatchKeepsEveryEvent(ValidOf(batch), c.maxPayloadBytes, ItemCodec(c));
    var i :| 0 <= i < |oversized| && ToDlqAll(Events(oversized), TooLarge)[i] == m;
    assert oversized[i] in oversized && Events(oversized)[i] == oversized[i].event;
    OversizedIsRejected(c, d.log, oversized[i]);
  }

  // ---------------------------------------------------------------------------
  // Every step
  // ---------------------------------------------------------------------------

  /** A step adds only what landed to the DLQ, and grows the log only with the topic. */
  lemma DlqOf(c: Config, s: State, ok: bool, landed: seq<DlqMessage>)
    ensures var s1 := Step(c, s, DlqSendDone(ok, landed));
      var batch := s.data.flusher.Flying();
      && s1.data.log == s.data.log && s1.data.batched == s.data.batched
      && (s1.data.dlq == s.data.dlq
          || (s1.data.dlq == s.data.dlq + landed
              && ((forall m <- landed :: m in ToDlqAll(PoisonOf(batch), ParseError))
                  || (forall m <- landed :: m in ToDlqAll(Events(Fitting(c, batch).oversized), TooLarge)))))
  {
    hide PoisonOf, ToDlqAll, Fitting, ValidOf, Events;
  }

  lemma BatchedOf(c: Config, s: State, ok: bool, placed: seq<Placed>)
    ensures var s1 := Step(c, s, BatchedSendDone(ok, placed));
      && s1.data.log == s.data.log && s1.data.dlq == s.data.dlq
      && (s1.data.batched == s.data.batched
          || (PlacedAs(ok, placed, ToMessages(c, Fitting(c, s.data.flusher.Flying()).batches), |s.data.batched|)
              && s1.data.batched == Place(s.data.batched, placed)))
  {
    hide PlacedAs, Place, ToMessages, Fitting, SumEvents;
  }

  lemma OthersWriteNothing(c: Config, s: State, e: Event)
    requires !e.DlqSendDone? && !e.BatchedSendDone? && !e.TopicGrows?
    ensures var d1 := Step(c, s, e).data; d1.log == s.data.log && d1.dlq == s.data.dlq && d1.batched == s.data.batched
  {
    hide Fitting, ValidOf, AddAll, ItemsOf, CommitInto;
  }

  lemma SameRecordsKeep(c: Config, d: Data, d1: Data)
    requires Truthful(c, d)
    requires d1.log == d.log && d1.dlq == d.dlq && d1.batched == d.batched && d1.flusher.added == d.flusher.added
    ensures Truthful(c, d1)
  {
    hide Stems, Genuine, Rejects;
  }

  lemma DlqSendKeepsTruthful(c: Config, s: State, ok: bool, landed: seq<DlqMessage>)
    requires Truthful(c, s.data) && s.data.flusher.Conserved()
    ensures Truthful(c, Step(c, s, DlqSendDone(ok, landed)).data)
  {
    hide Step, Stems, Genuine, Rejects, PoisonOf, ToDlqAll, Fitting, Events, Flusher.Conserved, Flusher.Flying;
    var e := DlqSendDone(ok, landed);
    DlqOf(c, s, ok, landed);
    BatcherIdentity.AddedStays(c, s, e);
    forall m <- Step(c, s, e).data.dlq ensures Rejects(c, s.data.log, m) {
      if m !in s.data.dlq {
        if m in ToDlqAll(PoisonOf(s.data.flusher.Flying()), ParseError) {
          PoisonLettersAreRejects(c, s.data, m);
        } else {
          OversizedLettersAreRejects(c, s.data, m);
        }
      }
    }
  }

  lemma BatchedSendKeepsTruthful(c: Config, s: State, ok: bool, placed: seq<Placed>)
    requires Truthful(c, s.data) && s.data.flusher.Conserved()
    ensures Truthful(c, Step(c, s, BatchedSendDone(ok, placed)).data)
  {
    hide Step, Truthful, Place, ToMessages, Fitting;
    var e := BatchedSendDone(ok, placed);
    BatchedOf(c, s, ok, placed);
    BatcherIdentity.AddedStays(c, s, e);
    var d1 := Step(c, s, e).data;
    if d1.batched == s.data.batched {
      SameRecordsKeep(c, s.data, d1);
    } else {
      PublishingKeeps(c, s.data, ok, placed);
      SameRecordsKeep(c, s.data.(batched := Place(s.data.batched, placed)), d1);
    }
  }

  lemma StepKeepsTruthful(c: Config, s: State, e: Event)
    requires Good(c, s) && Truthful(c, s.data)
    ensures Truthful(c, Step(c, s, e).data)
  {
    assert s.data.flusher.Conserved();
    hide Step, Truthful, Good, Receive, Flusher.Conserved;
    match e
    case TopicGrows(log) => TopicKeeps(c, s, log);
    case DlqSendDone(ok, landed) => DlqSendKeepsTruthful(c, s, ok, landed);
    case BatchedSendDone(ok, placed) => BatchedSendKeepsTruthful(c, s, ok, placed);
    case Deliver(p) =>
      OthersWriteNothing(c, s, e);
      BatcherIdentity.DeliveryAdds(c, s, p);
      if Step(c, s, e).data.flusher.added == s.data.flusher.added {
        SameRecordsKeep(c, s.data, Step(c, s, e).data);
      } else {
        ReceivingKeeps(c, s.data, p);
        ReceivingWritesNothing(c, s.data, p);
        SameRecordsKeep(c, Receive(c, s.data, p), Step(c, s, e).data);
      }
    case Crash => CrashKeepsTruthful(c, s);
    case _ =>
      OthersWriteNothing(c, s, e);
      BatcherIdentity.AddedStays(c, s, e);
      SameRecordsKeep(c, s.data, Step(c, s, e).data);
  }

  lemma ReceivingWritesNothing(c: Config, d: Data, p: nat)
    requires p < |d.cursor| == |d.log| && d.cursor[p] < |d.log[p]|
    ensures var d1 := Receive(c, d, p); d1.log == d.log && d1.dlq == d.dlq && d1.batched == d.batched
  {
  }

  lemma TopicKeeps(c: Config, s: State, log: seq<seq<Record>>)
    requires Truthful(c, s.data)
    ensures Truthful(c, Step(c, s, TopicGrows(log)).data)
  {
    hide Truthful;
    if Grows(s.data.log, log) {
      GrowthKeeps(c, s.data, log);
    }
  }

  lemma CrashKeepsTruthful(c: Config, s: State)
    requires Truthful(c, s.data)
    ensures Truthful(c, Step(c, s, Crash).data)
  {
    hide Stems, Genuine, Rejects;
  }

  lemma InitIsTruthful(c: Config, log: seq<seq<Record>>, batchedPartitions: nat)
    ensures Truthful(c, Init(log, batchedPartitions).data)
  {
  }

  /**
   * In every reachable state each published payload compresses the envelopes of the authorized
   * records that its events name, in order, and each dead letter is a record, as it was read,
   * that does not parse, whose sensor id does not format, or that is too large alone.
   */
  lemma {:induction false} WhatIsWrittenIsRead(c: Config, log: seq<seq<Record>>, batchedPartitions: nat, es: seq<Event>)
    ensures Truthful(c, After(c, log, batchedPartitions, es).data)
  {
    if es == [] {
      InitIsTruthful(c, log, batchedPartitions);
    } else {
      hide Truthful, Good, Step;
      WhatIsWrittenIsRead(c, log, batchedPartitions, Front(es));
      RunIsGood(c, log, batchedPartitions, Front(es));
      StepKeepsTruthful(c, After(c, log, batchedPartitions, Front(es)), Last(es));
    }
  }

  /** Message `i` of partition `q` publishes the envelope of the record at (p, o), among `envelopes`. */
  ghost predicate PublishesAt(c: Config, d: Data, q: nat, i: nat, envelopes: seq<Bytes>, p: nat, o: nat)
    requires q < |d.batched| && i < |d.batched[q]|
  {
    var fitted := d.batched[q][i].fitted;
    && Compresses(c, d.log, fitted, envelopes)
    && exists k :: 0 <= k < |envelopes| && fitted.events[k].partition == p && fitted.events[k].offset == o + 1
  }

  ghost predicate DeadLettered(d: Data, p: nat, o: nat)
    requires p < |d.log| && o < |d.log[p]| && (d.log[p][o].Authorized? || d.log[p][o].Unparseable?)
  {
    exists m <- d.dlq :: m.partition == p && m.offset == o && m.raw == d.log[p][o].raw
  }

  /** Each authorized or unparseable record below a committed offset: its raw bytes are in the DLQ, or its envelope is in a payload. */
  lemma RecordsAreDelivered(c: Config, log: seq<seq<Record>>, batchedPartitions: nat, es: seq<Event>, p: nat, o: nat)
    requires var d := After(c, log, batchedPartitions, es).data;
      p < |d.log| && |d.committed| == |d.log| && o < d.committed[p] && o < |d.log[p]|
      && (d.log[p][o].Authorized? || d.log[p][o].Unparseable?)
    ensures var d := After(c, log, batchedPartitions, es).data;
      DeadLettered(d, p, o)
      || exists q, i, envelopes :: 0 <= q < |d.batched| && 0 <= i < |d.batched[q]| && PublishesAt(c, d, q, i, envelopes, p, o)
  {
    NoRecordIsLost(c, log, batchedPartitions, es);
    WhatIsWrittenIsRead(c, log, batchedPartitions, es);
    hide After, Compresses;
    var d := After(c, log, batchedPartitions, es).data;
    assert Safe(d, p, o);
    var it: Item :| it.partition == p && it.offset == o + 1 && ItemOf(d.log, it) && Covered(d, it);
    if InDlq(d.dlq, it) {
      var reason :| ToDlq(it, reason) in d.dlq;
      assert Rejects(c, d.log, ToDlq(it, reason));
    } else {
      var q, m: BatchedMessage :| 0 <= q < |d.batched| && m in d.batched[q] && it in m.fitted.events;
      var i :| 0 <= i < |d.batched[q]| && d.batched[q][i] == m;
      var envelopes := PublishedWithItem(c, d, q, i, it);
    }
  }

  lemma PublishedWithItem(c: Config, d: Data, q: nat, i: nat, it: Item) returns (envelopes: seq<Bytes>)
    requires q < |d.batched| && i < |d.batched[q]| && Genuine(c, d.log, d.batched[q][i].fitted) && it in d.batched[q][i].fitted.events
    requires it.offset > 0
    ensures PublishesAt(c, d, q, i, envelopes, it.partition, it.offset - 1)
  {
    var fitted := d.batched[q][i].fitted;
    envelopes :| Compresses(c, d.log, fitted, envelopes);
    var k :| 0 <= k < |fitted.events| && fitted.events[k] == it;
  }

  /** The identifier digests the fingerprint of the (partition, offset) pairs of the message's own events. */
  ghost predicate NamesItsEvents(c: Config, m: BatchedMessage) {
    exists sources: seq<BatchId.Source> ::
      && |sources| == |m.fitted.events|
      && (forall i :: 0 <= i < |sources| ==>
            sources[i].partition == m.fitted.events[i].partition && sources[i].offset == m.fitted.events[i].offset)
      && m.batchId == c.sha256(BatchId.Fingerprint(sources))
  }

  lemma PublishedIdsNameTheirEvents(c: Config, log: seq<seq<Record>>, batchedPartitions: nat, es: seq<Event>)
    ensures var d := After(c, log, batchedPartitions, es).data;
      forall q, m :: 0 <= q < |d.batched| && m in d.batched[q] ==> NamesItsEvents(c, m)
  {
    PublishedMessagesAreSound(c, log, batchedPartitions, es);
    hide After, SoundPiece;
    var d := After(c, log, batchedPartitions, es).data;
    forall q, m: BatchedMessage | 0 <= q < |d.batched| && m in d.batched[q] ensures NamesItsEvents(c, m) {
      assert SoundMessage(c, m);
      var sources := SourcesOf(m.fitted.events);
      assert m.batchId == c.sha256(BatchId.Fingerprint(sources));
    }
  }

  // ---------------------------------------------------------------------------
  // The order within a payload
  // ---------------------------------------------------------------------------

  /** The events of one partition stand in the order of their records, and none twice. */
  ghost predicate InReadingOrder(events: seq<Item>) {
    forall i, j :: 0 <= i < j < |events| && events[i].partition == events[j].partition ==> events[i].offset < events[j].offset
  }

  lemma OrderedSnoc(items: seq<Item>, x: Item)
    requires Ordered(items) && forall it <- items :: it.partition == x.partition ==> it.offset <= x.offset
    ensures Ordered(items + [x])
  {
  }

  lemma LastIsLatest(items: seq<Item>)
    requires items != [] && Ordered(items)
    ensures Ordered(Front(items)) && forall it <- Front(items) :: it.partition == Last(items).partition ==> it.offset <= Last(items).offset
  {
    forall it <- Front(items) ensures it.partition == Last(items).partition ==> it.offset <= Last(items).offset {
      var i :| 0 <= i < |items| - 1 && items[i] == it;
    }
  }

  lemma {:induction false} ValidOfOrdered(items: seq<Item>)
    requires Ordered(items)
    ensures Ordered(ValidOf(items))
  {
    if items != [] {
      LastIsLatest(items);
      ValidOfOrdered(Front(items));
      ValidOrPoison(Front(items));
      OrderedSnoc(ValidOf(Front(items)), Last(items));
      hide Ordered;
      assert ValidOf(Front(items)) + [] == ValidOf(Front(items));
    }
  }

  lemma OrderedAndOnce(items: seq<Item>)
    requires Ordered(items) && BatcherIdentity.Once(items)
    ensures InReadingOrder(ValidOf(items))
  {
    ValidOfOrdered(items);
    var valid := ValidOf(items);
    forall i, j | 0 <= i < j < |valid| && valid[i].partition == valid[j].partition ensures valid[i].offset < valid[j].offset {
      assert SourcesOf(valid)[i] != SourcesOf(valid)[j];
    }
    hide ValidOf;
  }

  lemma OrderedMiddle(before: seq<Item>, items: seq<Item>, rest: seq<Item>)
    requires Ordered(before + items + rest)
    ensures Ordered(items)
  {
    var all := before + items + rest;
    forall i, j | 0 <= i < j < |items| && items[i].partition == items[j].partition ensures items[i].offset <= items[j].offset {
      assert all[|before| + i] == items[i] && all[|before| + j] == items[j];
    }
  }

  /** What the batch in flight of a reachable state is fitted into. */
  lemma FlyingInOrder(c: Config, log: seq<seq<Record>>, batchedPartitions: nat, es: seq<Event>, b: FittedBatch<Item>)
    requires b in Fitting(c, After(c, log, batchedPartitions, es).data.flusher.Flying()).batches
    ensures InReadingOrder(b.events)
  {
    var f := After(c, log, batchedPartitions, es).data.flusher;
    RunIsGood(c, log, batchedPartitions, es);
    assert Ordered(f.handled + f.Flying() + f.pending);
    hide After, FitBatch, Ordered, InReadingOrder, ValidOf;
    OrderedMiddle(f.handled, f.Flying(), f.pending);
    BatcherIdentity.BufferedOnce(c, log, batchedPartitions, es, f.Flying());
    OrderedAndOnce(f.Flying());
    var valid := ValidOf(f.Flying());
    var lo, hi := BatcherIdentity.FittedIsReached(valid, c.maxPayloadBytes, ItemCodec(c), b);
    SegmentInOrder(valid, lo, hi);
  }

  lemma SegmentInOrder(events: seq<Item>, lo: nat, hi: nat)
    requires InReadingOrder(events) && lo <= hi <= |events|
    ensures InReadingOrder(events[lo..hi])
  {
  }

  /** Every published payload holds its events in the order in which their records were read, each once. */
  lemma {:induction false} PublishedInReadingOrder(c: Config, log: seq<seq<Record>>, batchedPartitions: nat, es: seq<Event>)
    ensures var d := After(c, log, batchedPartitions, es).data;
      forall q, m :: 0 <= q < |d.batched| && m in d.batched[q] ==> InReadingOrder(m.fitted.events)
  {
    if es != [] {
      PublishedInReadingOrder(c, log, batchedPartitions, Front(es));
      var s, e := After(c, log, batchedPartitions, Front(es)), Last(es);
      var batched := Step(c, s, e).data.batched;
      hide Step, InReadingOrder, Place, FitBatch;
      if e.BatchedSendDone? {
        BatchedOf(c, s, e.ok, e.placed);
        forall q, m: BatchedMessage | 0 <= q < |batched| && m in batched[q] ensures InReadingOrder(m.fitted.events) {
          if batched != s.data.batched {
            PlaceKeepsMessages(s.data.batched, e.placed, q);
            if m !in s.data.batched[q] {
              assert Placed(q, m) in e.placed;
              var fitted := Fitting(c, s.data.flusher.Flying()).batches;
              var i :| 0 <= i < |fitted| && ToMessages(c, fitted)[i] == m;
              FlyingInOrder(c, log, batchedPartitions, Front(es), fitted[i]);
            }
          }
        }
      } else {
        OtherStepsPublishNothing(c, s, e);
      }
    }
  }
}
