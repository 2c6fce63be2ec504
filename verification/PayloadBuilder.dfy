/**
 * Fitting a batch into chain-ready payloads (services/batcher/src/payload-builder.ts).
 *
 * Serialization, zstd and blake2 are arbitrary functions: nothing is assumed
 * about sizes, so every result below holds for any compressor.
 */
module PayloadBuilder {
  import opened Common

  /** The three library functions a fit goes through, and the envelope of an event. */
  datatype Codec<!T> = Codec(
    envelope: T -> Bytes,
    serialize: seq<Bytes> -> Bytes,
    compress: Bytes -> Bytes,
    hash: Bytes -> Bytes)

  datatype FittedBatch<T> = FittedBatch(
    events: seq<T>,
    payload: Bytes,
    uncompressedSize: nat,
    compressedSize: nat,
    payloadHash: Bytes)

  datatype OversizedItem<T> = OversizedItem(event: T, compressedSize: nat, maxPayloadBytes: int)

  datatype FitOutcome<T> = FitOutcome(batches: seq<FittedBatch<T>>, oversized: seq<OversizedItem<T>>)

  function Envelopes<T>(events: seq<T>, c: Codec<T>): seq<Bytes> {
    seq(|events|, i requires 0 <= i < |events| => c.envelope(events[i]))
  }

  function Serialize<T>(events: seq<T>, c: Codec<T>): Bytes {
    c.serialize(Envelopes(events, c))
  }

  function SerializeAndCompress<T>(events: seq<T>, c: Codec<T>): Bytes {
    c.compress(Serialize(events, c))
  }

  predicate Fits<T>(events: seq<T>, limit: int, c: Codec<T>) {
    |SerializeAndCompress(events, c)| <= limit
  }

  function Wrap<T>(events: seq<T>, c: Codec<T>): FittedBatch<T> {
    var payload := SerializeAndCompress(events, c);
    FittedBatch(events, payload, |Serialize(events, c)|, |payload|, c.hash(payload))
  }

  function FitBatch<T>(events: seq<T>, limit: int, c: Codec<T>): FitOutcome<T>
    decreases |events|
  {
    if |events| == 0 then
      FitOutcome([], [])
    else if Fits(events, limit, c) then
      FitOutcome([Wrap(events, c)], [])
    else if |events| == 1 then
      FitOutcome([], [OversizedItem(events[0], |SerializeAndCompress(events, c)|, limit)])
    else
      var middle := (|events| + 1) / 2;
      var first := FitBatch(events[..middle], limit, c);
      var second := FitBatch(events[middle..], limit, c);
      FitOutcome(first.batches + second.batches, first.oversized + second.oversized)
  }

  // ---------------------------------------------------------------------------
  // Conservation, order and size
  // ---------------------------------------------------------------------------

  /** One segment of the input: published together, or a single event given up on. */
  datatype Piece<T> = Published(batch: FittedBatch<T>) | Rejected(item: OversizedItem<T>)

  function PieceEvents<T>(p: Piece<T>): seq<T> {
    match p
    case Published(b) => b.events
    case Rejected(o) => [o.event]
  }

  function Flatten<T>(pieces: seq<Piece<T>>): seq<T> {
    if pieces == [] then [] else PieceEvents(pieces[0]) + Flatten(pieces[1..])
  }

  function PublishedOf<T>(pieces: seq<Piece<T>>): seq<FittedBatch<T>> {
    if pieces == [] then []
    else (if pieces[0].Published? then [pieces[0].batch] else []) + PublishedOf(pieces[1..])
  }

  function RejectedOf<T>(pieces: seq<Piece<T>>): seq<OversizedItem<T>> {
    if pieces == [] then []
    else (if pieces[0].Rejected? then [pieces[0].item] else []) + RejectedOf(pieces[1..])
  }

  /** What each segment promises on its own. */
  predicate SoundPiece<T(==)>(p: Piece<T>, limit: int, c: Codec<T>) {
    match p
    case Published(b) =>
      && b.events != []
      && b.payload == SerializeAndCompress(b.events, c)
      && |b.payload| == b.compressedSize <= limit
      && b.uncompressedSize == |Serialize(b.events, c)|
      && b.payloadHash == c.hash(b.payload)
    case Rejected(o) =>
      && !Fits([o.event], limit, c)
      && o.compressedSize == |SerializeAndCompress([o.event], c)|
      && o.maxPayloadBytes == limit
  }

  lemma {:induction false} FlattenConcat<T>(a: seq<Piece<T>>, b: seq<Piece<T>>)
    ensures Flatten(a + b) == Flatten(a) + Flatten(b)
  {
    if a == [] {
      assert a + b == b;
    } else {
      assert (a + b)[0] == a[0] && (a + b)[1..] == a[1..] + b;
      FlattenConcat(a[1..], b);
    }
  }

  lemma {:induction false} PublishedConcat<T>(a: seq<Piece<T>>, b: seq<Piece<T>>)
    ensures PublishedOf(a + b) == PublishedOf(a) + PublishedOf(b)
  {
    if a == [] {
      assert a + b == b;
    } else {
      assert (a + b)[0] == a[0] && (a + b)[1..] == a[1..] + b;
      PublishedConcat(a[1..], b);
    }
  }

  lemma {:induction false} RejectedConcat<T>(a: seq<Piece<T>>, b: seq<Piece<T>>)
    ensures RejectedOf(a + b) == RejectedOf(a) + RejectedOf(b)
  {
    if a == [] {
      assert a + b == b;
    } else {
      assert (a + b)[0] == a[0] && (a + b)[1..] == a[1..] + b;
      RejectedConcat(a[1..], b);
    }
  }

  lemma WholeIsOnePiece<T>(events: seq<T>, limit: int, c: Codec<T>)
    requires events != [] && Fits(events, limit, c)
    ensures var pieces := [Published(Wrap(events, c))];
      && Flatten(pieces) == events && SoundPiece(pieces[0], limit, c)
      && FitBatch(events, limit, c) == FitOutcome(PublishedOf(pieces), RejectedOf(pieces))
  {
    assert Flatten<T>([]) == [] && PublishedOf<T>([]) == [] && RejectedOf<T>([]) == [];
  }

  lemma OversizedIsOnePiece<T>(x: T, limit: int, c: Codec<T>)
    requires !Fits([x], limit, c)
    ensures var pieces := [Rejected(OversizedItem(x, |SerializeAndCompress([x], c)|, limit))];
      && Flatten(pieces) == [x] && SoundPiece(pieces[0], limit, c)
      && FitBatch([x], limit, c) == FitOutcome(PublishedOf(pieces), RejectedOf(pieces))
  {
    assert Flatten<T>([]) == [] && PublishedOf<T>([]) == [] && RejectedOf<T>([]) == [];
  }

  /**
   * The input is cut into contiguous segments, in order, none empty; the outcome
   * lists exactly the published ones and exactly the rejected ones, in input order.
   */
  lemma {:induction false} FitBatchPartitions<T>(events: seq<T>, limit: int, c: Codec<T>) returns (pieces: seq<Piece<T>>)
    ensures Flatten(pieces) == events
    ensures FitBatch(events, limit, c) == FitOutcome(PublishedOf(pieces), RejectedOf(pieces))
    ensures forall p <- pieces :: SoundPiece(p, limit, c)
    decreases |events|
  {
    hide SoundPiece, Fits, SerializeAndCompress;
    if |events| == 0 {
      pieces := [];
    } else if Fits(events, limit, c) {
      hide FitBatch, Flatten, PublishedOf, RejectedOf;
      WholeIsOnePiece(events, limit, c);
      pieces := [Published(Wrap(events, c))];
    } else if |events| == 1 {
      hide FitBatch, Flatten, PublishedOf, RejectedOf;
      assert events == [events[0]];
      OversizedIsOnePiece(events[0], limit, c);
      pieces := [Rejected(OversizedItem(events[0], |SerializeAndCompress([events[0]], c)|, limit))];
    } else {
      hide Flatten, PublishedOf, RejectedOf;
      var middle := (|events| + 1) / 2;
      var first := FitBatchPartitions(events[..middle], limit, c);
      var second := FitBatchPartitions(events[middle..], limit, c);
      FlattenConcat(first, second);
      PublishedConcat(first, second);
      RejectedConcat(first, second);
      assert events[..middle] + events[middle..] == events;
      pieces := first + second;
    }
  }

  lemma {:induction false} MemberIsInAPiece<T>(pieces: seq<Piece<T>>, x: T)
    requires x in Flatten(pieces)
    ensures (exists b <- PublishedOf(pieces) :: x in b.events) || (exists o <- RejectedOf(pieces) :: o.event == x)
  {
    if x in PieceEvents(pieces[0]) {
      match pieces[0]
      case Published(b) => assert PublishedOf(pieces)[0] == b;
      case Rejected(o) => assert RejectedOf(pieces)[0] == o;
    } else {
      MemberIsInAPiece(pieces[1..], x);
    }
  }

  /** The two lists of the outcome hold sound segments of the input and nothing else. */
  lemma {:induction false} OutcomeIsSound<T>(pieces: seq<Piece<T>>, limit: int, c: Codec<T>)
    requires forall p <- pieces :: SoundPiece(p, limit, c)
    ensures forall b <- PublishedOf(pieces) ::
              SoundPiece(Published(b), limit, c) && forall x <- b.events :: x in Flatten(pieces)
    ensures forall o <- RejectedOf(pieces) :: SoundPiece(Rejected(o), limit, c) && o.event in Flatten(pieces)
  {
    if pieces != [] {
      assert SoundPiece(pieces[0], limit, c);
      OutcomeIsSound(pieces[1..], limit, c);
    }
  }

  /** Nothing is lost: every event is published in some payload or reported as oversized. */
  lemma FitBatchKeepsEveryEvent<T>(events: seq<T>, limit: int, c: Codec<T>)
    ensures var r := FitBatch(events, limit, c);
      && (forall x <- events :: (exists b <- r.batches :: x in b.events) || (exists o <- r.oversized :: o.event == x))
      && (forall b <- r.batches :: SoundPiece(Published(b), limit, c) && forall x <- b.events :: x in events)
      && (forall o <- r.oversized :: SoundPiece(Rejected(o), limit, c) && o.event in events)
  {
    var pieces := FitBatchPartitions(events, limit, c);
    forall x <- events
      ensures var r := FitBatch(events, limit, c);
        (exists b <- r.batches :: x in b.events) || (exists o <- r.oversized :: o.event == x)
    {
      MemberIsInAPiece(pieces, x);
    }
    OutcomeIsSound(pieces, limit, c);
  }

  /** The envelopes of the events, in order. */
  ghost predicate AreEnvelopes<T>(envelopes: seq<Bytes>, events: seq<T>, c: Codec<T>) {
    |envelopes| == |events| && forall i :: 0 <= i < |events| ==> envelopes[i] == c.envelope(events[i])
  }

  /** The payload is the compressed serialization of the envelopes of its own events, and within the limit. */
  ghost predicate PublishedBytes<T>(b: FittedBatch<T>, limit: int, c: Codec<T>) {
    exists envelopes :: AreEnvelopes(envelopes, b.events, c)
      && b.payload == c.compress(c.serialize(envelopes))
      && b.uncompressedSize == |c.serialize(envelopes)|
      && b.compressedSize == |b.payload| <= limit
      && b.payloadHash == c.hash(b.payload)
  }

  /** Alone, the event's envelope compresses to more than the limit, and to the size reported. */
  ghost predicate RejectedBytes<T>(o: OversizedItem<T>, limit: int, c: Codec<T>) {
    && |c.compress(c.serialize([c.envelope(o.event)]))| == o.compressedSize > limit
    && o.maxPayloadBytes == limit
  }

  lemma EnvelopesAre<T>(events: seq<T>, c: Codec<T>)
    ensures AreEnvelopes(Envelopes(events, c), events, c)
  {
  }

  /** What is published and what is rejected, in bytes. */
  lemma FitBatchInBytes<T>(events: seq<T>, limit: int, c: Codec<T>)
    ensures forall b <- FitBatch(events, limit, c).batches :: PublishedBytes(b, limit, c)
    ensures forall o <- FitBatch(events, limit, c).oversized :: RejectedBytes(o, limit, c)
  {
    var r := FitBatch(events, limit, c);
    FitBatchKeepsEveryEvent(events, limit, c);
    hide FitBatch;
    forall b <- r.batches ensures PublishedBytes(b, limit, c) {
      assert SoundPiece(Published(b), limit, c);
      EnvelopesAre(b.events, c);
    }
    forall o <- r.oversized ensures RejectedBytes(o, limit, c) {
      assert SoundPiece(Rejected(o), limit, c);
      assert Envelopes([o.event], c) == [c.envelope(o.event)];
    }
  }

  /** A batch is published as a whole exactly if it is not empty and its bytes are within the limit. */
  lemma WholeExactlyIfItFits<T>(events: seq<T>, limit: int, c: Codec<T>, envelopes: seq<Bytes>)
    requires AreEnvelopes(envelopes, events, c)
    ensures events != [] && |c.compress(c.serialize(envelopes))| <= limit
      <==> exists b :: FitBatch(events, limit, c) == FitOutcome([b], []) && b.events == events
  {
    assert Envelopes(events, c) == envelopes;
    if b :| FitBatch(events, limit, c) == FitOutcome([b], []) && b.events == events {
      FitBatchKeepsEveryEvent(events, limit, c);
      assert b in FitBatch(events, limit, c).batches;
      hide FitBatch;
      assert SoundPiece(Published(b), limit, c);
    }
  }

  // ---------------------------------------------------------------------------
  // Which events are reported as oversized
  // ---------------------------------------------------------------------------

  function Events<T>(items: seq<OversizedItem<T>>): seq<T> {
    seq(|items|, i requires 0 <= i < |items| => items[i].event)
  }

  /** The events that do not fit alone, in input order. */
  function TooLargeAlone<T>(events: seq<T>, limit: int, c: Codec<T>): seq<T> {
    if events == [] then []
    else (if Fits([events[0]], limit, c) then [] else [events[0]]) + TooLargeAlone(events[1..], limit, c)
  }

  lemma {:induction false} TooLargeAloneConcat<T>(a: seq<T>, b: seq<T>, limit: int, c: Codec<T>)
    ensures TooLargeAlone(a + b, limit, c) == TooLargeAlone(a, limit, c) + TooLargeAlone(b, limit, c)
  {
    if a == [] {
      assert a + b == b;
    } else {
      assert (a + b)[0] == a[0] && (a + b)[1..] == a[1..] + b;
      TooLargeAloneConcat(a[1..], b, limit, c);
    }
  }

  lemma {:induction false} NoneTooLarge<T>(events: seq<T>, limit: int, c: Codec<T>)
    ensures TooLargeAlone(events, limit, c) == [] <==> forall x <- events :: Fits([x], limit, c)
  {
    if events != [] {
      NoneTooLarge(events[1..], limit, c);
    }
  }

  /** No published payload carries an event that would not fit alone. */
  ghost predicate NothingHidden<T>(r: FitOutcome<T>, limit: int, c: Codec<T>) {
    forall b <- r.batches :: forall x <- b.events :: Fits([x], limit, c)
  }

  ghost predicate ReportIsExact<T>(r: FitOutcome<T>, events: seq<T>, limit: int, c: Codec<T>) {
    Events(r.oversized) == TooLargeAlone(events, limit, c)
  }

  /** What is tracked through the halving: a report is never too long, and full length means exact. */
  ghost predicate Tracked<T>(r: FitOutcome<T>, events: seq<T>, limit: int, c: Codec<T>) {
    && |r.oversized| <= |TooLargeAlone(events, limit, c)|
    && (|r.oversized| == |TooLargeAlone(events, limit, c)| <==> NothingHidden(r, limit, c))
    && (NothingHidden(r, limit, c) ==> ReportIsExact(r, events, limit, c))
  }

  lemma TrackedConcat<T>(first: FitOutcome<T>, a: seq<T>, second: FitOutcome<T>, b: seq<T>, limit: int, c: Codec<T>)
    requires Tracked(first, a, limit, c) && Tracked(second, b, limit, c)
    ensures Tracked(FitOutcome(first.batches + second.batches, first.oversized + second.oversized), a + b, limit, c)
  {
    TooLargeAloneConcat(a, b, limit, c);
    var r := FitOutcome(first.batches + second.batches, first.oversized + second.oversized);
    assert NothingHidden(r, limit, c) <==> NothingHidden(first, limit, c) && NothingHidden(second, limit, c) by {
      forall x <- first.batches ensures x in r.batches {}
      forall x <- second.batches ensures x in r.batches {}
    }
    assert Events(r.oversized) == Events(first.oversized) + Events(second.oversized);
  }

  lemma FittingIsTracked<T>(events: seq<T>, limit: int, c: Codec<T>)
    requires |events| <= 1 || Fits(events, limit, c)
    ensures Tracked(FitBatch(events, limit, c), events, limit, c)
  {
    var r := FitBatch(events, limit, c);
    if |events| > 0 && Fits(events, limit, c) {
      NoneTooLarge(events, limit, c);
      assert r.batches == [Wrap(events, c)];
    } else if |events| == 1 {
      assert [events[0]] == events;
      assert TooLargeAlone(events, limit, c) == [events[0]] + TooLargeAlone(events[1..], limit, c);
    }
  }

  lemma {:induction false} FitBatchTracked<T>(events: seq<T>, limit: int, c: Codec<T>)
    ensures Tracked(FitBatch(events, limit, c), events, limit, c)
    decreases |events|
  {
    hide Tracked, Fits;
    if |events| <= 1 || Fits(events, limit, c) {
      FittingIsTracked(events, limit, c);
    } else {
      var middle := (|events| + 1) / 2;
      FitBatchTracked(events[..middle], limit, c);
      FitBatchTracked(events[middle..], limit, c);
      TrackedConcat(FitBatch(events[..middle], limit, c), events[..middle],
                    FitBatch(events[middle..], limit, c), events[middle..], limit, c);
      assert events[..middle] + events[middle..] == events;
    }
  }

  /**
   * The report names exactly the events that do not fit alone, in order, if and
   * only if no published payload hides one of them.
   */
  lemma OversizedIsExact<T>(events: seq<T>, limit: int, c: Codec<T>)
    ensures var r := FitBatch(events, limit, c);
      ReportIsExact(r, events, limit, c) <==> NothingHidden(r, limit, c)
  {
    FitBatchTracked(events, limit, c);
    var r := FitBatch(events, limit, c);
    assert |Events(r.oversized)| == |r.oversized|;
  }

  /** No segment the halving may form fits although one of its events does not fit alone. */
  ghost predicate HalvesNeverHide<T>(events: seq<T>, limit: int, c: Codec<T>)
    decreases |events|
  {
    && (Fits(events, limit, c) ==> forall x <- events :: Fits([x], limit, c))
    && (|events| > 1 ==>
          && HalvesNeverHide(events[..(|events| + 1) / 2], limit, c)
          && HalvesNeverHide(events[(|events| + 1) / 2..], limit, c))
  }

  lemma {:induction false} HarmlessEventsNeverHide<T>(events: seq<T>, limit: int, c: Codec<T>)
    requires forall x <- events :: Fits([x], limit, c)
    ensures HalvesNeverHide(events, limit, c)
    decreases |events|
  {
    if |events| > 1 {
      HarmlessEventsNeverHide(events[..(|events| + 1) / 2], limit, c);
      HarmlessEventsNeverHide(events[(|events| + 1) / 2..], limit, c);
    }
  }

  lemma {:induction false} HiddenByTheHalving<T>(events: seq<T>, limit: int, c: Codec<T>)
    ensures NothingHidden(FitBatch(events, limit, c), limit, c) <==> HalvesNeverHide(events, limit, c)
    decreases |events|
  {
    var r := FitBatch(events, limit, c);
    if |events| > 0 && Fits(events, limit, c) {
      assert r.batches == [Wrap(events, c)] && Wrap(events, c).events == events;
      if NothingHidden(r, limit, c) {
        assert Wrap(events, c) in r.batches;
        HarmlessEventsNeverHide(events, limit, c);
      }
    } else if |events| > 1 {
      var middle := (|events| + 1) / 2;
      HiddenByTheHalving(events[..middle], limit, c);
      HiddenByTheHalving(events[middle..], limit, c);
      forall b <- FitBatch(events[..middle], limit, c).batches ensures b in r.batches {}
      forall b <- FitBatch(events[middle..], limit, c).batches ensures b in r.batches {}
    }
  }

  /**
   * In terms of the input: the report names exactly the events that do not fit alone,
   * in order, if and only if no segment of the halving hides one.
   */
  lemma OversizedIsExactUnlessHidden<T>(events: seq<T>, limit: int, c: Codec<T>)
    ensures ReportIsExact(FitBatch(events, limit, c), events, limit, c) <==> HalvesNeverHide(events, limit, c)
  {
    OversizedIsExact(events, limit, c);
    HiddenByTheHalving(events, limit, c);
  }

  /** The permutation of byte strings that exchanges `a` and `b`, at `z`. */
  function Exchange(a: Bytes, b: Bytes, z: Bytes): Bytes {
    if z == a then b else if z == b then a else z
  }

  function Zeros(n: nat): Bytes {
    seq(n, _ => 0)
  }

  /** A lossless compression of `z`: it inflates `single1` and `single2`, shrinks `batch`, and moves finitely many byte strings. */
  function Favour(batch: Bytes, single1: Bytes, single2: Bytes, limit: nat, z: Bytes): Bytes {
    var n := limit + 1 + |batch| + |single1| + |single2|;
    Exchange(batch, [], Exchange(single2, Zeros(n + 1), Exchange(single1, Zeros(n), z)))
  }

  lemma FavourIsLossless(batch: Bytes, single1: Bytes, single2: Bytes, limit: nat, z1: Bytes, z2: Bytes)
    requires Favour(batch, single1, single2, limit, z1) == Favour(batch, single1, single2, limit, z2)
    ensures z1 == z2
  {
    hide Zeros;
  }

  lemma FavourSizes(batch: Bytes, single1: Bytes, single2: Bytes, limit: nat)
    requires batch != single1 && batch != single2
    ensures Favour(batch, single1, single2, limit, batch) == []
    ensures |Favour(batch, single1, single2, limit, single1)| > limit && |Favour(batch, single1, single2, limit, single2)| > limit
  {
    var n := limit + 1 + |batch| + |single1| + |single2|;
    assert |Zeros(n)| == n && |Zeros(n + 1)| == n + 1;
    hide Zeros;
  }

  /** A batch of two that fits together and not alone is published with an empty report. */
  lemma BothHidden<T>(c: Codec<T>, x: T, y: T, limit: int)
    requires Fits([x, y], limit, c) && !Fits([x], limit, c)
    ensures FitBatch([x, y], limit, c).oversized == [] && !ReportIsExact(FitBatch([x, y], limit, c), [x, y], limit, c)
  {
    assert TooLargeAlone([x, y], limit, c) == [x] + TooLargeAlone([x, y][1..], limit, c);
    assert Events(FitBatch([x, y], limit, c).oversized) == [];
    hide Fits;
  }

  /** The two fit together, neither fits alone, and the report is empty. */
  ghost predicate Hides<T>(c: Codec<T>, x: T, y: T, limit: int) {
    && Fits([x, y], limit, c) && !Fits([x], limit, c) && !Fits([y], limit, c)
    && FitBatch([x, y], limit, c).oversized == []
    && !ReportIsExact(FitBatch([x, y], limit, c), [x, y], limit, c)
  }

  /**
   * Whatever the serializer, if it tells a batch of two from its single events: for every limit there
   * is a lossless compressor that hides both.
   */
  lemma SegmentMayHideItsEvents<T>(c: Codec<T>, x: T, y: T, limit: nat)
    requires Serialize([x, y], c) != Serialize([x], c) && Serialize([x, y], c) != Serialize([y], c)
    ensures exists compress: Bytes -> Bytes :: Injective(compress) && Hides(c.(compress := compress), x, y, limit)
  {
    var batch, single1, single2 := Serialize([x, y], c), Serialize([x], c), Serialize([y], c);
    var compress := (z: Bytes) => Favour(batch, single1, single2, limit, z);
    FavourSizes(batch, single1, single2, limit);
    forall z1, z2 | compress(z1) == compress(z2) ensures z1 == z2 {
      FavourIsLossless(batch, single1, single2, limit, z1, z2);
    }
    var c1 := c.(compress := compress);
    SameSerialization(c, compress, [x, y]);
    SameSerialization(c, compress, [x]);
    SameSerialization(c, compress, [y]);
    hide Favour, Serialize;
    BothHidden(c1, x, y, limit);
  }

  lemma SameSerialization<T>(c: Codec<T>, compress: Bytes -> Bytes, events: seq<T>)
    ensures Serialize(events, c.(compress := compress)) == Serialize(events, c)
  {
  }

  /** Every contiguous part of a segment that fits also fits. */
  ghost predicate SubSegmentsFit<T(!new)>(limit: int, c: Codec<T>) {
    forall s: seq<T>, i: nat, j: nat {:trigger s[i..j], Fits(s, limit, c)} ::
      i < j <= |s| && Fits(s, limit, c) ==> Fits(s[i..j], limit, c)
  }

  /** For such a compressor the report is exact on every input. */
  lemma OversizedIsExactWhenPartsFit<T(!new)>(events: seq<T>, limit: int, c: Codec<T>)
    requires SubSegmentsFit(limit, c)
    ensures ReportIsExact(FitBatch(events, limit, c), events, limit, c)
  {
    var pieces := FitBatchPartitions(events, limit, c);
    OutcomeIsSound(pieces, limit, c);
    forall b <- PublishedOf(pieces), x <- b.events ensures Fits([x], limit, c) {
      assert SoundPiece(Published(b), limit, c);
      EachFitsAlone(b.events, x, limit, c);
    }
    OversizedIsExact(events, limit, c);
  }

  lemma EachFitsAlone<T(!new)>(segment: seq<T>, x: T, limit: int, c: Codec<T>)
    requires SubSegmentsFit(limit, c) && Fits(segment, limit, c) && x in segment
    ensures Fits([x], limit, c)
  {
    var i :| 0 <= i < |segment| && segment[i] == x;
    assert segment[i..i + 1] == [x];
  }

  // ---------------------------------------------------------------------------
  // Cost
  // ---------------------------------------------------------------------------

  /** What one call of FitBatch spends: recursion depth, calls, and events handed to the serializer. */
  datatype Cost = Cost(depth: nat, calls: nat, serialized: nat)

  /** The same recursion, counted. */
  function FitBatchCounted<T>(events: seq<T>, limit: int, c: Codec<T>): (FitOutcome<T>, Cost)
    decreases |events|
  {
    if |events| == 0 then
      (FitOutcome([], []), Cost(0, 1, 0))
    else if Fits(events, limit, c) then
      (FitOutcome([Wrap(events, c)], []), Cost(0, 1, |events|))
    else if |events| == 1 then
      (FitOutcome([], [OversizedItem(events[0], |SerializeAndCompress(events, c)|, limit)]), Cost(0, 1, 1))
    else
      var middle := (|events| + 1) / 2;
      var (first, k1) := FitBatchCounted(events[..middle], limit, c);
      var (second, k2) := FitBatchCounted(events[middle..], limit, c);
      (FitOutcome(first.batches + second.batches, first.oversized + second.oversized),
       Cost(1 + Max(k1.depth, k2.depth), 1 + k1.calls + k2.calls, |events| + k1.serialized + k2.serialized))
  }

  function Pow2(k: nat): nat {
    if k == 0 then 1 else 2 * Pow2(k - 1)
  }

  function CeilLog2(n: nat): nat
    requires n >= 1
  {
    if n == 1 then 0 else 1 + CeilLog2((n + 1) / 2)
  }

  /** CeilLog2(n) is the least k with n <= 2^k. */
  lemma {:induction false} CeilLog2IsLeast(n: nat)
    requires n >= 1
    ensures n <= Pow2(CeilLog2(n))
    ensures n > 1 ==> Pow2(CeilLog2(n) - 1) < n
  {
    if n > 1 {
      CeilLog2IsLeast((n + 1) / 2);
    }
  }

  lemma {:induction false} CeilLog2Monotone(m: nat, n: nat)
    requires 1 <= m <= n
    ensures CeilLog2(m) <= CeilLog2(n)
  {
    if m > 1 {
      CeilLog2Monotone((m + 1) / 2, (n + 1) / 2);
    }
  }

  lemma {:induction false} CountingChangesNothing<T>(events: seq<T>, limit: int, c: Codec<T>)
    ensures FitBatchCounted(events, limit, c).0 == FitBatch(events, limit, c)
    decreases |events|
  {
    if |events| > 1 && !Fits(events, limit, c) {
      var middle := (|events| + 1) / 2;
      CountingChangesNothing(events[..middle], limit, c);
      CountingChangesNothing(events[middle..], limit, c);
    }
  }

  ghost predicate Bounded(k: Cost, n: nat)
    requires n >= 1
  {
    && k.depth <= CeilLog2(n)
    && k.calls <= 2 * n - 1
    && k.serialized <= n * (CeilLog2(n) + 1)
  }

  lemma {:induction false} CountedCost<T>(events: seq<T>, limit: int, c: Codec<T>)
    requires |events| >= 1
    ensures Bounded(FitBatchCounted(events, limit, c).1, |events|)
    decreases |events|
  {
    var n := |events|;
    if n == 1 || Fits(events, limit, c) {
      assert n * (CeilLog2(n) + 1) >= n * 1;
    } else {
      var m := (n + 1) / 2;
      CountedCost(events[..m], limit, c);
      CountedCost(events[m..], limit, c);
      JoinedCost(FitBatchCounted(events[..m], limit, c).1, FitBatchCounted(events[m..], limit, c).1, n);
    }
  }

  lemma JoinedCost(k1: Cost, k2: Cost, n: nat)
    requires n >= 2 && Bounded(k1, (n + 1) / 2) && Bounded(k2, n - (n + 1) / 2)
    ensures Bounded(Cost(1 + Max(k1.depth, k2.depth), 1 + k1.calls + k2.calls, n + k1.serialized + k2.serialized), n)
  {
    var m := (n + 1) / 2;
    CeilLog2Monotone(n - m, m);
    HalvingCost(n, m, CeilLog2(m), CeilLog2(n - m));
  }

  /** Halving spends no more than a balanced tree over the events. */
  lemma {:induction false} FitBatchCost<T>(events: seq<T>, limit: int, c: Codec<T>)
    requires |events| >= 1
    ensures FitBatchCounted(events, limit, c).0 == FitBatch(events, limit, c)
    ensures var k := FitBatchCounted(events, limit, c).1;
      && k.depth <= CeilLog2(|events|)
      && k.calls <= 2 * |events| - 1
      && k.serialized <= |events| * (CeilLog2(|events|) + 1)
  {
    CountingChangesNothing(events, limit, c);
    CountedCost(events, limit, c);
  }

  lemma HalvingCost(n: nat, m: nat, k: nat, l: nat)
    requires m <= n && l <= k
    ensures n + m * (k + 1) + (n - m) * (l + 1) <= n * (k + 2)
  {
    assert (n - m) * (l + 1) <= (n - m) * (k + 1);
    assert n + m * (k + 1) + (n - m) * (k + 1) == n * (k + 2);
  }
}
