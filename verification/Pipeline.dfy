/**
 * Batcher and anchor joined by the topic between them: the anchor consumes exactly
 * what the batcher's sends have landed, while each runs, fails and crashes on its own.
 */
module Pipeline {
  import opened Common
  import opened PayloadBuilder
  import Batcher
  import BatcherSafety
  import BatcherContents
  import Anchor
  import AnchorSafety
  import AnchorOnce
  import AnchorReplays
  import BatcherProgress
  import BatcherRetry

  datatype Config = Config(batcher: Batcher.Config, anchor: Anchor.Config)

  datatype State = State(batcher: Batcher.State, anchor: Anchor.State)

  datatype Event = BatcherEvent(b: Batcher.Event) | AnchorEvent(a: Anchor.Event)

  /** A batched message as the anchor decodes it from the wire. */
  function Decoded(messages: seq<Batcher.BatchedMessage>): seq<Anchor.Record> {
    seq(|messages|, i requires 0 <= i < |messages| =>
      Anchor.Batched(messages[i].fitted.payload, messages[i].fitted.payloadHash))
  }

  function Topic(batched: seq<seq<Batcher.BatchedMessage>>): seq<seq<Anchor.Record>> {
    seq(|batched|, q requires 0 <= q < |batched| => Decoded(batched[q]))
  }

  function Init(log: seq<seq<Batcher.Record>>, partitions: nat, onChain: Option<Bytes>): State {
    var b := Batcher.Init(log, partitions);
    State(b, Anchor.Init(Topic(b.data.batched), onChain))
  }

  /** A batcher step also makes what it landed visible to the anchor; the anchor's topic grows in no other way. */
  function Step(c: Config, s: State, e: Event): State {
    match e
    case BatcherEvent(b) =>
      var after := Batcher.Step(c.batcher, s.batcher, b);
      State(after, Anchor.Step(c.anchor, s.anchor, Anchor.TopicGrows(Topic(after.data.batched))))
    case AnchorEvent(a) =>
      if a.TopicGrows? then s else s.(anchor := Anchor.Step(c.anchor, s.anchor, a))
  }

  function After(c: Config, log: seq<seq<Batcher.Record>>, partitions: nat, onChain: Option<Bytes>, es: seq<Event>): State {
    if es == [] then Init(log, partitions, onChain)
    else Step(c, After(c, log, partitions, onChain, Front(es)), Last(es))
  }

  // ---------------------------------------------------------------------------
  // Each side of a joint run is a run of its own machine
  // ---------------------------------------------------------------------------

  function BatcherPart(es: seq<Event>): seq<Batcher.Event> {
    if es == [] then [] else BatcherPart(Front(es)) + (if Last(es).BatcherEvent? then [Last(es).b] else [])
  }

  function AnchorPart(c: Config, log: seq<seq<Batcher.Record>>, partitions: nat, onChain: Option<Bytes>, es: seq<Event>): seq<Anchor.Event> {
    if es == [] then []
    else
      var rest := AnchorPart(c, log, partitions, onChain, Front(es));
      match Last(es)
      case BatcherEvent(_) => rest + [Anchor.TopicGrows(Topic(After(c, log, partitions, onChain, es).batcher.data.batched))]
      case AnchorEvent(a) => if a.TopicGrows? then rest else rest + [a]
  }

  lemma {:induction false} BatcherSide(c: Config, log: seq<seq<Batcher.Record>>, partitions: nat, onChain: Option<Bytes>, es: seq<Event>)
    ensures After(c, log, partitions, onChain, es).batcher == Batcher.After(c.batcher, log, partitions, BatcherPart(es))
  {
    if es != [] {
      BatcherSide(c, log, partitions, onChain, Front(es));
      if Last(es).BatcherEvent? {
        assert Front(BatcherPart(es)) == BatcherPart(Front(es));
      } else {
        assert BatcherPart(es) == BatcherPart(Front(es));
      }
    }
  }

  lemma {:induction false} AnchorSide(c: Config, log: seq<seq<Batcher.Record>>, partitions: nat, onChain: Option<Bytes>, es: seq<Event>)
    ensures After(c, log, partitions, onChain, es).anchor
         == Anchor.After(c.anchor, Init(log, partitions, onChain).anchor.log, onChain, AnchorPart(c, log, partitions, onChain, es))
  {
    if es != [] {
      AnchorSide(c, log, partitions, onChain, Front(es));
      var part := AnchorPart(c, log, partitions, onChain, es);
      if Last(es).BatcherEvent? || !Last(es).a.TopicGrows? {
        assert Front(part) == AnchorPart(c, log, partitions, onChain, Front(es));
      }
    }
  }

  lemma AnchorKeepsLog(c: Config, s: Anchor.State, e: Anchor.Event)
    requires !e.TopicGrows?
    ensures Anchor.Step(c.anchor, s, e).log == s.log
  {
  }

  /** The anchor's topic is always what the batcher has published. */
  lemma {:induction false} TopicIsShared(c: Config, log: seq<seq<Batcher.Record>>, partitions: nat, onChain: Option<Bytes>, es: seq<Event>)
    ensures var s := After(c, log, partitions, onChain, es);
      s.anchor.log == Topic(s.batcher.data.batched) && BatcherSafety.SoundTopic(c.batcher, s.batcher.data.batched)
  {
    if es != [] {
      TopicIsShared(c, log, partitions, onChain, Front(es));
      var s := After(c, log, partitions, onChain, Front(es));
      match Last(es)
      case BatcherEvent(b) => BatcherSafety.StepKeepsTopicSound(c.batcher, s.batcher, b);
      case AnchorEvent(a) => if !a.TopicGrows? { AnchorKeepsLog(c, s.anchor, a); }
    }
  }

  // ---------------------------------------------------------------------------
  // Main results
  // ---------------------------------------------------------------------------

  /** Both services hash with the same collision-free digest. */
  ghost predicate Assumptions(c: Config) {
    c.batcher.blake2 == c.anchor.blake2 && Injective(c.anchor.blake2)
  }

  /** The anchor never takes an extrinsic that failed on chain for one that succeeded. */
  ghost predicate Noticed(c: Config, log: seq<seq<Batcher.Record>>, partitions: nat, onChain: Option<Bytes>, es: seq<Event>) {
    AnchorSafety.FailuresNoticed(c.anchor, Anchor.Init(Init(log, partitions, onChain).anchor.log, onChain),
                                 AnchorPart(c, log, partitions, onChain, es))
  }

  /** What the batcher publishes carries the digests that the anchor checks. */
  lemma TopicIsHonest(c: Config, log: seq<seq<Batcher.Record>>, partitions: nat, onChain: Option<Bytes>, es: seq<Event>)
    requires c.batcher.blake2 == c.anchor.blake2
    ensures AnchorSafety.Honest(c.anchor, After(c, log, partitions, onChain, es).anchor.log)
  {
    TopicIsShared(c, log, partitions, onChain, es);
    var s := After(c, log, partitions, onChain, es);
    forall q, i | 0 <= q < |s.anchor.log| && 0 <= i < |s.anchor.log[q]|
      ensures s.anchor.log[q][i].payloadHash == c.anchor.blake2(s.anchor.log[q][i].payload)
    {
      assert BatcherSafety.SoundMessage(c.batcher, s.batcher.data.batched[q][i]);
    }
  }

  lemma {:induction false} AnchorIsSafe(c: Config, log: seq<seq<Batcher.Record>>, partitions: nat, onChain: Option<Bytes>, es: seq<Event>)
    requires Assumptions(c) && Noticed(c, log, partitions, onChain, es)
    ensures AnchorSafety.Inv(c.anchor, After(c, log, partitions, onChain, es).anchor)
  {
    AnchorSide(c, log, partitions, onChain, es);
    TopicIsHonest(c, log, partitions, onChain, es);
    AnchorSafety.RunKeeps(c.anchor, Init(log, partitions, onChain).anchor.log, onChain, AnchorPart(c, log, partitions, onChain, es));
  }

  lemma TopicFits(c: Config, log: seq<seq<Batcher.Record>>, partitions: nat, onChain: Option<Bytes>, es: seq<Event>)
    requires c.batcher.maxPayloadBytes <= c.anchor.maxPayloadBytes
    ensures var s := After(c, log, partitions, onChain, es);
      forall q, i :: 0 <= q < |s.anchor.log| && 0 <= i < |s.anchor.log[q]| ==> Anchor.Anchorable(c.anchor, s.anchor.log[q][i])
  {
    TopicIsShared(c, log, partitions, onChain, es);
    var s := After(c, log, partitions, onChain, es);
    forall q, i | 0 <= q < |s.anchor.log| && 0 <= i < |s.anchor.log[q]|
      ensures Anchor.Anchorable(c.anchor, s.anchor.log[q][i])
    {
      assert BatcherSafety.SoundMessage(c.batcher, s.batcher.data.batched[q][i]);
    }
  }

  lemma OversizedIsNotEntered(c: Config, s: Anchor.State, e: Anchor.Event)
    requires !s.phase.DlqSend?
    requires forall q, i :: 0 <= q < |s.log| && 0 <= i < |s.log[q]| ==> Anchor.Anchorable(c.anchor, s.log[q][i])
    ensures !Anchor.Step(c.anchor, s, e).phase.DlqSend?
  {
  }

  /** When the batcher's limit is at most the anchor's, its output never takes the oversize branch. */
  lemma {:induction false} OversizeBranchIsDead(c: Config, log: seq<seq<Batcher.Record>>, partitions: nat, onChain: Option<Bytes>, es: seq<Event>)
    requires c.batcher.maxPayloadBytes <= c.anchor.maxPayloadBytes
    ensures var s := After(c, log, partitions, onChain, es);
      && !s.anchor.phase.DlqSend?
      && forall q, i :: 0 <= q < |s.anchor.log| && 0 <= i < |s.anchor.log[q]| ==> Anchor.Anchorable(c.anchor, s.anchor.log[q][i])
  {
    TopicFits(c, log, partitions, onChain, es);
    if es != [] {
      var s := After(c, log, partitions, onChain, Front(es));
      OversizeBranchIsDead(c, log, partitions, onChain, Front(es));
      match Last(es)
      case BatcherEvent(b) =>
        OversizedIsNotEntered(c, s.anchor, Anchor.TopicGrows(Topic(Batcher.Step(c.batcher, s.batcher, b).data.batched)));
      case AnchorEvent(a) => OversizedIsNotEntered(c, s.anchor, a);
    }
  }

  /**
   * Message `i` of partition `q` publishes the record at (p, o): its payload compresses the serialization of
   * `envelopes`, one of which is that record's, and once the anchor has committed past the message
   * that payload has been on chain.
   */
  ghost predicate AnchoredOnceCommitted(c: Config, s: State, q: nat, i: nat, envelopes: seq<Bytes>, p: nat, o: nat)
    requires |s.anchor.committed| == |s.batcher.data.batched|
    requires p < |s.batcher.data.log| && o < |s.batcher.data.log[p]|
  {
    && q < |s.batcher.data.batched| && i < |s.batcher.data.batched[q]|
    && BatcherContents.PublishesAt(c.batcher, s.batcher.data, q, i, envelopes, p, o)
    && s.batcher.data.log[p][o].Authorized? && s.batcher.data.log[p][o].envelope in envelopes
    && (i < s.anchor.committed[q] ==> Some(c.batcher.compress(c.batcher.serialize(envelopes))) in s.anchor.history)
  }

  /**
   * End to end: each authorized or unparseable record below the batcher's committed offset has its raw
   * bytes in the DLQ, or is authorized and has its envelope in a published payload; and once the anchor
   * has committed past that message, the compressed envelopes have been on chain.
   */
  lemma {:induction false} EveryRecordReachesTheChain(
      c: Config, log: seq<seq<Batcher.Record>>, partitions: nat, onChain: Option<Bytes>, es: seq<Event>, p: nat, o: nat)
    requires Assumptions(c) && Noticed(c, log, partitions, onChain, es) && c.batcher.maxPayloadBytes <= c.anchor.maxPayloadBytes
    requires var d := After(c, log, partitions, onChain, es).batcher.data;
      p < |d.log| && |d.committed| == |d.log| && o < d.committed[p] && o < |d.log[p]|
      && (d.log[p][o].Authorized? || d.log[p][o].Unparseable?)
    ensures var s := After(c, log, partitions, onChain, es);
      && |s.anchor.committed| == |s.batcher.data.batched|
      && (BatcherContents.DeadLettered(s.batcher.data, p, o)
          || exists q, i, envelopes :: AnchoredOnceCommitted(c, s, q, i, envelopes, p, o))
  {
    var s := After(c, log, partitions, onChain, es);
    BatcherSide(c, log, partitions, onChain, es);
    BatcherContents.RecordsAreDelivered(c.batcher, log, partitions, BatcherPart(es), p, o);
    TopicIsShared(c, log, partitions, onChain, es);
    AnchorIsSafe(c, log, partitions, onChain, es);
    OversizeBranchIsDead(c, log, partitions, onChain, es);
    hide After, Batcher.After;
    if !BatcherContents.DeadLettered(s.batcher.data, p, o) {
      var batched := s.batcher.data.batched;
      var q, i, envelopes :| 0 <= q < |batched| && 0 <= i < |batched[q]|
        && BatcherContents.PublishesAt(c.batcher, s.batcher.data, q, i, envelopes, p, o);
      if i < s.anchor.committed[q] {
        assert AnchorSafety.Settled(c.anchor, s.anchor, Anchor.Position(q, i));
      }
      assert AnchoredOnceCommitted(c, s, q, i, envelopes, p, o);
    }
  }

  // ---------------------------------------------------------------------------
  // A batch that is published again
  // ---------------------------------------------------------------------------

  function ByBatcher(bs: seq<Batcher.Event>): seq<Event> {
    seq(|bs|, i requires 0 <= i < |bs| => BatcherEvent(bs[i]))
  }

  function ByAnchor(xs: seq<Anchor.Event>): seq<Event> {
    seq(|xs|, i requires 0 <= i < |xs| => AnchorEvent(xs[i]))
  }

  /** While only the batcher moves, the anchor sees its topic grow and nothing else. */
  lemma {:induction false} BatcherAlone(c: Config, log: seq<seq<Batcher.Record>>, partitions: nat, onChain: Option<Bytes>, bs: seq<Batcher.Event>)
    ensures var s := After(c, log, partitions, onChain, ByBatcher(bs));
      && s.batcher == Batcher.After(c.batcher, log, partitions, bs) && |s.batcher.data.batched| == partitions
      && s.anchor == Init(log, partitions, onChain).anchor.(log := Topic(s.batcher.data.batched))
  {
    TopicIsShared(c, log, partitions, onChain, ByBatcher(bs));
    if bs == [] {
      assert ByBatcher(bs) == [];
    } else {
      BatcherAlone(c, log, partitions, onChain, Front(bs));
      assert Front(ByBatcher(bs)) == ByBatcher(Front(bs)) && Last(ByBatcher(bs)) == BatcherEvent(Last(bs));
      hide Batcher.Step, Topic;
    }
  }

  /** After that the anchor may run on its own. */
  lemma {:induction false} AnchorAlone(c: Config, log: seq<seq<Batcher.Record>>, partitions: nat, onChain: Option<Bytes>, es: seq<Event>, xs: seq<Anchor.Event>)
    requires forall x <- xs :: !x.TopicGrows?
    ensures var s, s1 := After(c, log, partitions, onChain, es), After(c, log, partitions, onChain, es + ByAnchor(xs));
      s1.batcher == s.batcher && s1.anchor == Anchor.Run(c.anchor, s.anchor, xs)
  {
    if xs == [] {
      assert es + ByAnchor(xs) == es;
    } else {
      assert Last(xs) in xs && forall x <- Front(xs) :: x in xs;
      AnchorAlone(c, log, partitions, onChain, es, Front(xs));
      assert Front(es + ByAnchor(xs)) == es + ByAnchor(Front(xs)) && Last(es + ByAnchor(xs)) == AnchorEvent(Last(xs));
      hide Anchor.Step;
    }
  }

  function PayloadsOf(messages: seq<Batcher.BatchedMessage>): seq<Option<Bytes>> {
    seq(|messages|, i requires 0 <= i < |messages| => Some(messages[i].fitted.payload))
  }

  lemma {:induction false} DecodedPayloads(c: Config, messages: seq<Batcher.BatchedMessage>)
    requires forall r <- Decoded(messages) :: Anchor.Anchorable(c.anchor, r)
    ensures AnchorOnce.InLimit(c.anchor, Decoded(messages)) == PayloadsOf(messages)
  {
    if messages != [] {
      var records := Decoded(messages);
      assert Front(records) == Decoded(Front(messages)) && Last(records) in records;
      assert forall r <- Front(records) :: r in records;
      DecodedPayloads(c, Front(messages));
      assert PayloadsOf(messages) == PayloadsOf(Front(messages)) + [Some(Last(messages).fitted.payload)];
    }
  }

  /** Whatever the batcher has published on one partition, the anchor can put on chain, in order. */
  lemma AnchorCatchesUp(c: Config, log: seq<seq<Batcher.Record>>, onChain: Option<Bytes>, bs: seq<Batcher.Event>) returns (es: seq<Event>)
    requires Assumptions(c) && c.batcher.maxPayloadBytes <= c.anchor.maxPayloadBytes
    ensures var s := After(c, log, 1, onChain, es);
      && s.batcher == Batcher.After(c.batcher, log, 1, bs) && |s.batcher.data.batched| == 1
      && AnchorOnce.Collapse(s.anchor.history) == AnchorOnce.Collapse([onChain] + PayloadsOf(s.batcher.data.batched[0]))
  {
    var published := ByBatcher(bs);
    var s := After(c, log, 1, onChain, published);
    BatcherAlone(c, log, 1, onChain, bs);
    TopicIsHonest(c, log, 1, onChain, published);
    TopicFits(c, log, 1, onChain, published);
    var topic := s.anchor.log[0];
    assert s.anchor.log == [topic] && topic == Decoded(s.batcher.data.batched[0]);
    var xs := AnchorReplays.Resume(c.anchor, s.anchor, |topic|);
    AnchorAlone(c, log, 1, onChain, published, xs);
    DecodedPayloads(c, s.batcher.data.batched[0]);
    assert topic[0..|topic|] == topic;
    es := published + ByAnchor(xs);
    hide After, Anchor.Run, Batcher.After, AnchorOnce.Collapse;
  }

  /** What the failed attempt has landed, and what the retry publishes behind it. */
  function LandedPayloads(c: Config, d: Batcher.Data, failure: BatcherRetry.Failure): seq<Option<Bytes>> {
    PayloadsOf(BatcherRetry.Landed(c.batcher, d.flusher.Flying(), failure))
  }

  function RetriedPayloads(c: Config, d: Batcher.Data): seq<Option<Bytes>> {
    PayloadsOf(Batcher.ToMessages(c.batcher, Batcher.Fitting(c.batcher, d.flusher.Flying() + d.flusher.pending).batches))
  }

  /**
   * A flush fails after any of its messages have landed, and its retry succeeds: there is a run
   * that anchors what was published before, what landed, and what the retry published. The cell goes
   * through the same values as if nothing had landed exactly if what landed repeats the value
   * before it, and then the first payload of the retry.
   */
  lemma RetryIsAnchoredAgain(
      c: Config, log: seq<seq<Batcher.Record>>, onChain: Option<Bytes>, before: seq<Batcher.Event>, failure: BatcherRetry.Failure)
    returns (es: seq<Event>)
    requires Assumptions(c) && c.batcher.maxPayloadBytes <= c.anchor.maxPayloadBytes
    requires var s := Batcher.After(c.batcher, log, 1, before);
      var batch := s.data.flusher.Flying();
      && s.data.handler.PoisonSend? && BatcherRetry.Retries(s.control) && BatcherRetry.Possible(c.batcher, batch, failure)
      && BatcherProgress.Formats(c.batcher, batch) && BatcherProgress.Formats(c.batcher, batch + s.data.flusher.pending)
    ensures var d := Batcher.After(c.batcher, log, 1, before).data;
      var history := After(c, log, 1, onChain, es).anchor.history;
      && |d.batched| == 1
      && var earlier := [onChain] + PayloadsOf(d.batched[0]);
         var landed, payloads := LandedPayloads(c, d, failure), RetriedPayloads(c, d);
         && AnchorOnce.Collapse(history) == AnchorOnce.Collapse(earlier + landed + payloads)
         && (AnchorOnce.Collapse(history) == AnchorOnce.Collapse(earlier + payloads)
             <==> AnchorReplays.Absorbed(landed, Last(earlier), payloads))
  {
    hide Batcher.Run, Batcher.Fitting, Batcher.ToMessages, AnchorOnce.Collapse, After, PayloadsOf, AnchorReplays.Absorbed;
    hide BatcherRetry.Retry, BatcherRetry.Landed, BatcherRetry.Retries, BatcherRetry.Possible, BatcherProgress.Formats;
    var s := Batcher.After(c.batcher, log, 1, before);
    var batch := s.data.flusher.Flying();
    var retried := batch + s.data.flusher.pending;
    var landed, messages := BatcherRetry.Landed(c.batcher, batch, failure), Batcher.ToMessages(c.batcher, Batcher.Fitting(c.batcher, retried).batches);
    BatcherAlone(c, log, 1, onChain, before);
    InFlightBatch(c, log, before);
    BatcherRetry.RetryPublishesAgain(c.batcher, s, failure);
    var retry := BatcherRetry.Retry(c.batcher, s.control, batch, retried, failure);
    BatcherProgress.RunConcat(c.batcher, Batcher.Init(log, 1), before, retry);
    es := AnchorCatchesUp(c, log, onChain, before + retry);
    PayloadsConcat(onChain, s.data.batched[0], landed, messages);
    AnchorReplays.VanishesExactlyIfAbsorbed([onChain] + PayloadsOf(s.data.batched[0]), PayloadsOf(landed), PayloadsOf(messages));
  }

  lemma InFlightBatch(c: Config, log: seq<seq<Batcher.Record>>, before: seq<Batcher.Event>)
    requires Batcher.After(c.batcher, log, 1, before).data.handler.PoisonSend?
    ensures var f := Batcher.After(c.batcher, log, 1, before).data.flusher; f.inFlight.Some? && f.Flying() != []
  {
    BatcherSafety.RunIsGood(c.batcher, log, 1, before);
  }

  lemma PayloadsConcat(
      onChain: Option<Bytes>, earlier: seq<Batcher.BatchedMessage>, landed: seq<Batcher.BatchedMessage>, messages: seq<Batcher.BatchedMessage>)
    ensures [onChain] + PayloadsOf(earlier + (landed + messages))
         == [onChain] + PayloadsOf(earlier) + PayloadsOf(landed) + PayloadsOf(messages)
  {
    assert PayloadsOf(earlier + (landed + messages)) == PayloadsOf(earlier) + PayloadsOf(landed) + PayloadsOf(messages);
  }
}
