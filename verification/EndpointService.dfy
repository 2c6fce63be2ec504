/**
 * The handler of POST /v1/telemetry as one instance runs it
 * (services/endpoint/src/index.ts): stage by stage with early returns. Each call is a
 * run of the machine in Endpoint, in which instances interleave.
 */
module EndpointService {
  import opened Common
  import opened NonceStore
  import opened Endpoint

  /** How a request comes out: one verdict per return statement. */
  datatype Verdict =
    | InvalidEnvelope | StaleTimestamp | SensorForbidden | StoreUnavailable | DuplicateNonce | KafkaUnavailable | Accepted

  /**
   * A request and how its awaits turn out. `envelope` is absent if parsing or the
   * signature failed; the claim runs `delay` milliseconds after the timestamp check.
   */
  datatype Submission = Submission(
    envelope: Option<Envelope>, localClock: int, enabled: bool, delay: nat, reply: RedisReply, publishOk: bool)

  datatype Metrics = Metrics(accepted: nat, rejected: nat, kafkaErrors: nat, duplicateNonces: nat, nonceStoreErrors: nat)

  /** A telemetry.rejected.v1 event, published without waiting for it. */
  datatype Rejection = Rejection(sensorId: Bytes, reason: Verdict)

  const NO_METRICS := Metrics(0, 0, 0, 0, 0)

  function StatusOf(v: Verdict): nat {
    match v
    case InvalidEnvelope => 400
    case StaleTimestamp => 401
    case SensorForbidden => 403
    case StoreUnavailable => 503
    case DuplicateNonce => 409
    case KafkaUnavailable => 503
    case Accepted => 202
  }

  /** The request gets as far as the nonce store. */
  predicate Claims(c: Config, r: Submission) {
    && r.envelope.Some? && WellSized(r.envelope.value)
    && FreshTimestamp(c, r.envelope.value.timestampMs, r.localClock)
    && r.enabled
  }

  function Judge(c: Config, keys: Keys, now: int, r: Submission): Verdict {
    if r.envelope.None? || !WellSized(r.envelope.value) then InvalidEnvelope
    else if !FreshTimestamp(c, r.envelope.value.timestampMs, r.localClock) then StaleTimestamp
    else if !r.enabled then SensorForbidden
    else if r.reply.Lost? then StoreUnavailable
    else if Held(keys, KeyOf(c, r.envelope.value), now + r.delay) then DuplicateNonce
    else if r.publishOk then Accepted else KafkaUnavailable
  }

  function KeysAfter(c: Config, keys: Keys, now: int, r: Submission): Keys {
    if Claims(c, r) && r.reply != Lost(false)
    then SetIfAbsent(keys, KeyOf(c, r.envelope.value), now + r.delay, c.ttlSeconds)
    else keys
  }

  function Count(m: Metrics, v: Verdict): Metrics {
    match v
    case Accepted => m.(accepted := m.accepted + 1)
    case StoreUnavailable => m.(rejected := m.rejected + 1, nonceStoreErrors := m.nonceStoreErrors + 1)
    case DuplicateNonce => m.(rejected := m.rejected + 1, duplicateNonces := m.duplicateNonces + 1)
    case KafkaUnavailable => m.(rejected := m.rejected + 1, kafkaErrors := m.kafkaErrors + 1)
    case _ => m.(rejected := m.rejected + 1)
  }

  function CountAll(vs: seq<Verdict>): Metrics {
    if vs == [] then NO_METRICS else Count(CountAll(Front(vs)), Last(vs))
  }

  /** How many requests were answered with this status. */
  function Answers(vs: seq<Verdict>, status: nat): nat {
    if vs == [] then 0 else Answers(Front(vs), status) + (if StatusOf(Last(vs)) == status then 1 else 0)
  }

  function Times(vs: seq<Verdict>, v: Verdict): nat {
    if vs == [] then 0 else Times(Front(vs), v) + (if Last(vs) == v then 1 else 0)
  }

  /** The counters tell the answers given: each request is accepted or rejected, once. */
  lemma {:induction false} CountersMatchAnswers(vs: seq<Verdict>)
    ensures var m := CountAll(vs);
      && m.accepted + m.rejected == |vs|
      && m.accepted == Answers(vs, 202)
      && m.duplicateNonces == Answers(vs, 409)
      && m.kafkaErrors == Times(vs, KafkaUnavailable) && m.nonceStoreErrors == Times(vs, StoreUnavailable)
      && m.kafkaErrors + m.nonceStoreErrors == Answers(vs, 503)
      && m.rejected == m.duplicateNonces + m.kafkaErrors + m.nonceStoreErrors + Answers(vs, 400) + Answers(vs, 401) + Answers(vs, 403)
  {
    if vs != [] {
      CountersMatchAnswers(Front(vs));
    }
  }

  // ---------------------------------------------------------------------------
  // The handler is a run of the machine
  // ---------------------------------------------------------------------------

  function Settled(i: nat, v: Verdict, r: Submission): seq<Event> {
    if v.Accepted? || v.KafkaUnavailable? then [ClaimAnswers(i, true), PublishSettles(i, r.publishOk)]
    else if r.reply.Lost? then [ClaimAnswers(i, false)]
    else [ClaimAnswers(i, true)]
  }

  /** The events request `i` goes through. A reply that is lost before the command ran leaves nothing to run. */
  function Path(c: Config, s: State, r: Submission): seq<Event> {
    var i := |s.requests|;
    if !Claims(c, r) then
      [Arrive(r.envelope, r.localClock)]
      + (if Judge(c, s.keys, s.now, r).SensorForbidden? then [RegistryAnswers(i, false)] else [])
    else
      [Arrive(r.envelope, r.localClock), RegistryAnswers(i, true)]
      + (if r.reply == Lost(false) then [Tick(r.delay), ClaimTimesOut(i)]
         else [Tick(r.delay), ClaimRuns(i)] + Settled(i, Judge(c, s.keys, s.now, r), r))
  }

  /** The machine's request, once answered; a request that gave up stays so until its command could run. */
  ghost predicate AnsweredWith(q: Request, v: Verdict) {
    q == Answered(StatusOf(v)) || (q.GivenUp? && v.StoreUnavailable?)
  }

  lemma StoreRuns(c: Config, s: State, r: Submission)
    requires Claims(c, r)
    ensures var i := |s.requests|;
      var s1 := Run(c, Sent(s, r.envelope.value, r.localClock), [Tick(r.delay), ClaimRuns(i)]);
      && |s1.requests| == i + 1 && s1.requests[..i] == s.requests && s1.requests[i].ClaimDone?
      && (s1.requests[i].won.None? <==> Held(s.keys, KeyOf(c, r.envelope.value), s.now + r.delay))
      && s1.keys == SetIfAbsent(s.keys, KeyOf(c, r.envelope.value), s.now + r.delay, c.ttlSeconds)
  {
    RunTwo(c, Sent(s, r.envelope.value, r.localClock), Tick(r.delay), ClaimRuns(|s.requests|));
    hide KeyOf, Held;
  }

  lemma StoreAnswers(c: Config, s: State, i: nat, v: Verdict, r: Submission)
    requires i < |s.requests| && s.requests[i].ClaimDone?
    requires !v.InvalidEnvelope? && !v.StaleTimestamp? && !v.SensorForbidden?
    requires r.reply.Lost? <==> v.StoreUnavailable?
    requires !r.reply.Lost? ==> (s.requests[i].won.None? <==> v.DuplicateNonce?)
    requires v.Accepted? || v.KafkaUnavailable? ==> (v.Accepted? <==> r.publishOk)
    ensures Run(c, s, Settled(i, v, r)).requests == s.requests[i := Answered(StatusOf(v))]
    ensures Run(c, s, Settled(i, v, r)).keys == s.keys
  {
    if v.Accepted? || v.KafkaUnavailable? {
      RunTwo(c, s, ClaimAnswers(i, true), PublishSettles(i, r.publishOk));
    } else {
      RunOne(c, s, ClaimAnswers(i, !r.reply.Lost?));
    }
  }

  /** What a run of one more request comes to. */
  ghost predicate Handled(c: Config, s: State, r: Submission, s1: State) {
    && |s1.requests| == |s.requests| + 1 && s1.requests[..|s.requests|] == s.requests
    && AnsweredWith(s1.requests[|s.requests|], Judge(c, s.keys, s.now, r))
    && s1.keys == KeysAfter(c, s.keys, s.now, r)
  }

  lemma LostRequestIsRun(c: Config, s: State, r: Submission)
    requires Claims(c, r) && r.reply == Lost(false)
    ensures Handled(c, s, r, Run(c, s, Path(c, s, r)))
  {
    var i := |s.requests|;
    var admitted := [Arrive(r.envelope, r.localClock), RegistryAnswers(i, true)];
    FreshEnvelopeIsSent(c, s, r.envelope.value, r.localClock);
    RunTwo(c, Sent(s, r.envelope.value, r.localClock), Tick(r.delay), ClaimTimesOut(i));
    hide KeyOf, Run, WellSized, FreshTimestamp;
    RunConcat(c, s, admitted, [Tick(r.delay), ClaimTimesOut(i)]);
  }

  lemma ClaimIsRun(c: Config, s: State, r: Submission)
    requires Claims(c, r) && r.reply != Lost(false)
    ensures Handled(c, s, r, Run(c, s, Path(c, s, r)))
  {
    hide Run, Step, KeyOf, Held, SetIfAbsent, WellSized, FreshTimestamp;
    var i := |s.requests|;
    var admitted := [Arrive(r.envelope, r.localClock), RegistryAnswers(i, true)];
    var claimed := [Tick(r.delay), ClaimRuns(i)];
    var v := Judge(c, s.keys, s.now, r);
    FreshEnvelopeIsSent(c, s, r.envelope.value, r.localClock);
    StoreRuns(c, s, r);
    StoreAnswers(c, Run(c, Sent(s, r.envelope.value, r.localClock), claimed), i, v, r);
    RunConcat(c, Sent(s, r.envelope.value, r.localClock), claimed, Settled(i, v, r));
    RunConcat(c, s, admitted, claimed + Settled(i, v, r));
    assert admitted + (claimed + Settled(i, v, r)) == Path(c, s, r);
  }

  /** The handler's verdict, and what it does to the store, are those of a run of the machine. */
  lemma HandlerIsRun(c: Config, s: State, r: Submission)
    ensures Handled(c, s, r, Run(c, s, Path(c, s, r)))
  {
    if !Claims(c, r) {
      RunOne(c, s, Arrive(r.envelope, r.localClock));
      RunTwo(c, s, Arrive(r.envelope, r.localClock), RegistryAnswers(|s.requests|, false));
    } else if r.reply == Lost(false) {
      LostRequestIsRun(c, s, r);
    } else {
      ClaimIsRun(c, s, r);
    }
  }

  /**
   * How a request comes out, in the order of the checks: an envelope that does not parse or is
   * missized, a timestamp out of the window, a sensor not enabled, a lost reply, a claim of the same
   * sensor and nonce less than a TTL old when the command runs, and Kafka.
   */
  lemma StatusIsSpecified(c: Config, start: int, es: seq<Event>, r: Submission)
    requires Injective(c.sha256)
    ensures var s := Run(c, Init(start), es);
      StatusOf(Judge(c, s.keys, s.now, r))
      == if r.envelope.None? || |r.envelope.value.sensorId| != 32
            || |r.envelope.value.nonce| < 16 || |r.envelope.value.nonce| > 32 || |r.envelope.value.message| == 0 then 400
         else
           var e := r.envelope.value;
           if e.timestampMs < -9007199254740991 || e.timestampMs > 9007199254740991
              || r.localClock - e.timestampMs > c.timestampSkewSeconds * 1000
              || e.timestampMs - r.localClock > c.timestampSkewSeconds * 1000 then 401
           else if !r.enabled then 403
           else if r.reply.Lost? then 503
           else if ClaimedRecently(c, s, e.sensorId, e.nonce, s.now + r.delay) then 409
           else if r.publishOk then 202
           else 503
  {
    var s := Run(c, Init(start), es);
    if r.envelope.Some? && WellSized(r.envelope.value) {
      HeldExactlyWhileClaimed(c, start, es, r.envelope.value, s.now + r.delay);
    }
    hide Run, KeyOf, ClaimedRecently, Held;
  }

  // ---------------------------------------------------------------------------
  // The instance
  // ---------------------------------------------------------------------------

  class EndpointInstance {
    const config: Config
    const nonceStore: RedisNonceStore
    var accepted: nat
    var rejected: nat
    var kafkaErrors: nat
    var duplicateNonces: nat
    var nonceStoreErrors: nat
    /** Every rejected event published so far, and those whose publish has not settled, by position. */
    var rejectedEvents: seq<Rejection>
    var pendingRejectedPublishes: set<nat>

    ghost function View(): Metrics
      reads this
    {
      Metrics(accepted, rejected, kafkaErrors, duplicateNonces, nonceStoreErrors)
    }

    ghost predicate Valid()
      reads nonceStore
    {
      nonceStore.prefix == config.prefix && nonceStore.ttlSeconds == config.ttlSeconds
    }

    constructor (config: Config, nonceStore: RedisNonceStore)
      requires nonceStore.prefix == config.prefix && nonceStore.ttlSeconds == config.ttlSeconds
      ensures this.config == config && this.nonceStore == nonceStore && Valid()
      ensures View() == NO_METRICS && rejectedEvents == [] && pendingRejectedPublishes == {}
    {
      this.config, this.nonceStore := config, nonceStore;
      accepted, rejected, kafkaErrors, duplicateNonces, nonceStoreErrors := 0, 0, 0, 0, 0;
      rejectedEvents, pendingRejectedPublishes := [], {};
    }

    method PublishRejectedEvent(sensorId: Bytes, reason: Verdict)
      modifies this`rejectedEvents, this`pendingRejectedPublishes
      ensures rejectedEvents == old(rejectedEvents) + [Rejection(sensorId, reason)]
      ensures pendingRejectedPublishes == old(pendingRejectedPublishes) + {|old(rejectedEvents)|}
    {
      pendingRejectedPublishes := pendingRejectedPublishes + {|rejectedEvents|};
      rejectedEvents := rejectedEvents + [Rejection(sensorId, reason)];
    }

    /** A rejected event's publish resolves or rejects; either way the instance stops tracking it. */
    method RejectedPublishSettles(i: nat)
      modifies this`pendingRejectedPublishes
      ensures pendingRejectedPublishes == old(pendingRejectedPublishes) - {i}
    {
      pendingRejectedPublishes := pendingRejectedPublishes - {i};
    }

    /** The onClose hook: closing goes on exactly when no publish is pending. */
    method MayClose() returns (yes: bool)
      ensures yes <==> forall i: nat :: i !in pendingRejectedPublishes
    {
      yes := pendingRejectedPublishes == {};
    }

    /** The route handler. A rejected event is published exactly for the three verdicts about a readable envelope. */
    method HandleTelemetry(now: int, r: Submission) returns (status: nat)
      requires Valid()
      modifies this, nonceStore
      ensures Valid()
      ensures var v := Judge(config, old(nonceStore.keys), now, r);
        && status == StatusOf(v)
        && View() == Count(old(View()), v)
        && rejectedEvents == old(rejectedEvents)
             + (if v.StaleTimestamp? || v.SensorForbidden? || v.DuplicateNonce? then [Rejection(r.envelope.value.sensorId, v)] else [])
        && pendingRejectedPublishes == old(pendingRejectedPublishes)
             + (if |rejectedEvents| > |old(rejectedEvents)| then {|old(rejectedEvents)|} else {})
      ensures nonceStore.keys == KeysAfter(config, old(nonceStore.keys), now, r)
    {
      if r.envelope.None? || !WellSized(r.envelope.value) {
        rejected := rejected + 1;
        return 400;
      }
      var envelope := r.envelope.value;
      var skewMs := Abs(r.localClock - envelope.timestampMs);
      if envelope.timestampMs < -MAX_SAFE_INTEGER || envelope.timestampMs > MAX_SAFE_INTEGER
         || skewMs > config.timestampSkewSeconds * 1000 {
        rejected := rejected + 1;
        PublishRejectedEvent(envelope.sensorId, StaleTimestamp);
        return 401;
      }
      if !r.enabled {
        rejected := rejected + 1;
        PublishRejectedEvent(envelope.sensorId, SensorForbidden);
        return 403;
      }
      var claimed := nonceStore.Claim(envelope.sensorId, envelope.nonce, config.sha256, now + r.delay, r.reply);
      if claimed.Unavailable? {
        nonceStoreErrors := nonceStoreErrors + 1;
        rejected := rejected + 1;
        return 503;
      }
      if claimed.Duplicate? {
        rejected := rejected + 1;
        duplicateNonces := duplicateNonces + 1;
        PublishRejectedEvent(envelope.sensorId, DuplicateNonce);
        return 409;
      }
      if !r.publishOk {
        kafkaErrors := kafkaErrors + 1;
        rejected := rejected + 1;
        return 503;
      }
      accepted := accepted + 1;
      return 202;
    }
  }
}
