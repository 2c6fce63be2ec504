/**
 * Telemetry ingestion (services/endpoint/src/index.ts, POST /v1/telemetry).
 *
 * Any number of instances share one nonce store. Each request is suspended at
 * its awaits while others run; time is the store's clock, in milliseconds, and
 * every instance reads its own clock once, when it checks the timestamp.
 */
module Endpoint {
  import opened Common
  import opened NonceStore

  const MAX_SAFE_INTEGER: int := 9007199254740991

  /** A signed envelope. The signature covers sensorId, nonce and message; the timestamp is read from the message. */
  datatype Envelope = Envelope(sensorId: Bytes, nonce: Bytes, timestampMs: int, message: Bytes)

  datatype Config = Config(
    prefix: string,
    ttlSeconds: nat,
    timestampSkewSeconds: nat,
    sha256: Bytes -> string)

  /** An envelope that passed parsing and signature, and when: by the store's clock and by the instance's. */
  datatype Admission = Admission(envelope: Envelope, checkedAt: int, localClock: int)

  /** The await a request is suspended on, or the status it was answered with. */
  datatype Request =
    | RegistryRead(admission: Admission)
    | ClaimSent(admission: Admission)
    | ClaimDone(admission: Admission, won: Option<nat>)
    | Publishing(admission: Admission, claim: nat)
    | GivenUp(admission: Admission)
    | Answered(status: nat)

  /** A SET that created its key, for request `request` at time `at`. */
  datatype Claim = Claim(request: nat, admission: Admission, at: int)

  /** A call of publishAuthorized by request `request`, resting on the claim of that index. */
  datatype Attempt = Attempt(request: nat, claim: nat)

  datatype State = State(
    now: int,
    keys: Keys,
    requests: seq<Request>,
    claims: seq<Claim>,
    attempts: seq<Attempt>)

  datatype Event =
    | Tick(ms: nat)
    | Arrive(envelope: Option<Envelope>, localClock: int)
    | RegistryAnswers(request: nat, enabled: bool)
    | ClaimRuns(request: nat)
    | ClaimTimesOut(request: nat)
    | ClaimAnswers(request: nat, delivered: bool)
    | PublishSettles(request: nat, ok: bool)

  function Init(now: int): State {
    State(now, map[], [], [], [])
  }

  function Abs(x: int): nat {
    if x < 0 then -x else x
  }

  predicate FreshTimestamp(c: Config, timestampMs: int, localClock: int) {
    && -MAX_SAFE_INTEGER <= timestampMs <= MAX_SAFE_INTEGER
    && Abs(localClock - timestampMs) <= c.timestampSkewSeconds * 1000
  }

  /** Lengths the envelope validation lets through; the others are answered 400. */
  predicate WellSized(e: Envelope) {
    |e.sensorId| == 32 && 16 <= |e.nonce| <= 32 && e.message != []
  }

  /** The key an admitted envelope claims. */
  function KeyOf(c: Config, e: Envelope): string {
    if WellSized(e) then DeriveNonceKey(c.prefix, e.sensorId, e.nonce, c.sha256) else ""
  }

  // ---------------------------------------------------------------------------
  // Steps
  // ---------------------------------------------------------------------------

  function Admit(c: Config, s: State, envelope: Option<Envelope>, localClock: int): Request {
    if envelope.None? || !WellSized(envelope.value) then Answered(400)
    else if !FreshTimestamp(c, envelope.value.timestampMs, localClock) then Answered(401)
    else RegistryRead(Admission(envelope.value, s.now, localClock))
  }

  function Put(s: State, i: nat, r: Request): State
    requires i < |s.requests|
  {
    s.(requests := s.requests[i := r])
  }

  /** Redis runs the SET of request `i`, which may have stopped waiting for it. */
  function RunClaim(c: Config, s: State, i: nat): State
    requires i < |s.requests| && (s.requests[i].ClaimSent? || s.requests[i].GivenUp?)
  {
    var a := s.requests[i].admission;
    var key := KeyOf(c, a.envelope);
    var won := !Held(s.keys, key, s.now);
    var s1 := s.(keys := SetIfAbsent(s.keys, key, s.now, c.ttlSeconds),
                 claims := if won then s.claims + [Claim(i, a, s.now)] else s.claims);
    Put(s1, i, if s.requests[i].GivenUp? then Answered(503)
               else ClaimDone(a, if won then Some(|s.claims|) else None))
  }

  function Step(c: Config, s: State, e: Event): State {
    match e
    case Tick(ms) => s.(now := s.now + ms)
    case Arrive(envelope, localClock) => s.(requests := s.requests + [Admit(c, s, envelope, localClock)])
    case RegistryAnswers(i, enabled) =>
      if i < |s.requests| && s.requests[i].RegistryRead? then
        Put(s, i, if enabled then ClaimSent(s.requests[i].admission) else Answered(403))
      else s
    case ClaimRuns(i) =>
      if i < |s.requests| && (s.requests[i].ClaimSent? || s.requests[i].GivenUp?) then
        RunClaim(c, s, i)
      else s
    case ClaimTimesOut(i) =>
      if i < |s.requests| && s.requests[i].ClaimSent? then Put(s, i, GivenUp(s.requests[i].admission)) else s
    case ClaimAnswers(i, delivered) =>
      if i < |s.requests| && s.requests[i].ClaimDone? then
        if !delivered then Put(s, i, Answered(503))
        else
          match s.requests[i].won
          case None => Put(s, i, Answered(409))
          case Some(k) => Put(s, i, Publishing(s.requests[i].admission, k)).(attempts := s.attempts + [Attempt(i, k)])
      else s
    case PublishSettles(i, ok) =>
      if i < |s.requests| && s.requests[i].Publishing? then Put(s, i, Answered(if ok then 202 else 503)) else s
  }

  function Run(c: Config, s: State, es: seq<Event>): State {
    if es == [] then s else Step(c, Run(c, s, Front(es)), Last(es))
  }

  // ---------------------------------------------------------------------------
  // The invariant
  // ---------------------------------------------------------------------------

  ghost predicate Admitted(c: Config, s: State, a: Admission) {
    && WellSized(a.envelope)
    && FreshTimestamp(c, a.envelope.timestampMs, a.localClock)
    && a.checkedAt <= s.now
  }

  ghost predicate RequestOk(c: Config, s: State, i: nat, r: Request) {
    match r
    case Answered(_) => true
    case ClaimDone(a, won) =>
      Admitted(c, s, a) && (won.Some? ==> won.value < |s.claims| && s.claims[won.value].request == i)
    case Publishing(a, k) => Admitted(c, s, a)
    case RegistryRead(a) => Admitted(c, s, a)
    case ClaimSent(a) => Admitted(c, s, a)
    case GivenUp(a) => Admitted(c, s, a)
  }

  ghost predicate ClaimOk(c: Config, s: State, k: Claim) {
    && Admitted(c, s, k.admission)
    && k.admission.checkedAt <= k.at <= s.now
    && KeyOf(c, k.admission.envelope) in s.keys
    && k.at + c.ttlSeconds * 1000 <= s.keys[KeyOf(c, k.admission.envelope)]
  }

  /** Two claims of one key are at least one TTL apart. */
  ghost predicate Spaced(c: Config, s: State) {
    forall i, j :: 0 <= i < j < |s.claims|
      && KeyOf(c, s.claims[i].admission.envelope) == KeyOf(c, s.claims[j].admission.envelope)
      ==> s.claims[i].at + c.ttlSeconds * 1000 <= s.claims[j].at
  }

  /** Each publish attempt rests on the one claim its own request won. */
  ghost predicate AttemptsOwnClaims(s: State) {
    && (forall t <- s.attempts :: t.request < |s.requests| && t.claim < |s.claims| && s.claims[t.claim].request == t.request)
    && (forall t <- s.attempts :: s.requests[t.request].Publishing? || s.requests[t.request].Answered?)
    && (forall i, j :: 0 <= i < j < |s.attempts| ==> s.attempts[i].request != s.attempts[j].request)
  }

  ghost predicate Inv(c: Config, s: State) {
    && (forall i :: 0 <= i < |s.requests| ==> RequestOk(c, s, i, s.requests[i]))
    && (forall k <- s.claims :: ClaimOk(c, s, k))
    && Spaced(c, s)
    && AttemptsOwnClaims(s)
  }

  lemma RunClaimKeeps(c: Config, s: State, i: nat)
    requires Inv(c, s) && i < |s.requests| && (s.requests[i].ClaimSent? || s.requests[i].GivenUp?)
    ensures Inv(c, RunClaim(c, s, i))
  {
    var a := s.requests[i].admission;
    var key := KeyOf(c, a.envelope);
    var s1 := RunClaim(c, s, i);
    forall k <- s1.claims ensures ClaimOk(c, s1, k) {
      if k in s.claims {
        assert ClaimOk(c, s, k);
      }
    }
    forall j, k | 0 <= j < k < |s1.claims|
      && KeyOf(c, s1.claims[j].admission.envelope) == KeyOf(c, s1.claims[k].admission.envelope)
      ensures s1.claims[j].at + c.ttlSeconds * 1000 <= s1.claims[k].at
    {
      assert ClaimOk(c, s, s.claims[j]);
    }
  }

  /** Moving one request on, with claims, keys and attempts as they were. */
  lemma PutKeeps(c: Config, s: State, i: nat, r: Request)
    requires Inv(c, s) && i < |s.requests| && RequestOk(c, s, i, r)
    requires s.requests[i].Publishing? ==> r.Answered?
    requires s.requests[i].Answered? ==> r.Answered?
    ensures Inv(c, Put(s, i, r))
  {
    var s1 := Put(s, i, r);
    forall k <- s1.claims ensures ClaimOk(c, s1, k) {
      assert ClaimOk(c, s, k);
    }
    forall j | 0 <= j < |s1.requests| ensures RequestOk(c, s1, j, s1.requests[j]) {
      assert RequestOk(c, s, j, s.requests[j]);
    }
  }

  lemma ArriveKeeps(c: Config, s: State, envelope: Option<Envelope>, localClock: int)
    requires Inv(c, s)
    ensures Inv(c, Step(c, s, Arrive(envelope, localClock)))
  {
    var s1 := Step(c, s, Arrive(envelope, localClock));
    forall j | 0 <= j < |s1.requests| ensures RequestOk(c, s1, j, s1.requests[j]) {
      if j < |s.requests| {
        assert RequestOk(c, s, j, s.requests[j]);
      }
    }
    forall k <- s1.claims ensures ClaimOk(c, s1, k) {
      assert ClaimOk(c, s, k);
    }
  }

  lemma TickKeeps(c: Config, s: State, ms: nat)
    requires Inv(c, s)
    ensures Inv(c, s.(now := s.now + ms))
  {
    var s1 := s.(now := s.now + ms);
    forall k <- s1.claims ensures ClaimOk(c, s1, k) {
      assert ClaimOk(c, s, k);
    }
    forall j | 0 <= j < |s1.requests| ensures RequestOk(c, s1, j, s1.requests[j]) {
      assert RequestOk(c, s, j, s.requests[j]);
    }
  }

  lemma PublishKeeps(c: Config, s: State, i: nat, k: nat)
    requires Inv(c, s) && i < |s.requests| && s.requests[i].ClaimDone? && s.requests[i].won == Some(k)
    ensures Inv(c, Put(s, i, Publishing(s.requests[i].admission, k)).(attempts := s.attempts + [Attempt(i, k)]))
  {
    assert RequestOk(c, s, i, s.requests[i]);
    PutKeeps(c, s, i, Publishing(s.requests[i].admission, k));
    var s1 := Put(s, i, Publishing(s.requests[i].admission, k));
    var s2 := s1.(attempts := s.attempts + [Attempt(i, k)]);
    forall k <- s2.claims ensures ClaimOk(c, s2, k) {
      assert ClaimOk(c, s1, k);
    }
    forall j | 0 <= j < |s2.requests| ensures RequestOk(c, s2, j, s2.requests[j]) {
      assert RequestOk(c, s1, j, s1.requests[j]);
    }
    forall t <- s.attempts ensures t.request != i {
      assert s.requests[t.request].Publishing? || s.requests[t.request].Answered?;
    }
  }

  lemma RequestEventKeeps(c: Config, s: State, e: Event)
    requires Inv(c, s) && (e.RegistryAnswers? || e.ClaimTimesOut? || e.ClaimAnswers? || e.PublishSettles?)
    ensures Inv(c, Step(c, s, e))
  {
    var i := e.request;
    if i < |s.requests| {
      assert RequestOk(c, s, i, s.requests[i]);
      hide Inv;
      match s.requests[i]
      case RegistryRead(a) =>
        PutKeeps(c, s, i, ClaimSent(a));
        PutKeeps(c, s, i, Answered(403));
      case ClaimSent(a) => PutKeeps(c, s, i, GivenUp(a));
      case ClaimDone(a, won) =>
        PutKeeps(c, s, i, Answered(503));
        if won.None? { PutKeeps(c, s, i, Answered(409)); } else { PublishKeeps(c, s, i, won.value); }
      case Publishing(_, _) =>
        PutKeeps(c, s, i, Answered(202));
        PutKeeps(c, s, i, Answered(503));
      case _ =>
    }
  }

  lemma StepKeeps(c: Config, s: State, e: Event)
    requires Inv(c, s)
    ensures Inv(c, Step(c, s, e))
  {
    hide Inv;
    match e
    case Tick(ms) => TickKeeps(c, s, ms);
    case Arrive(envelope, localClock) => ArriveKeeps(c, s, envelope, localClock);
    case ClaimRuns(i) =>
      if i < |s.requests| && (s.requests[i].ClaimSent? || s.requests[i].GivenUp?) { RunClaimKeeps(c, s, i); }
    case _ => RequestEventKeeps(c, s, e);
  }

  lemma {:induction false} RunKeeps(c: Config, now: int, es: seq<Event>)
    ensures Inv(c, Run(c, Init(now), es))
  {
    if es != [] {
      RunKeeps(c, now, Front(es));
      StepKeeps(c, Run(c, Init(now), Front(es)), Last(es));
    }
  }

  // ---------------------------------------------------------------------------
  // Main results
  // ---------------------------------------------------------------------------

  /** The envelope of the claim a publish attempt rests on. */
  function AttemptEnvelope(s: State, i: nat): Envelope
    requires i < |s.attempts| && s.attempts[i].claim < |s.claims|
  {
    s.claims[s.attempts[i].claim].admission.envelope
  }

  function AttemptTime(s: State, i: nat): int
    requires i < |s.attempts| && s.attempts[i].claim < |s.claims|
  {
    s.claims[s.attempts[i].claim].at
  }

  lemma SpacedClaims(c: Config, s: State, k: nat, l: nat)
    requires Spaced(c, s) && k < |s.claims| && l < |s.claims| && k != l
    requires KeyOf(c, s.claims[k].admission.envelope) == KeyOf(c, s.claims[l].admission.envelope)
    ensures Abs(s.claims[k].at - s.claims[l].at) >= c.ttlSeconds * 1000
  {
  }

  lemma SameKey(c: Config, e1: Envelope, e2: Envelope)
    requires WellSized(e1) && WellSized(e2) && e1.sensorId == e2.sensorId && e1.nonce == e2.nonce
    ensures KeyOf(c, e1) == KeyOf(c, e2)
  {
  }

  /** For one (sensor, nonce) pair, two publish attempts rest on claims at least one TTL apart. */
  lemma AttemptsAreTtlApart(c: Config, now: int, es: seq<Event>, i: nat, j: nat)
    requires var s := Run(c, Init(now), es);
      && i < |s.attempts| && j < |s.attempts| && i != j
      && s.attempts[i].claim < |s.claims| && s.attempts[j].claim < |s.claims|
      && AttemptEnvelope(s, i).sensorId == AttemptEnvelope(s, j).sensorId
      && AttemptEnvelope(s, i).nonce == AttemptEnvelope(s, j).nonce
    ensures var s := Run(c, Init(now), es);
      Abs(AttemptTime(s, i) - AttemptTime(s, j)) >= c.ttlSeconds * 1000
  {
    RunKeeps(c, now, es);
    var s := Run(c, Init(now), es);
    hide Run;
    var k, l := s.attempts[i].claim, s.attempts[j].claim;
    assert s.attempts[i].request != s.attempts[j].request;
    assert s.attempts[i] in s.attempts && s.attempts[j] in s.attempts;
    assert k != l;
    assert ClaimOk(c, s, s.claims[k]) && ClaimOk(c, s, s.claims[l]);
    SameKey(c, s.claims[k].admission.envelope, s.claims[l].admission.envelope);
    SpacedClaims(c, s, k, l);
  }

  /** Every publish attempt rests on a claim that its own request won. */
  lemma PublishNeedsClaim(c: Config, now: int, es: seq<Event>)
    ensures AttemptsOwnClaims(Run(c, Init(now), es))
  {
    RunKeeps(c, now, es);
  }

  /** How far an instance's clock was from the store's when it checked this admission. */
  function ClockError(a: Admission): int {
    a.localClock - a.checkedAt
  }

  /** The later claim's delay since its check, plus how the clocks of the two checks disagree, stays under the margin of a minute. */
  predicate Timely(first: Claim, later: Claim) {
    later.at - later.admission.checkedAt + (ClockError(first.admission) - ClockError(later.admission)) < 60000
  }

  /** Both acceptances of one envelope lie in its window, so timely claims of it are closer than any accepted TTL. */
  lemma ClaimsOfOneEnvelopeAreClose(c: Config, s: State, k: nat, l: nat)
    requires Inv(c, s) && TtlAccepted(c.ttlSeconds, c.timestampSkewSeconds)
    requires k < |s.claims| && l < |s.claims| && Timely(s.claims[k], s.claims[l])
    requires s.claims[k].admission.envelope == s.claims[l].admission.envelope
    ensures s.claims[l].at - s.claims[k].at < c.ttlSeconds * 1000
  {
    assert s.claims[k] in s.claims && s.claims[l] in s.claims;
    assert ClaimOk(c, s, s.claims[k]) && ClaimOk(c, s, s.claims[l]);
  }

  /**
   * Over all instances and all time a signed envelope is claimed at most once, if the TTL
   * is one that startup accepts: a second claim of it is never timely, whatever other
   * requests did.
   */
  lemma EnvelopeClaimedAtMostOnce(c: Config, now: int, es: seq<Event>, i: nat, j: nat)
    requires TtlAccepted(c.ttlSeconds, c.timestampSkewSeconds)
    requires var s := Run(c, Init(now), es);
      i < j < |s.claims| && s.claims[i].admission.envelope == s.claims[j].admission.envelope
    ensures !Timely(Run(c, Init(now), es).claims[i], Run(c, Init(now), es).claims[j])
  {
    RunKeeps(c, now, es);
    var s := Run(c, Init(now), es);
    hide Run;
    if Timely(s.claims[i], s.claims[j]) {
      ClaimsOfOneEnvelopeAreClose(c, s, i, j);
    }
  }

  // ---------------------------------------------------------------------------
  // Which claims lose
  // ---------------------------------------------------------------------------

  /** Every stored key was set by a claim, and expires one TTL after it. */
  ghost predicate KeysFromClaims(c: Config, s: State) {
    forall key <- s.keys :: exists k: nat :: SetBy(c, s, key, k)
  }

  ghost predicate SetBy(c: Config, s: State, key: string, k: nat)
    requires key in s.keys
  {
    && k < |s.claims|
    && KeyOf(c, s.claims[k].admission.envelope) == key
    && s.keys[key] == s.claims[k].at + c.ttlSeconds * 1000
  }

  lemma RunClaimTellsKeys(c: Config, s: State, i: nat)
    requires KeysFromClaims(c, s) && i < |s.requests| && (s.requests[i].ClaimSent? || s.requests[i].GivenUp?)
    ensures KeysFromClaims(c, RunClaim(c, s, i))
  {
    var s1 := RunClaim(c, s, i);
    hide KeyOf;
    forall key <- s1.keys ensures exists k: nat :: SetBy(c, s1, key, k) {
      if key in s.keys && s1.keys[key] == s.keys[key] {
        var k: nat :| SetBy(c, s, key, k);
        assert SetBy(c, s1, key, k);
      } else {
        assert SetBy(c, s1, key, |s.claims|);
      }
    }
  }

  lemma SameClaimsTellKeys(c: Config, s: State, s1: State)
    requires KeysFromClaims(c, s) && s1.keys == s.keys && s1.claims == s.claims
    ensures KeysFromClaims(c, s1)
  {
    forall key <- s1.keys ensures exists k: nat :: SetBy(c, s1, key, k) {
      var k: nat :| SetBy(c, s, key, k);
      assert SetBy(c, s1, key, k);
    }
  }

  lemma OnlyClaimsSetKeys(c: Config, s: State, e: Event)
    requires !e.ClaimRuns?
    ensures Step(c, s, e).keys == s.keys && Step(c, s, e).claims == s.claims
  {
    hide Admit;
  }

  lemma {:induction false} RunTellsKeys(c: Config, now: int, es: seq<Event>)
    ensures KeysFromClaims(c, Run(c, Init(now), es))
  {
    if es != [] {
      RunTellsKeys(c, now, Front(es));
      var s, e := Run(c, Init(now), Front(es)), Last(es);
      hide RunClaim, KeysFromClaims;
      if e.ClaimRuns? {
        if e.request < |s.requests| && (s.requests[e.request].ClaimSent? || s.requests[e.request].GivenUp?) {
          RunClaimTellsKeys(c, s, e.request);
        }
      } else {
        hide Step;
        OnlyClaimsSetKeys(c, s, e);
        SameClaimsTellKeys(c, s, Step(c, s, e));
      }
    }
  }

  /** At time `t` a claim of this sensor and nonce is less than a TTL old. */
  ghost predicate ClaimedRecently(c: Config, s: State, sensorId: Bytes, nonce: Bytes, t: int) {
    exists k: nat :: ClaimedBy(c, s, k, sensorId, nonce, t)
  }

  ghost predicate ClaimedBy(c: Config, s: State, k: nat, sensorId: Bytes, nonce: Bytes, t: int) {
    && k < |s.claims|
    && s.claims[k].admission.envelope.sensorId == sensorId
    && s.claims[k].admission.envelope.nonce == nonce
    && s.claims[k].at <= t < s.claims[k].at + c.ttlSeconds * 1000
  }

  lemma SameKeyExactly(c: Config, e1: Envelope, e2: Envelope)
    requires WellSized(e1) && WellSized(e2) && Injective(c.sha256)
    ensures KeyOf(c, e1) == KeyOf(c, e2) <==> e1.sensorId == e2.sensorId && e1.nonce == e2.nonce
  {
    KeysMeetExactlyOnEqualPairs(c.prefix, c.sha256, e1.sensorId, e1.nonce, e2.sensorId, e2.nonce);
  }

  /** A key is held exactly while a claim of the same sensor and nonce is less than a TTL old. */
  lemma HeldExactlyWhileClaimed(c: Config, now: int, es: seq<Event>, e: Envelope, t: int)
    requires Injective(c.sha256) && WellSized(e) && Run(c, Init(now), es).now <= t
    ensures var s := Run(c, Init(now), es);
      Held(s.keys, KeyOf(c, e), t) <==> ClaimedRecently(c, s, e.sensorId, e.nonce, t)
  {
    RunKeeps(c, now, es);
    RunTellsKeys(c, now, es);
    var s := Run(c, Init(now), es);
    hide Run, KeyOf, WellSized;
    if Held(s.keys, KeyOf(c, e), t) {
      var k: nat :| SetBy(c, s, KeyOf(c, e), k);
      assert ClaimOk(c, s, s.claims[k]);
      SameKeyExactly(c, s.claims[k].admission.envelope, e);
      assert ClaimedBy(c, s, k, e.sensorId, e.nonce, t);
    }
    if k: nat :| ClaimedBy(c, s, k, e.sensorId, e.nonce, t) {
      assert ClaimOk(c, s, s.claims[k]);
      SameKeyExactly(c, s.claims[k].admission.envelope, e);
    }
  }

  /**
   * Over every run, a claim whose command runs loses exactly if a claim of the same sensor and
   * nonce is less than a TTL old; otherwise it wins, and is recorded. Other pairs never block it.
   */
  lemma ClaimLosesExactlyWhileClaimed(c: Config, now: int, es: seq<Event>, i: nat)
    requires Injective(c.sha256)
    requires var s := Run(c, Init(now), es); i < |s.requests| && (s.requests[i].ClaimSent? || s.requests[i].GivenUp?)
    ensures var s := Run(c, Init(now), es);
      var a, s1 := s.requests[i].admission, Step(c, s, ClaimRuns(i));
      if ClaimedRecently(c, s, a.envelope.sensorId, a.envelope.nonce, s.now) then
        s1.claims == s.claims && (s.requests[i].ClaimSent? ==> s1.requests[i] == ClaimDone(a, None))
      else
        && s1.claims == s.claims + [Claim(i, a, s.now)]
        && (s.requests[i].ClaimSent? ==> s1.requests[i] == ClaimDone(a, Some(|s.claims|)))
  {
    RunKeeps(c, now, es);
    var s := Run(c, Init(now), es);
    assert RequestOk(c, s, i, s.requests[i]);
    HeldExactlyWhileClaimed(c, now, es, s.requests[i].admission.envelope, s.now);
    hide Run, KeyOf, ClaimedRecently;
  }

  /** When a lost claim ran, a claim of the same pair was less than a TTL old. */
  ghost predicate LostToClaim(c: Config, s: State, a: Admission) {
    exists t :: a.checkedAt <= t <= s.now && ClaimedRecently(c, s, a.envelope.sensorId, a.envelope.nonce, t)
  }

  lemma LostStaysLost(c: Config, s: State, s1: State, a: Admission)
    requires LostToClaim(c, s, a) && s.claims <= s1.claims && s.now <= s1.now
    ensures LostToClaim(c, s1, a)
  {
    var t :| a.checkedAt <= t <= s.now && ClaimedRecently(c, s, a.envelope.sensorId, a.envelope.nonce, t);
    var k: nat :| ClaimedBy(c, s, k, a.envelope.sensorId, a.envelope.nonce, t);
    assert ClaimedBy(c, s1, k, a.envelope.sensorId, a.envelope.nonce, t);
    assert ClaimedRecently(c, s1, a.envelope.sensorId, a.envelope.nonce, t);
  }

  lemma StepGrows(c: Config, s: State, e: Event)
    ensures s.claims <= Step(c, s, e).claims && s.now <= Step(c, s, e).now && |s.requests| <= |Step(c, s, e).requests|
  {
    hide KeyOf, Admit;
  }

  /** A request comes to have lost its claim only when its command runs. */
  lemma LosesOnlyByRunning(c: Config, s: State, e: Event, i: nat)
    requires i < |Step(c, s, e).requests| && Step(c, s, e).requests[i].ClaimDone? && e != ClaimRuns(i)
    ensures i < |s.requests| && Step(c, s, e).requests[i] == s.requests[i]
  {
    hide KeyOf, FreshTimestamp, WellSized;
  }

  /** A request has lost its claim only to an earlier claim of its own sensor and nonce. */
  lemma {:induction false} LosersLostToAClaim(c: Config, now: int, es: seq<Event>, i: nat)
    requires Injective(c.sha256)
    requires var s := Run(c, Init(now), es); i < |s.requests| && s.requests[i].ClaimDone? && s.requests[i].won.None?
    ensures var s := Run(c, Init(now), es); LostToClaim(c, s, s.requests[i].admission)
  {
    if es != [] {
      var s, e := Run(c, Init(now), Front(es)), Last(es);
      StepGrows(c, s, e);
      if e == ClaimRuns(i) && i < |s.requests| && (s.requests[i].ClaimSent? || s.requests[i].GivenUp?) {
        RunKeeps(c, now, Front(es));
        assert RequestOk(c, s, i, s.requests[i]);
        ClaimLosesExactlyWhileClaimed(c, now, Front(es), i);
        var a := s.requests[i].admission;
        assert LostToClaim(c, s, a);
        LostStaysLost(c, s, Step(c, s, e), a);
      } else {
        if e != ClaimRuns(i) {
          LosesOnlyByRunning(c, s, e, i);
        }
        LosersLostToAClaim(c, now, Front(es), i);
        hide Step, LostToClaim;
        LostStaysLost(c, s, Step(c, s, e), s.requests[i].admission);
      }
    }
  }

  /** Whoever is answered 409 has lost its claim, so an earlier one of its sensor and nonce was less than a TTL old. */
  lemma ConflictMeansClaimed(c: Config, now: int, es: seq<Event>, e: Event, i: nat)
    requires Injective(c.sha256)
    requires var s := Run(c, Init(now), es);
      && i < |s.requests| <= |Step(c, s, e).requests|
      && s.requests[i] != Answered(409) && Step(c, s, e).requests[i] == Answered(409)
    ensures var s := Run(c, Init(now), es);
      s.requests[i].ClaimDone? && e == ClaimAnswers(i, true) && LostToClaim(c, s, s.requests[i].admission)
  {
    var s := Run(c, Init(now), es);
    hide Run;
    AnswersConflict(c, s, e, i);
    LosersLostToAClaim(c, now, es, i);
  }

  /** What it takes for a request to be answered with each status. */
  ghost predicate CausedBy(q: Option<Request>, e: Event, i: nat, status: nat) {
    match status
    case 202 => q.Some? && q.value.Publishing? && e == PublishSettles(i, true)
    case 409 => q.Some? && q.value.ClaimDone? && q.value.won.None? && e == ClaimAnswers(i, true)
    case 403 => q.Some? && q.value.RegistryRead? && e == RegistryAnswers(i, false)
    case 503 =>
      || (q.Some? && q.value.Publishing? && e == PublishSettles(i, false))
      || (q.Some? && q.value.ClaimDone? && e == ClaimAnswers(i, false))
      || (q.Some? && q.value.GivenUp? && e == ClaimRuns(i))
    case _ => (status == 400 || status == 401) && q.None? && e.Arrive?
  }

  /** A request is answered in no other way, and what it is answered stays. */
  lemma AnswersHaveTheirCause(c: Config, s: State, e: Event, i: nat)
    requires i < |Step(c, s, e).requests| && Step(c, s, e).requests[i].Answered?
    ensures var q := if i < |s.requests| then Some(s.requests[i]) else None;
      q == Some(Step(c, s, e).requests[i]) || CausedBy(q, e, i, Step(c, s, e).requests[i].status)
    ensures i < |s.requests| && s.requests[i].Answered? ==> Step(c, s, e).requests[i] == s.requests[i]
  {
    hide KeyOf, FreshTimestamp, WellSized;
  }

  lemma AnswersConflict(c: Config, s: State, e: Event, i: nat)
    requires i < |s.requests| && s.requests[i] != Answered(409)
    requires i < |Step(c, s, e).requests| && Step(c, s, e).requests[i] == Answered(409)
    ensures s.requests[i].ClaimDone? && s.requests[i].won.None? && e == ClaimAnswers(i, true)
  {
    AnswersHaveTheirCause(c, s, e, i);
    hide Step;
  }

  // ---------------------------------------------------------------------------
  // One signature, several envelopes
  // ---------------------------------------------------------------------------

  /** buildEnvelopeSigningBytes: the parts are signed one after the other, without their lengths. */
  function SigningBytes(e: Envelope): Bytes {
    e.sensorId + e.nonce + e.message
  }

  /** Under one signature the nonce's length tells the parts apart. */
  lemma NonceLengthTellsPartsApart(e1: Envelope, e2: Envelope)
    requires WellSized(e1) && WellSized(e2) && SigningBytes(e1) == SigningBytes(e2)
    ensures e1.sensorId == e2.sensorId
    ensures |e1.nonce| == |e2.nonce| <==> e1.nonce == e2.nonce && e1.message == e2.message
  {
    var s, t := SigningBytes(e1), SigningBytes(e2);
    assert e1.sensorId == s[..32] && e2.sensorId == t[..32];
    if |e1.nonce| == |e2.nonce| {
      var k := 32 + |e1.nonce|;
      assert e1.nonce == s[32..k] && e2.nonce == t[32..k];
      assert e1.message == s[k..] && e2.message == t[k..];
    }
  }

  /** The first byte of the message read as the last one of the nonce. */
  function Longer(e: Envelope): Envelope
    requires e.message != []
  {
    e.(nonce := e.nonce + [e.message[0]], message := e.message[1..])
  }

  function Shorter(e: Envelope): Envelope
    requires e.nonce != []
  {
    e.(nonce := Front(e.nonce), message := [Last(e.nonce)] + e.message)
  }

  /** A signature fits a second well-sized envelope exactly if its nonce or its message can give a byte to the other. */
  lemma SignatureFitsAnotherEnvelope(e: Envelope)
    requires WellSized(e)
    ensures |e.nonce| > 16 || |e.message| > 1
      <==> exists e2: Envelope :: WellSized(e2) && SigningBytes(e2) == SigningBytes(e) && e2.nonce != e.nonce
  {
    if |e.nonce| > 16 {
      assert SigningBytes(Shorter(e)) == SigningBytes(e) by {
        assert Front(e.nonce) + ([Last(e.nonce)] + e.message) == e.nonce + e.message;
      }
      assert WellSized(Shorter(e)) && Shorter(e).nonce != e.nonce;
    } else if |e.message| > 1 {
      assert SigningBytes(Longer(e)) == SigningBytes(e) by {
        assert e.nonce + [e.message[0]] + e.message[1..] == e.nonce + e.message;
      }
      assert WellSized(Longer(e)) && Longer(e).nonce != e.nonce;
    } else {
      forall e2: Envelope | WellSized(e2) && SigningBytes(e2) == SigningBytes(e) ensures e2.nonce == e.nonce {
        assert |SigningBytes(e2)| == |SigningBytes(e)|;
        NonceLengthTellsPartsApart(e, e2);
      }
    }
  }

  /** The numbers from `lo` to below `hi`. */
  function Range(lo: nat, hi: nat): set<nat>
    decreases hi
  {
    if hi <= lo then {} else Range(lo, hi - 1) + {hi - 1}
  }

  lemma {:induction false} RangeSize(lo: nat, hi: nat, n: nat)
    requires lo <= hi
    ensures n in Range(lo, hi) <==> lo <= n < hi
    ensures |Range(lo, hi)| == hi - lo
    decreases hi
  {
    if lo < hi {
      RangeSize(lo, hi - 1, n);
      RangeSize(lo, hi - 1, hi - 1);
    }
  }

  /** Claims under one signature, each pair of the same envelope timely, and the message telling its timestamp. */
  ghost predicate UnderOneSignature(s: State, ks: seq<nat>) {
    && Distinct(ks)
    && (forall k <- ks :: k < |s.claims|)
    && (forall k <- ks, l <- ks :: SigningBytes(s.claims[k].admission.envelope) == SigningBytes(s.claims[l].admission.envelope))
    && (forall k <- ks, l <- ks :: s.claims[k].admission.envelope.message == s.claims[l].admission.envelope.message ==>
          s.claims[k].admission.envelope.timestampMs == s.claims[l].admission.envelope.timestampMs)
    && (forall k <- ks, l <- ks :: k < l && s.claims[k].admission.envelope == s.claims[l].admission.envelope ==>
          Timely(s.claims[k], s.claims[l]))
  }

  lemma OneClaimPerNonceLength(c: Config, now: int, es: seq<Event>, ks: seq<nat>, k: nat, l: nat)
    requires TtlAccepted(c.ttlSeconds, c.timestampSkewSeconds)
    requires UnderOneSignature(Run(c, Init(now), es), ks) && k in ks && l in ks && k < l
    ensures var s := Run(c, Init(now), es);
      |s.claims[k].admission.envelope.nonce| != |s.claims[l].admission.envelope.nonce|
  {
    RunKeeps(c, now, es);
    var s := Run(c, Init(now), es);
    assert s.claims[k] in s.claims && s.claims[l] in s.claims;
    assert ClaimOk(c, s, s.claims[k]) && ClaimOk(c, s, s.claims[l]);
    var e1, e2 := s.claims[k].admission.envelope, s.claims[l].admission.envelope;
    hide Run;
    if |e1.nonce| == |e2.nonce| {
      NonceLengthTellsPartsApart(e1, e2);
      assert e1 == e2;
      EnvelopeClaimedAtMostOnce(c, now, es, k, l);
    }
  }

  function NonceLength(s: State, k: nat): nat {
    if k < |s.claims| then |s.claims[k].admission.envelope.nonce| else 0
  }

  /** So one signature is good for at most 17 timely claims, one for each length a nonce may have. */
  lemma SignatureClaimedAtMostSeventeenTimes(c: Config, now: int, es: seq<Event>, ks: seq<nat>)
    requires TtlAccepted(c.ttlSeconds, c.timestampSkewSeconds)
    requires UnderOneSignature(Run(c, Init(now), es), ks)
    ensures |ks| <= 17
  {
    RunKeeps(c, now, es);
    var s := Run(c, Init(now), es);
    var lengths := seq(|ks|, i requires 0 <= i < |ks| => NonceLength(s, ks[i]));
    var range := Range(16, 33);
    forall i | 0 <= i < |ks| ensures lengths[i] in range {
      assert ks[i] in ks && s.claims[ks[i]] in s.claims;
      assert ClaimOk(c, s, s.claims[ks[i]]);
      RangeSize(16, 33, lengths[i]);
    }
    forall i, j | 0 <= i < j < |ks| ensures lengths[i] != lengths[j] {
      assert ks[i] in ks && ks[j] in ks && ks[i] != ks[j];
      if ks[i] < ks[j] {
        OneClaimPerNonceLength(c, now, es, ks, ks[i], ks[j]);
      } else {
        OneClaimPerNonceLength(c, now, es, ks, ks[j], ks[i]);
      }
    }
    assert forall n <- lengths :: n in range;
    RangeSize(16, 33, 0);
    DistinctFits(lengths, range);
  }

  /** A request checked and sent to the store, after `delay` the claim runs. */
  function OneClaim(request: nat, e: Envelope, localClock: int, delay: nat): seq<Event> {
    [Arrive(Some(e), localClock), RegistryAnswers(request, true), Tick(delay), ClaimRuns(request)]
  }

  /** The earliest acceptance of an envelope, then the latest one with a delay of exactly the margin. */
  function BoundaryReplay(c: Config, e: Envelope): seq<Event> {
    OneClaim(0, e, e.timestampMs - c.timestampSkewSeconds * 1000, 0)
    + [Tick(2 * (c.timestampSkewSeconds * 1000))]
    + OneClaim(1, e, e.timestampMs + c.timestampSkewSeconds * 1000, NONCE_TTL_MARGIN_SECONDS * 1000)
  }

  lemma {:induction false} RunConcat(c: Config, s: State, a: seq<Event>, b: seq<Event>)
    ensures Run(c, s, a + b) == Run(c, Run(c, s, a), b)
  {
    if b == [] {
      assert a + b == a;
    } else {
      assert Front(a + b) == a + Front(b) && Last(a + b) == Last(b);
      RunConcat(c, s, a, Front(b));
    }
  }

  lemma RunOne(c: Config, s: State, e: Event)
    ensures Run(c, s, [e]) == Step(c, s, e)
  {
    assert Front([e]) == [];
  }

  lemma RunTwo(c: Config, s: State, e1: Event, e2: Event)
    ensures Run(c, s, [e1, e2]) == Step(c, Step(c, s, e1), e2)
  {
    assert Front([e1, e2]) == [e1];
    RunOne(c, s, e1);
  }

  /** The request of a fresh envelope once the registry has let it pass. */
  function Sent(s: State, e: Envelope, localClock: int): State {
    s.(requests := s.requests + [ClaimSent(Admission(e, s.now, localClock))])
  }

  lemma FreshEnvelopeIsSent(c: Config, s: State, e: Envelope, localClock: int)
    requires WellSized(e) && FreshTimestamp(c, e.timestampMs, localClock)
    ensures Run(c, s, [Arrive(Some(e), localClock), RegistryAnswers(|s.requests|, true)]) == Sent(s, e, localClock)
  {
    RunTwo(c, s, Arrive(Some(e), localClock), RegistryAnswers(|s.requests|, true));
  }

  lemma FreeKeyIsClaimed(c: Config, s: State, e: Envelope, localClock: int, delay: nat)
    requires !Held(s.keys, KeyOf(c, e), s.now + delay)
    ensures var s1 := Run(c, Sent(s, e, localClock), [Tick(delay), ClaimRuns(|s.requests|)]);
      && s1.claims == s.claims + [Claim(|s.requests|, Admission(e, s.now, localClock), s.now + delay)]
      && s1.now == s.now + delay && |s1.requests| == |s.requests| + 1
      && s1.keys == s.keys[KeyOf(c, e) := s.now + delay + c.ttlSeconds * 1000]
  {
    RunTwo(c, Sent(s, e, localClock), Tick(delay), ClaimRuns(|s.requests|));
    hide KeyOf;
  }

  /** A fresh envelope whose key is free at the time the claim runs is claimed. */
  lemma OneClaimWins(c: Config, s: State, e: Envelope, localClock: int, delay: nat)
    requires WellSized(e) && FreshTimestamp(c, e.timestampMs, localClock)
    requires !Held(s.keys, KeyOf(c, e), s.now + delay)
    ensures var s1 := Run(c, s, OneClaim(|s.requests|, e, localClock, delay));
      && s1.claims == s.claims + [Claim(|s.requests|, Admission(e, s.now, localClock), s.now + delay)]
      && s1.now == s.now + delay && |s1.requests| == |s.requests| + 1
      && s1.keys == s.keys[KeyOf(c, e) := s.now + delay + c.ttlSeconds * 1000]
  {
    hide Run, Step, KeyOf, FreshTimestamp, WellSized, Held;
    var sent := [Arrive(Some(e), localClock), RegistryAnswers(|s.requests|, true)];
    var claimed := [Tick(delay), ClaimRuns(|s.requests|)];
    FreshEnvelopeIsSent(c, s, e, localClock);
    FreeKeyIsClaimed(c, s, e, localClock, delay);
    RunConcat(c, s, sent, claimed);
    assert sent + claimed == OneClaim(|s.requests|, e, localClock, delay);
  }

  /**
   * The margin cannot be met with equality: with the smallest accepted TTL, agreeing
   * clocks and a delay of exactly the margin, the same envelope is claimed twice.
   */
  lemma MarginIsTight(c: Config, e: Envelope)
    requires WellSized(e) && -MAX_SAFE_INTEGER <= e.timestampMs <= MAX_SAFE_INTEGER
    requires c.ttlSeconds == MinimumNonceTtlSeconds(c.timestampSkewSeconds)
    ensures var claims := Run(c, Init(e.timestampMs - c.timestampSkewSeconds * 1000), BoundaryReplay(c, e)).claims;
      && |claims| == 2
      && claims[0].admission.envelope == claims[1].admission.envelope == e
      && ClockError(claims[0].admission) == ClockError(claims[1].admission) == 0
      && claims[0].at == claims[0].admission.checkedAt
      && claims[1].at - claims[1].admission.checkedAt == 60000
  {
    var skew := c.timestampSkewSeconds * 1000;
    var s0 := Init(e.timestampMs - skew);
    RunBoundary(c, s0, e);
    OneClaimWins(c, s0, e, e.timestampMs - skew, 0);
    hide Run, KeyOf;
    var s1 := Step(c, Run(c, s0, OneClaim(0, e, e.timestampMs - skew, 0)), Tick(2 * skew));
    OneClaimWins(c, s1, e, e.timestampMs + skew, NONCE_TTL_MARGIN_SECONDS * 1000);
  }

  lemma RunBoundary(c: Config, s: State, e: Envelope)
    ensures var skew := c.timestampSkewSeconds * 1000;
      Run(c, s, BoundaryReplay(c, e))
      == Run(c, Step(c, Run(c, s, OneClaim(0, e, e.timestampMs - skew, 0)), Tick(2 * skew)),
             OneClaim(1, e, e.timestampMs + skew, NONCE_TTL_MARGIN_SECONDS * 1000))
  {
    var skew := c.timestampSkewSeconds * 1000;
    var first := OneClaim(0, e, e.timestampMs - skew, 0);
    RunOne(c, Run(c, s, first), Tick(2 * skew));
    hide Run, Step;
    RunConcat(c, s, first, [Tick(2 * skew)]);
    RunConcat(c, s, first + [Tick(2 * skew)], OneClaim(1, e, e.timestampMs + skew, NONCE_TTL_MARGIN_SECONDS * 1000));
  }
}
