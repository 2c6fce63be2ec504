/**
 * Replay claims (packages/infra/src/nonce-store.ts): the key of a (sensor, nonce)
 * pair, the TTL rule, and Redis `SET key token NX EX ttl`.
 */
module NonceStore {
  import opened Common

  const NONCE_TTL_MARGIN_SECONDS: nat := 60

  function MinimumNonceTtlSeconds(timestampSkewSeconds: nat): nat {
    2 * timestampSkewSeconds + NONCE_TTL_MARGIN_SECONDS
  }

  /** What assertNonceTtl accepts; it throws otherwise. */
  predicate TtlAccepted(ttlSeconds: nat, timestampSkewSeconds: nat) {
    ttlSeconds >= MinimumNonceTtlSeconds(timestampSkewSeconds)
  }

  /** Startup accepts exactly the TTLs of twice the skew and a minute more. */
  lemma AcceptedExactly(ttlSeconds: nat, timestampSkewSeconds: nat)
    ensures TtlAccepted(ttlSeconds, timestampSkewSeconds) <==> ttlSeconds - 60 >= timestampSkewSeconds + timestampSkewSeconds
  {
  }

  // ---------------------------------------------------------------------------
  // Keys
  // ---------------------------------------------------------------------------

  const LENGTH_LIMIT: nat := 0x1_0000_0000

  /** The `k` low-order bytes of `n`, most significant first. */
  function BigEndian(n: nat, k: nat): (r: Bytes)
    ensures |r| == k
  {
    if k == 0 then [] else BigEndian(n / 0x100, k - 1) + [(n % 0x100) as Byte]
  }

  function LengthPrefix(bytes: Bytes): Bytes
    requires |bytes| < LENGTH_LIMIT
  {
    BigEndian(|bytes|, 4) + bytes
  }

  /** The ASCII bytes of scp.nonce.v1. */
  const DOMAIN_TAG: Bytes := [115, 99, 112, 46, 110, 111, 110, 99, 101, 46, 118, 49]

  /** The hash input of a claim. */
  function Preimage(sensorId: Bytes, nonce: Bytes): Bytes
    requires |sensorId| < LENGTH_LIMIT && |nonce| < LENGTH_LIMIT
  {
    DOMAIN_TAG + LengthPrefix(sensorId) + LengthPrefix(nonce)
  }

  function DeriveNonceKey(prefix: string, sensorId: Bytes, nonce: Bytes, sha256: Bytes -> string): string
    requires |sensorId| < LENGTH_LIMIT && |nonce| < LENGTH_LIMIT
  {
    prefix + [':'] + sha256(Preimage(sensorId, nonce))
  }

  /** lengthPrefixed writes the length into a four-byte buffer; a length that does not fit throws. */
  method LengthPrefixed(bytes: Bytes) returns (buffer: Option<Bytes>)
    ensures buffer == if |bytes| < LENGTH_LIMIT then Some(LengthPrefix(bytes)) else None
  {
    if |bytes| >= LENGTH_LIMIT {
      return None;
    }
    var length := new Byte[4];
    var n0 := |bytes|;
    var n1 := n0 / 0x100;
    var n2 := n1 / 0x100;
    var n3 := n2 / 0x100;
    length[3] := (n0 % 0x100) as Byte;
    length[2] := (n1 % 0x100) as Byte;
    length[1] := (n2 % 0x100) as Byte;
    length[0] := (n3 % 0x100) as Byte;
    FourBytes(n0);
    assert length[..] == BigEndian(n0, 4);
    return Some(length[..] + bytes);
  }

  lemma FourBytes(n: nat)
    ensures BigEndian(n, 4) == [
      (n / 0x100 / 0x100 / 0x100 % 0x100) as Byte, (n / 0x100 / 0x100 % 0x100) as Byte,
      (n / 0x100 % 0x100) as Byte, (n % 0x100) as Byte]
  {
    assert BigEndian(n / 0x100 / 0x100 / 0x100 / 0x100, 0) == [];
    assert BigEndian(n / 0x100 / 0x100, 2) == BigEndian(n / 0x100 / 0x100 / 0x100, 1) + [(n / 0x100 / 0x100 % 0x100) as Byte];
  }

  function Pow256(k: nat): nat {
    if k == 0 then 1 else 0x100 * Pow256(k - 1)
  }

  /** The limit on lengths is exactly what four bytes hold. */
  lemma FourBytesHoldTheLimit()
    ensures LENGTH_LIMIT == Pow256(4)
  {
    assert Pow256(2) == 0x1_0000;
  }

  /** Numbers that fit in `k` bytes are told apart by their bytes. */
  lemma {:induction false} BigEndianInjective(m: nat, n: nat, k: nat)
    requires m < Pow256(k) && n < Pow256(k) && BigEndian(m, k) == BigEndian(n, k)
    ensures m == n
  {
    if k > 0 {
      var x, y := BigEndian(m, k), BigEndian(n, k);
      assert x[..k - 1] == BigEndian(m / 0x100, k - 1) && y[..k - 1] == BigEndian(n / 0x100, k - 1);
      assert x[k - 1] == (m % 0x100) as Byte && y[k - 1] == (n % 0x100) as Byte;
      BigEndianInjective(m / 0x100, n / 0x100, k - 1);
    }
  }

  /** A length-prefixed string is cut off a longer one in only one way. */
  lemma LengthPrefixCut(a: Bytes, x: Bytes, b: Bytes, y: Bytes)
    requires |a| < LENGTH_LIMIT && |b| < LENGTH_LIMIT
    requires LengthPrefix(a) + x == LengthPrefix(b) + y
    ensures a == b && x == y
  {
    var s, t := LengthPrefix(a) + x, LengthPrefix(b) + y;
    assert s[..4] == BigEndian(|a|, 4) && t[..4] == BigEndian(|b|, 4);
    BigEndianInjective(|a|, |b|, 4);
    assert a == s[4..4 + |a|] && b == t[4..4 + |a|];
    assert x == s[4 + |a|..] && y == t[4 + |a|..];
  }

  /** The hash input determines the pair: no two pairs run together. */
  lemma PreimageInjective(sensor1: Bytes, nonce1: Bytes, sensor2: Bytes, nonce2: Bytes)
    requires |sensor1| < LENGTH_LIMIT && |nonce1| < LENGTH_LIMIT && |sensor2| < LENGTH_LIMIT && |nonce2| < LENGTH_LIMIT
    requires Preimage(sensor1, nonce1) == Preimage(sensor2, nonce2)
    ensures sensor1 == sensor2 && nonce1 == nonce2
  {
    var tag := DOMAIN_TAG;
    var p, q := Preimage(sensor1, nonce1), Preimage(sensor2, nonce2);
    assert p[|tag|..] == LengthPrefix(sensor1) + LengthPrefix(nonce1);
    assert q[|tag|..] == LengthPrefix(sensor2) + LengthPrefix(nonce2);
    LengthPrefixCut(sensor1, LengthPrefix(nonce1), sensor2, LengthPrefix(nonce2));
    assert LengthPrefix(nonce1) + [] == LengthPrefix(nonce2) + [];
    LengthPrefixCut(nonce1, [], nonce2, []);
  }

  /** Under one prefix two claims contend for the same key exactly when sensor and nonce agree. */
  lemma {:induction false} KeysMeetExactlyOnEqualPairs(
      prefix: string, sha256: Bytes -> string, sensor1: Bytes, nonce1: Bytes, sensor2: Bytes, nonce2: Bytes)
    requires |sensor1| < LENGTH_LIMIT && |nonce1| < LENGTH_LIMIT && |sensor2| < LENGTH_LIMIT && |nonce2| < LENGTH_LIMIT
    requires Injective(sha256)
    ensures DeriveNonceKey(prefix, sensor1, nonce1, sha256) == DeriveNonceKey(prefix, sensor2, nonce2, sha256)
      <==> sensor1 == sensor2 && nonce1 == nonce2
  {
    var k1, k2 := DeriveNonceKey(prefix, sensor1, nonce1, sha256), DeriveNonceKey(prefix, sensor2, nonce2, sha256);
    if k1 == k2 {
      assert k1[|prefix| + 1..] == sha256(Preimage(sensor1, nonce1));
      assert k2[|prefix| + 1..] == sha256(Preimage(sensor2, nonce2));
      PreimageInjective(sensor1, nonce1, sensor2, nonce2);
    }
  }

  /** With digests of one length, keys meet only under one prefix. */
  lemma PrefixesKeepApart(
      prefix1: string, prefix2: string, sha256: Bytes -> string, sensor1: Bytes, nonce1: Bytes, sensor2: Bytes, nonce2: Bytes)
    requires |sensor1| < LENGTH_LIMIT && |nonce1| < LENGTH_LIMIT && |sensor2| < LENGTH_LIMIT && |nonce2| < LENGTH_LIMIT
    requires Injective(sha256) && forall x, y :: |sha256(x)| == |sha256(y)|
    ensures DeriveNonceKey(prefix1, sensor1, nonce1, sha256) == DeriveNonceKey(prefix2, sensor2, nonce2, sha256)
      <==> prefix1 == prefix2 && sensor1 == sensor2 && nonce1 == nonce2
  {
    var k1, k2 := DeriveNonceKey(prefix1, sensor1, nonce1, sha256), DeriveNonceKey(prefix2, sensor2, nonce2, sha256);
    KeysMeetExactlyOnEqualPairs(prefix1, sha256, sensor1, nonce1, sensor2, nonce2);
    var d1, d2 := sha256(Preimage(sensor1, nonce1)), sha256(Preimage(sensor2, nonce2));
    assert |d1| == |d2|;
    if k1 == k2 {
      assert prefix1 == k1[..|k1| - |d1| - 1] && prefix2 == k2[..|k2| - |d2| - 1];
    }
  }

  /** Where the parts of the hash input lie: the tag, then each part behind its four length bytes. */
  lemma PreimageLayout(sensorId: Bytes, nonce: Bytes)
    requires |sensorId| < LENGTH_LIMIT && |nonce| < LENGTH_LIMIT
    ensures var p, n := Preimage(sensorId, nonce), |sensorId|;
      && |p| == 20 + n + |nonce|
      && p[..12] == [115, 99, 112, 46, 110, 111, 110, 99, 101, 46, 118, 49]
      && p[12..16] == BigEndian(n, 4) && p[16..16 + n] == sensorId
      && p[16 + n..20 + n] == BigEndian(|nonce|, 4) && p[20 + n..] == nonce
  {
  }

  // ---------------------------------------------------------------------------
  // The store
  // ---------------------------------------------------------------------------

  /** Redis keys with the time at which each expires, in milliseconds. */
  type Keys = map<string, int>

  predicate Held(keys: Keys, key: string, now: int) {
    key in keys && now < keys[key]
  }

  function SetIfAbsent(keys: Keys, key: string, now: int, ttlSeconds: nat): Keys {
    if Held(keys, key, now) then keys else keys[key := now + ttlSeconds * 1000]
  }

  /** How the SET command came back. */
  datatype RedisReply = Replied | Lost(executed: bool)

  datatype ClaimResult = Claimed | Duplicate | Unavailable

  class RedisNonceStore {
    var keys: Keys
    const prefix: string
    const ttlSeconds: nat

    constructor (prefix: string, ttlSeconds: nat)
      ensures keys == map[] && this.prefix == prefix && this.ttlSeconds == ttlSeconds
    {
      keys := map[];
      this.prefix, this.ttlSeconds := prefix, ttlSeconds;
    }

    /** A reply lost on the way is reported as unavailable, whether or not the command ran. */
    method Claim(sensorId: Bytes, nonce: Bytes, sha256: Bytes -> string, now: int, reply: RedisReply) returns (r: ClaimResult)
      requires |sensorId| < LENGTH_LIMIT && |nonce| < LENGTH_LIMIT
      modifies this
      ensures var key := DeriveNonceKey(prefix, sensorId, nonce, sha256);
        && (r == if reply.Lost? then Unavailable else if Held(old(keys), key, now) then Duplicate else Claimed)
        && keys == if reply == Lost(false) then old(keys) else SetIfAbsent(old(keys), key, now, ttlSeconds)
    {
      var key := DeriveNonceKey(prefix, sensorId, nonce, sha256);
      var set_ := false;
      if reply != Lost(false) {
        if key !in keys || keys[key] <= now {
          keys := keys[key := now + ttlSeconds * 1000];
          set_ := true;
        }
      }
      if reply.Lost? {
        return Unavailable;
      }
      r := if set_ then Claimed else Duplicate;
    }
  }
}
