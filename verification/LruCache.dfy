/**
 * The bounded cache of the CPS authenticator (services/cps-auth/src/lru-cache.ts).
 *
 * A JavaScript Map iterates in insertion order, so the model keeps the keys in
 * that order beside the entries themselves.
 */
module LruCaching {
  import opened Common

  /** `expiresAt` is absolute clock time; None never expires. */
  datatype Entry<V> = Entry(value: V, expiresAt: Option<int>)

  datatype Cache<K(==), V> = Cache(order: seq<K>, entries: map<K, Entry<V>>, maxSize: nat)
  {
    /** The order lists each stored key once. */
    ghost predicate Consistent() {
      && Distinct(order)
      && (forall k <- order :: k in entries)
      && (forall k <- entries :: k in order)
    }

    ghost predicate Valid() {
      0 < maxSize && Consistent() && |order| <= maxSize
    }

    predicate Live(key: K, now: int) {
      key in entries && (entries[key].expiresAt.None? || entries[key].expiresAt.value > now)
    }

    function Delete(key: K): Cache<K, V> {
      this.(order := Without(order, key), entries := entries - {key})
    }

    function Insert(key: K, entry: Entry<V>): Cache<K, V> {
      this.(order := order + [key], entries := entries[key := entry])
    }

    function Get(key: K, now: int): Cache<K, V> {
      if key !in entries then this
      else if !Live(key, now) then Delete(key)
      else Delete(key).Insert(key, entries[key])
    }

    function Lookup(key: K, now: int): Option<V> {
      if Live(key, now) then Some(entries[key].value) else None
    }

    function Set(key: K, value: V, ttlMs: Option<int>, now: int): Cache<K, V> {
      var expiresAt := if ttlMs.None? then None else Some(now + ttlMs.value);
      var c := Delete(key).Insert(key, Entry(value, expiresAt));
      if |c.order| > maxSize then c.Delete(c.order[0]) else c
    }
  }

  function Without<K(==)>(keys: seq<K>, key: K): seq<K> {
    if keys == [] then []
    else (if keys[0] == key then [] else [keys[0]]) + Without(keys[1..], key)
  }

  function Empty<K, V>(maxSize: nat): Cache<K, V> {
    Cache([], map[], maxSize)
  }

  datatype Op<K, V> =
    | GetOp(key: K, now: int)
    | SetOp(key: K, value: V, ttlMs: Option<int>, now: int)

  function Apply<K, V>(c: Cache<K, V>, op: Op<K, V>): Cache<K, V> {
    match op
    case GetOp(key, now) => c.Get(key, now)
    case SetOp(key, value, ttlMs, now) => c.Set(key, value, ttlMs, now)
  }

  function RunOps<K, V>(c: Cache<K, V>, ops: seq<Op<K, V>>): Cache<K, V> {
    if ops == [] then c else Apply(RunOps(c, Front(ops)), Last(ops))
  }

  /** A set, or a get that finds a live entry, touches its key. */
  predicate Touching<K, V>(c: Cache<K, V>, op: Op<K, V>) {
    op.SetOp? || c.Live(op.key, op.now)
  }

  // ---------------------------------------------------------------------------
  // Orders
  // ---------------------------------------------------------------------------

  lemma {:induction false} WithoutIsFilter<K>(keys: seq<K>, key: K)
    requires Distinct(keys)
    ensures forall x <- Without(keys, key) :: x in keys && x != key
    ensures forall x <- keys :: x != key ==> x in Without(keys, key)
    ensures Distinct(Without(keys, key))
    ensures |Without(keys, key)| == if key in keys then |keys| - 1 else |keys|
  {
    if keys != [] {
      assert keys == [keys[0]] + keys[1..];
      WithoutIsFilter(keys[1..], key);
      assert keys[0] !in keys[1..];
    }
  }

  lemma DeleteFirst<K>(keys: seq<K>)
    requires Distinct(keys) && keys != []
    ensures Without(keys, keys[0]) == keys[1..]
  {
    WithoutAbsent(keys[1..], keys[0]);
  }

  lemma {:induction false} WithoutAbsent<K>(keys: seq<K>, key: K)
    requires key !in keys
    ensures Without(keys, key) == keys
  {
    if keys != [] {
      WithoutAbsent(keys[1..], key);
    }
  }

  lemma DeleteKeeps<K, V>(c: Cache<K, V>, key: K)
    requires c.Consistent()
    ensures c.Delete(key).Consistent() && key !in c.Delete(key).order
    ensures |c.Delete(key).order| == if key in c.order then |c.order| - 1 else |c.order|
  {
    WithoutIsFilter(c.order, key);
    var d := c.Delete(key);
    assert d.entries.Keys == c.entries.Keys - {key};
  }

  lemma InsertKeeps<K, V>(c: Cache<K, V>, key: K, entry: Entry<V>)
    requires c.Consistent() && key !in c.order
    ensures c.Insert(key, entry).Consistent()
  {
  }

  lemma ApplyKeepsValid<K, V>(c: Cache<K, V>, op: Op<K, V>)
    requires c.Valid()
    ensures Apply(c, op).Valid() && Apply(c, op).maxSize == c.maxSize
  {
    DeleteKeeps(c, op.key);
    match op
    case GetOp(key, now) =>
      if key in c.entries {
        InsertKeeps(c.Delete(key), key, c.entries[key]);
      }
    case SetOp(key, value, ttlMs, now) =>
      var entry := Entry(value, if ttlMs.None? then None else Some(now + ttlMs.value));
      InsertKeeps(c.Delete(key), key, entry);
      var d := c.Delete(key).Insert(key, entry);
      DeleteKeeps(d, d.order[0]);
  }

  /** The bound holds after any operations. */
  lemma {:induction false} RunKeepsValid<K, V>(c: Cache<K, V>, ops: seq<Op<K, V>>)
    requires c.Valid()
    ensures RunOps(c, ops).Valid() && RunOps(c, ops).maxSize == c.maxSize
  {
    if ops != [] {
      RunKeepsValid(c, Front(ops));
      ApplyKeepsValid(RunOps(c, Front(ops)), Last(ops));
    }
  }

  // ---------------------------------------------------------------------------
  // The stored order is the order of last touches
  // ---------------------------------------------------------------------------

  /** The position of the last operation that touched `key`, or -1. */
  function LastTouch<K, V>(c: Cache<K, V>, ops: seq<Op<K, V>>, key: K): int {
    if ops == [] then -1
    else if Last(ops).key == key && Touching(RunOps(c, Front(ops)), Last(ops)) then |ops| - 1
    else LastTouch(c, Front(ops), key)
  }

  lemma {:induction false} LastTouchIsEarlier<K, V>(c: Cache<K, V>, ops: seq<Op<K, V>>, key: K)
    ensures -1 <= LastTouch(c, ops, key) < |ops|
  {
    if ops != [] {
      LastTouchIsEarlier(c, Front(ops), key);
    }
  }

  ghost predicate OrderedByTouch<K, V>(c: Cache<K, V>, ops: seq<Op<K, V>>, keys: seq<K>) {
    && (forall k <- keys :: 0 <= LastTouch(c, ops, k))
    && (forall i, j :: 0 <= i < j < |keys| ==> LastTouch(c, ops, keys[i]) < LastTouch(c, ops, keys[j]))
  }

  lemma {:induction false} WithoutKeepsOrder<K, V>(c: Cache<K, V>, ops: seq<Op<K, V>>, keys: seq<K>, key: K)
    requires OrderedByTouch(c, ops, keys)
    ensures OrderedByTouch(c, ops, Without(keys, key))
    ensures forall x <- Without(keys, key) :: x in keys && x != key
  {
    if keys != [] {
      assert keys == [keys[0]] + keys[1..];
      WithoutKeepsOrder(c, ops, keys[1..], key);
      var rest := Without(keys[1..], key);
      forall x <- rest ensures LastTouch(c, ops, keys[0]) < LastTouch(c, ops, x) {
        assert x in keys[1..];
      }
    }
  }

  /** Touches of another key leave an order as it was; a touch of the last key puts it at the end. */
  lemma TouchExtendsOrder<K, V>(c: Cache<K, V>, ops: seq<Op<K, V>>, keys: seq<K>)
    requires ops != [] && OrderedByTouch(c, Front(ops), keys) && Last(ops).key !in keys
    ensures OrderedByTouch(c, ops, keys)
    ensures Touching(RunOps(c, Front(ops)), Last(ops)) ==> OrderedByTouch(c, ops, keys + [Last(ops).key])
  {
    forall k <- keys ensures LastTouch(c, ops, k) == LastTouch(c, Front(ops), k) < |ops| - 1 {
      LastTouchIsEarlier(c, Front(ops), k);
    }
  }

  /** Starting empty, the keys are always stored in the order of their last touches. */
  lemma {:induction false} OrderIsLastTouches<K, V>(maxSize: nat, ops: seq<Op<K, V>>)
    requires 0 < maxSize
    ensures var c := Empty<K, V>(maxSize); OrderedByTouch(c, ops, RunOps(c, ops).order)
  {
    var c := Empty<K, V>(maxSize);
    if ops != [] {
      OrderIsLastTouches(maxSize, Front(ops));
      assert c.Valid();
      RunKeepsValid(c, Front(ops));
      var d := RunOps(c, Front(ops));
      var op := Last(ops);
      WithoutKeepsOrder(c, Front(ops), d.order, op.key);
      TouchExtendsOrder(c, ops, Without(d.order, op.key));
      if op.key !in d.order {
        TouchExtendsOrder(c, ops, d.order);
      }
      if op.SetOp? {
        var moved := Without(d.order, op.key) + [op.key];
        WithoutKeepsOrder(c, ops, moved, moved[0]);
      }
    }
  }

  // ---------------------------------------------------------------------------
  // Retention
  // ---------------------------------------------------------------------------

  /** The keys stored after `key`. */
  function Newer<K(==)>(keys: seq<K>, key: K): seq<K> {
    if keys == [] then [] else if keys[0] == key then keys[1..] else Newer(keys[1..], key)
  }

  /** The keys that the operations touch, other than `key`. */
  function OthersTouched<K(==), V>(c: Cache<K, V>, ops: seq<Op<K, V>>, key: K): set<K> {
    if ops == [] then {}
    else
      var rest := OthersTouched(c, Front(ops), key);
      if Last(ops).key != key && Touching(RunOps(c, Front(ops)), Last(ops)) then rest + {Last(ops).key} else rest
  }

  lemma {:induction false} NewerIsSuffix<K>(keys: seq<K>, key: K)
    requires key in keys
    ensures |Newer(keys, key)| < |keys| && Newer(keys, key) == keys[|keys| - |Newer(keys, key)|..]
    ensures keys[0] == key <==> |Newer(keys, key)| == |keys| - 1
  {
    if keys[0] != key {
      assert key in keys[1..];
      NewerIsSuffix(keys[1..], key);
    }
  }

  lemma {:induction false} NewerWithout<K>(keys: seq<K>, key: K, x: K)
    requires key in keys && x != key
    ensures key in Without(keys, x)
    ensures forall y <- Newer(Without(keys, x), key) :: y in Newer(keys, key)
  {
    if keys[0] == key {
      WithoutSubset(keys[1..], x);
      assert Without(keys, x) == [key] + Without(keys[1..], x);
    } else {
      assert key in keys[1..];
      NewerWithout(keys[1..], key, x);
      var rest := Without(keys[1..], x);
      if keys[0] == x {
        assert Without(keys, x) == rest;
      } else {
        assert Without(keys, x) == [keys[0]] + rest;
        assert Newer([keys[0]] + rest, key) == Newer(rest, key) by { assert ([keys[0]] + rest)[1..] == rest; }
      }
    }
  }

  lemma {:induction false} WithoutSubset<K>(keys: seq<K>, x: K)
    ensures forall y <- Without(keys, x) :: y in keys
  {
    if keys != [] {
      WithoutSubset(keys[1..], x);
    }
  }

  lemma {:induction false} NewerAppend<K>(keys: seq<K>, key: K, x: K)
    requires key in keys
    ensures Newer(keys + [x], key) == Newer(keys, key) + [x]
  {
    assert (keys + [x])[1..] == keys[1..] + [x];
    if keys[0] != key {
      assert key in keys[1..];
      NewerAppend(keys[1..], key, x);
    }
  }

  /** `key` is stored, and only the given keys are stored after it. */
  ghost predicate Kept<K, V>(c: Cache<K, V>, key: K, entry: Entry<V>, newer: set<K>) {
    && c.Valid()
    && key in c.entries && c.entries[key] == entry
    && forall x <- Newer(c.order, key) :: x in newer
  }

  lemma ApplyKeeps<K, V>(c: Cache<K, V>, op: Op<K, V>, key: K, entry: Entry<V>, newer: set<K>)
    requires Kept(c, key, entry, newer) && op.key != key
    requires |newer + (if Touching(c, op) then {op.key} else {})| < c.maxSize
    ensures Kept(Apply(c, op), key, entry, newer + (if Touching(c, op) then {op.key} else {}))
  {
    ApplyKeepsValid(c, op);
    WithoutIsFilter(c.order, op.key);
    NewerWithout(c.order, key, op.key);
    var rest := Without(c.order, op.key);
    NewerAppend(rest, key, op.key);
    if op.SetOp? {
      var moved := rest + [op.key];
      NoEvictionOf(moved, key, newer + {op.key}, c.maxSize);
      if |moved| > c.maxSize {
        DeleteFirst(moved);
      }
    }
  }

  /** A list longer than the limit does not start with a key that has fewer others after it. */
  lemma NoEvictionOf<K>(keys: seq<K>, key: K, newer: set<K>, maxSize: nat)
    requires Distinct(keys) && key in keys && |newer| < maxSize
    requires forall x <- Newer(keys, key) :: x in newer
    ensures |keys| > maxSize ==> keys[0] != key && key in keys[1..] && Newer(keys[1..], key) == Newer(keys, key)
  {
    NewerIsSuffix(keys, key);
    DistinctFits(Newer(keys, key), newer);
  }

  /**
   * A key that was just touched keeps its entry through any operations on other keys,
   * as long as these touch fewer than maxSize of them.
   */
  lemma {:induction false} TouchedKeyIsRetained<K, V>(c: Cache<K, V>, ops: seq<Op<K, V>>, key: K)
    requires c.Valid() && c.order != [] && Last(c.order) == key
    requires forall op <- ops :: op.key != key
    requires |OthersTouched(c, ops, key)| < c.maxSize
    ensures RunOps(c, ops).maxSize == c.maxSize
    ensures Kept(RunOps(c, ops), key, c.entries[key], OthersTouched(c, ops, key))
  {
    if ops == [] {
      assert key in c.order;
      NewerOfLast(c.order);
    } else {
      var before := OthersTouched(c, Front(ops), key);
      var after := OthersTouched(c, ops, key);
      SubsetSize(before, after);
      assert forall op <- Front(ops) :: op in ops;
      TouchedKeyIsRetained(c, Front(ops), key);
      assert Last(ops) in ops;
      ApplyKeepsValid(RunOps(c, Front(ops)), Last(ops));
      ApplyKeeps(RunOps(c, Front(ops)), Last(ops), key, c.entries[key], before);
    }
  }

  /**
   * Retention: whatever touch put a key last, its entry survives any operations on
   * other keys that touch fewer than maxSize of them; so it hits until it expires.
   */
  lemma {:induction false} TouchedKeyStillHits<K, V>(c: Cache<K, V>, touch: Op<K, V>, ops: seq<Op<K, V>>, now: int)
    requires c.Valid() && Touching(c, touch)
    requires forall op <- ops :: op.key != touch.key
    requires |OthersTouched(Apply(c, touch), ops, touch.key)| < c.maxSize
    ensures touch.key in Apply(c, touch).entries
    ensures RunOps(Apply(c, touch), ops).Lookup(touch.key, now) == Apply(c, touch).Lookup(touch.key, now)
  {
    ApplyKeepsValid(c, touch);
    TouchMovesLast(c, touch);
    TouchedKeyIsRetained(Apply(c, touch), ops, touch.key);
  }

  /**
   * A value that was set is found until its time to live has passed, and not from then on, whatever
   * was done with other keys, as long as fewer than maxSize of these were touched.
   */
  lemma SetValueIsFoundUntilItExpires<K, V>(c: Cache<K, V>, key: K, value: V, ttlMs: Option<int>, t0: int, ops: seq<Op<K, V>>, now: int)
    requires c.Valid()
    requires forall op <- ops :: op.key != key
    requires |OthersTouched(Apply(c, SetOp(key, value, ttlMs, t0)), ops, key)| < c.maxSize
    ensures RunOps(Apply(c, SetOp(key, value, ttlMs, t0)), ops).Lookup(key, now)
         == if ttlMs.None? || now < t0 + ttlMs.value then Some(value) else None
  {
    TouchedKeyStillHits(c, SetOp(key, value, ttlMs, t0), ops, now);
    SetStores(c, key, value, ttlMs, t0);
  }

  lemma SetStores<K, V>(c: Cache<K, V>, key: K, value: V, ttlMs: Option<int>, now: int)
    requires c.Valid()
    ensures var c1 := c.Set(key, value, ttlMs, now);
      key in c1.entries && c1.entries[key] == Entry(value, if ttlMs.None? then None else Some(now + ttlMs.value))
  {
    TouchMovesLast(c, SetOp(key, value, ttlMs, now));
  }

  /** A lookup that finds nothing leaves nothing: what it finds expired is gone. What it finds is kept, as the newest. */
  lemma GetRemovesWhatItDoesNotFind<K, V>(c: Cache<K, V>, key: K, now: int)
    requires c.Valid()
    ensures var c1 := c.Get(key, now);
      && (c.Lookup(key, now).None? <==> key !in c1.entries)
      && (c.Lookup(key, now).Some? ==> c1.order != [] && Last(c1.order) == key)
      && c1.entries == if c.Lookup(key, now).None? then c.entries - {key} else c.entries
  {
    DeleteKeeps(c, key);
    if key !in c.entries {
      assert c.entries - {key} == c.entries;
    }
  }

  lemma TouchMovesLast<K, V>(c: Cache<K, V>, op: Op<K, V>)
    requires c.Valid() && Touching(c, op)
    ensures Apply(c, op).order != [] && Last(Apply(c, op).order) == op.key && op.key in Apply(c, op).entries
  {
    DeleteKeeps(c, op.key);
    if op.SetOp? {
      var entry := Entry(op.value, if op.ttlMs.None? then None else Some(op.now + op.ttlMs.value));
      InsertKeeps(c.Delete(op.key), op.key, entry);
      DeleteFirst(c.Delete(op.key).Insert(op.key, entry).order);
    }
  }

  lemma SubsetSize<K>(a: set<K>, b: set<K>)
    requires a <= b
    ensures |a| <= |b|
  {
    assert b == a + (b - a);
  }

  lemma NewerOfLast<K>(keys: seq<K>)
    requires Distinct(keys) && keys != []
    ensures Newer(keys, Last(keys)) == []
  {
    NewerIsSuffix(keys, Last(keys));
    var n := |Newer(keys, Last(keys))|;
    LastIsNotNewer(keys);
  }

  lemma {:induction false} LastIsNotNewer<K>(keys: seq<K>)
    requires Distinct(keys) && keys != []
    ensures |Newer(keys, Last(keys))| == 0
  {
    if |keys| > 1 {
      LastIsNotNewer(keys[1..]);
    }
  }

  // ---------------------------------------------------------------------------
  // What a hit returns
  // ---------------------------------------------------------------------------

  /** The entry written by the last set of `key`. */
  function LastSet<K(==), V>(ops: seq<Op<K, V>>, key: K): Option<Entry<V>> {
    if ops == [] then None
    else match Last(ops)
      case SetOp(k, value, ttlMs, now) =>
        if k == key then Some(Entry(value, if ttlMs.None? then None else Some(now + ttlMs.value))) else LastSet(Front(ops), key)
      case GetOp(_, _) => LastSet(Front(ops), key)
  }

  /** Whatever was evicted or expired, a stored entry is the one its key was last set to. */
  lemma {:induction false} HitReturnsLastSet<K, V>(maxSize: nat, ops: seq<Op<K, V>>, key: K)
    requires 0 < maxSize
    ensures var c := RunOps(Empty<K, V>(maxSize), ops);
      key in c.entries ==> LastSet(ops, key) == Some(c.entries[key])
  {
    if ops != [] {
      HitReturnsLastSet(maxSize, Front(ops), key);
    }
  }

  class LruCache<K(==), V> {
    var order: seq<K>
    var entries: map<K, Entry<V>>
    const maxSize: nat

    ghost function View(): Cache<K, V>
      reads this
    {
      Cache(order, entries, maxSize)
    }

    ghost predicate Valid()
      reads this
    {
      View().Valid()
    }

    constructor (maxSize: nat)
      requires 0 < maxSize
      ensures Valid() && View() == Empty(maxSize)
    {
      this.maxSize := maxSize;
      order, entries := [], map[];
    }

    method Size() returns (n: nat)
      requires Valid()
      ensures n == |View().order|
    {
      n := |order|;
    }

    /** Map.delete. */
    method Delete(key: K)
      modifies this
      ensures View() == old(View()).Delete(key)
    {
      order := Without(order, key);
      entries := entries - {key};
    }

    method Get(key: K, now: int) returns (value: Option<V>)
      requires Valid()
      modifies this
      ensures Valid() && View() == old(View()).Get(key, now)
      ensures value == old(View()).Lookup(key, now)
    {
      ApplyKeepsValid(View(), GetOp(key, now));
      if key !in entries {
        return None;
      }
      var entry := entries[key];
      if entry.expiresAt.Some? && entry.expiresAt.value <= now {
        Delete(key);
        return None;
      }
      Delete(key);
      order := order + [key];
      entries := entries[key := entry];
      return Some(entry.value);
    }

    method Set(key: K, value: V, ttlMs: Option<int>, now: int)
      requires Valid()
      modifies this
      ensures Valid() && View() == old(View()).Set(key, value, ttlMs, now)
    {
      ApplyKeepsValid(View(), SetOp(key, value, ttlMs, now));
      Delete(key);
      order := order + [key];
      entries := entries[key := Entry(value, if ttlMs.None? then None else Some(now + ttlMs.value))];
      if |order| > maxSize {
        var oldest := order[0];
        Delete(oldest);
      }
    }
  }
}
