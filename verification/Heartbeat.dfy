/**
 * The heartbeat tracker (services/heartbeat-tracker/src/index.ts).
 *
 * The compare-and-set script runs atomically in Redis and is one step. So is a
 * metrics call, with the order in which Redis lists the set left open. Times are
 * integral milliseconds, durations are seconds.
 */
module Heartbeat {
  import opened Common

  datatype Config = Config(onlineWindowMs: int, retentionWindowMs: int)

  /** The fields of a sensor's Redis hash. */
  datatype Hash = Hash(firstSeen: Option<int>, lastSeen: Option<int>, onlineSince: Option<int>)

  datatype Store = Store(members: set<string>, hashes: map<string, Hash>)

  const NO_HASH := Hash(None, None, None)

  /** A key that does not exist reads as a hash without fields. */
  function HashOf(s: Store, id: string): Hash {
    if id in s.hashes then s.hashes[id] else NO_HASH
  }

  function OrElse(o: Option<int>, default: int): int {
    if o.Some? then o.value else default
  }

  predicate Updates(h: Hash, t: int) {
    h.lastSeen.None? || t > h.lastSeen.value
  }

  /** One heartbeat at time `t`. */
  function Beat(window: int, h: Hash, t: int): Hash {
    if !Updates(h, t) then h
    else
      var since := if h.lastSeen.Some? && t - h.lastSeen.value > window then t else OrElse(h.onlineSince, t);
      Hash(Some(OrElse(h.firstSeen, t)), Some(t), Some(since))
  }

  function Fold(window: int, ts: seq<int>): Hash {
    if ts == [] then NO_HASH else Beat(window, Fold(window, Front(ts)), Last(ts))
  }

  // ---------------------------------------------------------------------------
  // What the fold means
  // ---------------------------------------------------------------------------

  ghost predicate IsMax(ts: seq<int>, m: int) {
    m in ts && forall t <- ts :: t <= m
  }

  /** Timestamp `k` is later than every one before it. */
  ghost predicate Advances(ts: seq<int>, k: nat)
    requires k < |ts|
  {
    forall j :: 0 <= j < k ==> ts[j] < ts[k]
  }

  /** Timestamp `k` starts an online streak: nothing was seen in the window before it. */
  ghost predicate StartsStreak(window: int, ts: seq<int>, k: nat)
    requires k < |ts|
  {
    Advances(ts, k) && forall j :: 0 <= j < k ==> ts[k] - ts[j] > window
  }

  /** The last streak starts at `k`. */
  ghost predicate LastStreak(window: int, ts: seq<int>, k: nat) {
    && k < |ts|
    && StartsStreak(window, ts, k)
    && forall m :: k < m < |ts| ==> !StartsStreak(window, ts, m)
  }

  lemma StreakExtends(window: int, ts: seq<int>, latest: int, k: nat)
    requires |ts| > 1 && IsMax(Front(ts), latest) && LastStreak(window, Front(ts), k)
    ensures IsMax(ts, Max(latest, Last(ts)))
    ensures LastStreak(window, ts, if Last(ts) > latest && Last(ts) - latest > window then |ts| - 1 else k)
  {
    var n := |ts| - 1;
    forall m: nat | m < n
      ensures StartsStreak(window, ts, m) == StartsStreak(window, Front(ts), m)
    {
    }
    var h :| 0 <= h < n && Front(ts)[h] == latest;
    assert ts[h] == latest;
    assert forall j :: 0 <= j < n ==> ts[j] in Front(ts);
    assert StartsStreak(window, ts, n) <==> Last(ts) > latest && Last(ts) - latest > window;
  }

  /**
   * After any non-empty sequence of heartbeats: first seen at the first one processed,
   * last seen at the latest, online since the start of the last streak.
   */
  lemma {:induction false} FoldIsSpecified(window: int, ts: seq<int>) returns (latest: int, k: nat)
    requires ts != []
    ensures IsMax(ts, latest) && LastStreak(window, ts, k)
    ensures forall l :: LastStreak(window, ts, l) ==> l == k
    ensures Fold(window, ts) == Hash(Some(ts[0]), Some(latest), Some(ts[k]))
    ensures ts[0] <= ts[k] <= latest
  {
    if |ts| == 1 {
      latest, k := ts[0], 0;
      assert Fold(window, Front(ts)) == NO_HASH;
    } else {
      var latest0, k0 := FoldIsSpecified(window, Front(ts));
      StreakExtends(window, ts, latest0, k0);
      latest := Max(latest0, Last(ts));
      k := if Last(ts) > latest0 && Last(ts) - latest0 > window then |ts| - 1 else k0;
    }
  }

  /** Last seen does not depend on the order of arrival. */
  lemma LastSeenIgnoresOrder(window: int, ts: seq<int>, us: seq<int>)
    requires multiset(ts) == multiset(us)
    ensures Fold(window, ts).lastSeen == Fold(window, us).lastSeen
  {
    if ts != [] && us != [] {
      var a, _ := FoldIsSpecified(window, ts);
      var b, _ := FoldIsSpecified(window, us);
      assert a in multiset(us) && b in multiset(ts);
      assert a in us && b in ts;
    } else {
      assert |multiset(ts)| == |ts| && |multiset(us)| == |us|;
    }
  }

  /** Heartbeats no later than one already processed, replays among them, change nothing. */
  lemma {:induction false} ReplayChangesNothing(window: int, ts: seq<int>, replay: seq<int>)
    requires forall r <- replay :: exists t <- ts :: r <= t
    ensures Fold(window, ts + replay) == Fold(window, ts)
  {
    if replay == [] {
      assert ts + replay == ts;
    } else {
      assert Front(ts + replay) == ts + Front(replay);
      assert Last(replay) in replay && forall r <- Front(replay) :: r in replay;
      ReplayChangesNothing(window, ts, Front(replay));
      var latest, _ := FoldIsSpecified(window, ts);
    }
  }

  // ---------------------------------------------------------------------------
  // Metrics
  // ---------------------------------------------------------------------------

  datatype Detail = Detail(
    sensorId: string, online: bool, firstSeen: int, lastSeen: int,
    uptimeSeconds: real, secondsSinceLastSeen: real)

  datatype Report = Report(
    sensorsOnline: nat,
    sensorsTotalTracked: int,
    consumed: nat,
    sensorUptimeSeconds: map<string, real>,
    sensorsUptime: seq<Detail>,
    maxUptimeSeconds: real,
    avgUptimeSeconds: real)

  /** What the loop over the listed sensors accumulates. */
  datatype Scan = Scan(stale: seq<string>, uptimes: map<string, real>, onlineUptimes: seq<real>, details: seq<Detail>)

  predicate Complete(h: Hash) {
    h.firstSeen.Some? && h.lastSeen.Some? && h.onlineSince.Some?
  }

  predicate InOrder(h: Hash) {
    Complete(h) && h.firstSeen.value <= h.onlineSince.value <= h.lastSeen.value
  }

  predicate Stale(c: Config, h: Hash, now: int) {
    h.lastSeen.Some? && now - h.lastSeen.value > c.retentionWindowMs
  }

  predicate Online(c: Config, h: Hash, now: int) {
    h.lastSeen.Some? && now - h.lastSeen.value <= c.onlineWindowMs
  }

  /** Seconds from `from` to `now`, never negative. */
  function Seconds(now: int, from: int): (r: real)
    ensures r >= 0.0
    ensures from <= now ==> r * 1000.0 == (now - from) as real
  {
    if now < from then 0.0 else (now - from) as real / 1000.0
  }

  function DetailOf(c: Config, id: string, h: Hash, now: int): Detail
    requires Complete(h)
  {
    var online := Online(c, h, now);
    Detail(id, online, h.firstSeen.value, h.lastSeen.value,
           if online then Seconds(now, h.onlineSince.value) else 0.0,
           Seconds(now, h.lastSeen.value))
  }

  function ScanOne(c: Config, acc: Scan, id: string, h: Hash, now: int): Scan {
    if !Complete(h) then acc
    else if Stale(c, h, now) then acc.(stale := acc.stale + [id])
    else
      var detail := DetailOf(c, id, h, now);
      var acc1 := acc.(details := acc.details + [detail]);
      if detail.online then
        acc1.(uptimes := acc.uptimes[id := detail.uptimeSeconds], onlineUptimes := acc.onlineUptimes + [detail.uptimeSeconds])
      else acc1
  }

  function ScanAll(c: Config, s: Store, ids: seq<string>, now: int): Scan {
    if ids == [] then Scan([], map[], [], [])
    else ScanOne(c, ScanAll(c, s, Front(ids), now), Last(ids), HashOf(s, Last(ids)), now)
  }

  function MaxOf(xs: seq<real>): real
    requires xs != []
  {
    if |xs| == 1 then xs[0] else var rest := MaxOf(Front(xs)); if rest < Last(xs) then Last(xs) else rest
  }

  function Sum(xs: seq<real>): real {
    if xs == [] then 0.0 else Sum(Front(xs)) + Last(xs)
  }

  function ReportOf(scan: Scan, listed: nat, consumed: nat): Report {
    var n := |scan.onlineUptimes|;
    Report(n, listed - |scan.stale|, consumed, scan.uptimes, scan.details,
           if n > 0 then MaxOf(scan.onlineUptimes) else 0.0,
           if n > 0 then Sum(scan.onlineUptimes) / n as real else 0.0)
  }

  // ---------------------------------------------------------------------------
  // Histories
  // ---------------------------------------------------------------------------

  datatype Op =
    | Record(id: string, eventTimestampMs: int)
    | Metrics(now: int, listing: seq<string>)

  const NO_SENSORS := Store({}, map[])

  /** The ways Redis may list a set. */
  ghost predicate Lists(ids: seq<string>, members: set<string>) {
    Distinct(ids) && forall id :: id in ids <==> id in members
  }

  function Recorded(c: Config, s: Store, id: string, t: int): Store {
    Store(s.members + {id},
          if Updates(HashOf(s, id), t) then s.hashes[id := Beat(c.onlineWindowMs, HashOf(s, id), t)] else s.hashes)
  }

  function Pruned(s: Store, ids: seq<string>): Store {
    var gone := set id <- ids;
    Store(s.members - gone, s.hashes - gone)
  }

  ghost function Step(c: Config, s: Store, op: Op): Store {
    match op
    case Record(id, t) => Recorded(c, s, id, t)
    case Metrics(now, listing) =>
      if Lists(listing, s.members) then Pruned(s, ScanAll(c, s, listing, now).stale) else s
  }

  ghost function Run(c: Config, ops: seq<Op>): Store {
    if ops == [] then NO_SENSORS else Step(c, Run(c, Front(ops)), Last(ops))
  }

  predicate AllOlder(ts: seq<int>, limit: int) {
    forall t <- ts :: t < limit
  }

  /** The timestamps recorded for a sensor since it was first tracked, or tracked again after a pruning. */
  ghost function Since(c: Config, ops: seq<Op>, id: string): seq<int> {
    if ops == [] then []
    else
      var rest := Since(c, Front(ops), id);
      match Last(ops)
      case Record(other, t) => if other == id then rest + [t] else rest
      case Metrics(now, listing) =>
        if Lists(listing, Run(c, Front(ops)).members) && AllOlder(rest, now - c.retentionWindowMs) then [] else rest
  }

  /** The set and the hashes hold the same sensors, and each hash is the fold of its sensor's heartbeats. */
  ghost predicate Agrees(c: Config, ops: seq<Op>, s: Store, id: string) {
    && (id in s.members <==> id in s.hashes)
    && (id in s.hashes <==> Since(c, ops, id) != [])
    && (id in s.hashes ==> s.hashes[id] == Fold(c.onlineWindowMs, Since(c, ops, id)))
  }

  lemma ScanStaleStep(c: Config, s: Store, ids: seq<string>, now: int)
    requires ids != []
    ensures ScanAll(c, s, ids, now).stale == ScanAll(c, s, Front(ids), now).stale
      + (if Complete(HashOf(s, Last(ids))) && Stale(c, HashOf(s, Last(ids)), now) then [Last(ids)] else [])
  {
  }

  /** The pruned sensors are exactly the listed ones not seen for longer than the retention window. */
  lemma {:induction false} StaleIsExact(c: Config, s: Store, ids: seq<string>, now: int, id: string)
    ensures id in ScanAll(c, s, ids, now).stale <==> id in ids && Complete(HashOf(s, id)) && Stale(c, HashOf(s, id), now)
  {
    if ids != [] {
      StaleIsExact(c, s, Front(ids), now, id);
      ScanStaleStep(c, s, ids, now);
      assert ids == Front(ids) + [Last(ids)];
    }
  }

  lemma FoldIsComplete(window: int, ts: seq<int>)
    requires ts != []
    ensures InOrder(Fold(window, ts))
  {
    var latest, k := FoldIsSpecified(window, ts);
  }

  lemma StaleWhenAllOlder(c: Config, ts: seq<int>, now: int)
    requires ts != []
    ensures Stale(c, Fold(c.onlineWindowMs, ts), now) <==> AllOlder(ts, now - c.retentionWindowMs)
  {
    var latest, k := FoldIsSpecified(c.onlineWindowMs, ts);
  }

  /** Every reachable store is the fold of its heartbeats, sensor by sensor. */
  lemma {:induction false} StoreIsFold(c: Config, ops: seq<Op>, id: string)
    ensures Agrees(c, ops, Run(c, ops), id)
  {
    if ops != [] {
      StoreIsFold(c, Front(ops), id);
      var s := Run(c, Front(ops));
      var before := Since(c, Front(ops), id);
      if before != [] {
        FoldIsComplete(c.onlineWindowMs, before);
      }
      match Last(ops)
      case Record(other, t) =>
        if other == id {
          assert Front(before + [t]) == before;
        }
      case Metrics(now, listing) =>
        StaleIsExact(c, s, listing, now, id);
        if before != [] {
          StaleWhenAllOlder(c, before, now);
        }
    }
  }

  /** In a reachable store every member has a whole hash, and its times are in order. */
  ghost predicate Tracked(s: Store) {
    && s.members == s.hashes.Keys
    && forall id <- s.members :: InOrder(s.hashes[id])
  }

  lemma ReachableIsTracked(c: Config, ops: seq<Op>)
    ensures Tracked(Run(c, ops))
  {
    var s := Run(c, ops);
    forall id
      ensures id in s.members <==> id in s.hashes.Keys
      ensures id in s.members ==> InOrder(s.hashes[id])
    {
      StoreIsFold(c, ops, id);
      if id in s.members {
        FoldIsComplete(c.onlineWindowMs, Since(c, ops, id));
      }
    }
  }

  /** A heartbeat leaves the store as it is exactly when one at least as late was already processed. */
  lemma RedeliveryChangesNothing(c: Config, ops: seq<Op>, id: string, t: int)
    ensures Run(c, ops + [Record(id, t)]) == Run(c, ops) <==> exists u <- Since(c, ops, id) :: t <= u
  {
    var s := Run(c, ops);
    assert Front(ops + [Record(id, t)]) == ops;
    StoreIsFold(c, ops, id);
    if Since(c, ops, id) != [] {
      var latest, k := FoldIsSpecified(c.onlineWindowMs, Since(c, ops, id));
      assert s.members + {id} == s.members;
      if t > latest {
        assert Recorded(c, s, id, t).hashes[id].lastSeen == Some(t);
      }
    } else {
      assert id in Recorded(c, s, id, t).members;
    }
  }

  // ---------------------------------------------------------------------------
  // The report
  // ---------------------------------------------------------------------------

  /** The seconds from `from` to `now`, or none if `from` is later. */
  ghost predicate Elapsed(seconds: real, from: int, now: int) {
    seconds * 1000.0 == Max(0, now - from) as real
  }

  /**
   * A detail tells what the heartbeats `ts` of its sensor say: first seen at the first of them, last
   * seen at the latest, online if that is within the window, and then up since the start of the
   * last streak.
   */
  ghost predicate Tells(c: Config, ts: seq<int>, now: int, d: Detail) {
    && ts != []
    && d.firstSeen == ts[0]
    && IsMax(ts, d.lastSeen)
    && now - d.lastSeen <= c.retentionWindowMs
    && (d.online <==> now - d.lastSeen <= c.onlineWindowMs)
    && (d.online ==> exists k :: 0 <= k < |ts| && LastStreak(c.onlineWindowMs, ts, k) && Elapsed(d.uptimeSeconds, ts[k], now))
    && (!d.online ==> d.uptimeSeconds == 0.0)
    && Elapsed(d.secondsSinceLastSeen, d.lastSeen, now)
  }

  /** The detail reported for one sensor is right, and an online sensor's uptime covers the time since it was last seen. */
  ghost predicate SoundDetail(c: Config, s: Store, now: int, d: Detail) {
    && d.sensorId in s.hashes
    && var h := s.hashes[d.sensorId];
      && Complete(h) && !Stale(c, h, now)
      && d == DetailOf(c, d.sensorId, h, now)
      && d.uptimeSeconds >= 0.0
      && (d.online ==> d.uptimeSeconds >= d.secondsSinceLastSeen)
  }

  lemma SecondsElapse(now: int, from: int)
    ensures Elapsed(Seconds(now, from), from, now)
  {
  }

  /** The hash of a sensor's heartbeats yields a detail that tells them. */
  lemma DetailTells(c: Config, id: string, ts: seq<int>, now: int)
    requires ts != [] && !Stale(c, Fold(c.onlineWindowMs, ts), now) && Complete(Fold(c.onlineWindowMs, ts))
    ensures Tells(c, ts, now, DetailOf(c, id, Fold(c.onlineWindowMs, ts), now))
  {
    var latest, k := FoldIsSpecified(c.onlineWindowMs, ts);
    SecondsElapse(now, ts[k]);
    SecondsElapse(now, latest);
    hide Fold, Seconds, Elapsed;
  }

  /** Each listed sensor is pruned or has one detail. */
  ghost predicate SoundDetails(c: Config, s: Store, ids: seq<string>, now: int, r: Scan) {
    && |r.stale| + |r.details| == |ids|
    && (forall d <- r.details :: SoundDetail(c, s, now, d) && d.sensorId in ids)
    && (forall id <- ids :: id in r.stale || exists d <- r.details :: d.sensorId == id)
  }

  /** The uptimes of the online sensors added up; the others have none. */
  function TotalUptime(details: seq<Detail>): real {
    if details == [] then 0.0 else TotalUptime(Front(details)) + Last(details).uptimeSeconds
  }

  function OnlineCount(details: seq<Detail>): nat {
    if details == [] then 0 else OnlineCount(Front(details)) + (if Last(details).online then 1 else 0)
  }

  /** The reported uptimes are those of the online details. */
  ghost predicate UptimesById(ids: seq<string>, r: Scan) {
    && (forall d <- r.details :: d.sensorId in ids && (d.online <==> d.sensorId in r.uptimes))
    && (forall d <- r.details :: d.online ==> r.uptimes[d.sensorId] == d.uptimeSeconds)
    && (forall id <- r.uptimes :: id in ids)
    && |r.uptimes| == |r.onlineUptimes|
  }

  ghost predicate UptimesListed(r: Scan) {
    && (forall d <- r.details :: d.online ==> d.uptimeSeconds in r.onlineUptimes)
    && (forall u <- r.onlineUptimes :: u >= 0.0 && exists d <- r.details :: d.online && d.uptimeSeconds == u)
  }

  predicate UptimesAddUp(r: Scan) {
    |r.onlineUptimes| == OnlineCount(r.details) && Sum(r.onlineUptimes) == TotalUptime(r.details)
  }

  ghost predicate SoundUptimes(ids: seq<string>, r: Scan) {
    UptimesById(ids, r) && UptimesListed(r) && UptimesAddUp(r)
  }

  lemma {:induction false} DetailsAreSound(c: Config, s: Store, ids: seq<string>, now: int)
    requires Tracked(s) && forall id <- ids :: id in s.members
    ensures SoundDetails(c, s, ids, now, ScanAll(c, s, ids, now))
  {
    if ids != [] {
      var id := Last(ids);
      var before := ScanAll(c, s, Front(ids), now);
      DetailsAreSound(c, s, Front(ids), now);
      assert ids == Front(ids) + [id] && id in ids;
      var h := HashOf(s, id);
      if !Stale(c, h, now) {
        var d := DetailOf(c, id, h, now);
        assert ScanAll(c, s, ids, now).details == before.details + [d];
        assert SoundDetail(c, s, now, d);
      }
    }
  }

  lemma {:induction false} UptimesAreSound(c: Config, s: Store, ids: seq<string>, now: int)
    requires Distinct(ids)
    ensures SoundUptimes(ids, ScanAll(c, s, ids, now))
  {
    if ids != [] {
      var id := Last(ids);
      var before := ScanAll(c, s, Front(ids), now);
      UptimesAreSound(c, s, Front(ids), now);
      assert ids == Front(ids) + [id] && id !in Front(ids);
      var h := HashOf(s, id);
      if Complete(h) && !Stale(c, h, now) {
        AddUptime(Front(ids), before, DetailOf(c, id, h, now));
      }
    }
  }

  /** One more detail, and its uptime if it is online. */
  function WithDetail(r: Scan, d: Detail): Scan {
    var r1 := r.(details := r.details + [d]);
    if d.online then r1.(uptimes := r.uptimes[d.sensorId := d.uptimeSeconds], onlineUptimes := r.onlineUptimes + [d.uptimeSeconds])
    else r1
  }

  lemma UptimeGoesById(ids: seq<string>, r: Scan, d: Detail)
    requires UptimesById(ids, r) && d.sensorId !in ids
    ensures UptimesById(ids + [d.sensorId], WithDetail(r, d))
  {
    var r1 := WithDetail(r, d);
    forall x <- r1.details
      ensures x.sensorId in ids + [d.sensorId] && (x.online <==> x.sensorId in r1.uptimes)
      ensures x.online ==> r1.uptimes[x.sensorId] == x.uptimeSeconds
    {
      if x !in r.details {
        assert x == d;
      }
    }
  }

  lemma UptimeIsListed(r: Scan, d: Detail)
    requires UptimesListed(r) && d.uptimeSeconds >= 0.0
    ensures UptimesListed(WithDetail(r, d))
  {
    var r1 := WithDetail(r, d);
    assert d in r1.details && forall x <- r.details :: x in r1.details;
    forall u <- r1.onlineUptimes ensures u >= 0.0 && exists x <- r1.details :: x.online && x.uptimeSeconds == u {
      if u in r.onlineUptimes {
        var x :| x in r.details && x.online && x.uptimeSeconds == u;
        assert x in r1.details;
      }
    }
  }

  lemma UptimeAddsUp(r: Scan, d: Detail)
    requires UptimesAddUp(r) && (d.online || d.uptimeSeconds == 0.0)
    ensures UptimesAddUp(WithDetail(r, d))
  {
    OneMoreDetail(r.details, d);
    OneMoreUptime(r.onlineUptimes, d.uptimeSeconds);
    hide Sum, TotalUptime, OnlineCount;
  }

  lemma AddUptime(ids: seq<string>, r: Scan, d: Detail)
    requires SoundUptimes(ids, r) && d.sensorId !in ids && d.uptimeSeconds >= 0.0 && (d.online || d.uptimeSeconds == 0.0)
    ensures SoundUptimes(ids + [d.sensorId], WithDetail(r, d))
  {
    UptimeGoesById(ids, r, d);
    UptimeIsListed(r, d);
    UptimeAddsUp(r, d);
    hide UptimesById, UptimesListed, UptimesAddUp;
  }

  lemma OneMoreDetail(details: seq<Detail>, d: Detail)
    ensures TotalUptime(details + [d]) == TotalUptime(details) + d.uptimeSeconds
    ensures OnlineCount(details + [d]) == OnlineCount(details) + (if d.online then 1 else 0)
  {
    assert Front(details + [d]) == details;
  }

  lemma OneMoreUptime(xs: seq<real>, x: real)
    ensures Sum(xs + [x]) == Sum(xs) + x
  {
    assert Front(xs + [x]) == xs;
  }

  lemma {:induction false} SumIsBounded(xs: seq<real>, bound: real)
    requires forall x <- xs :: 0.0 <= x <= bound
    ensures 0.0 <= Sum(xs) <= |xs| as real * bound
  {
    if xs != [] {
      assert Last(xs) in xs && forall x <- Front(xs) :: x in xs;
      SumIsBounded(Front(xs), bound);
    }
  }

  lemma {:induction false} MaxIsMax(xs: seq<real>)
    requires xs != []
    ensures MaxOf(xs) in xs && forall x <- xs :: x <= MaxOf(xs)
  {
    if |xs| > 1 {
      MaxIsMax(Front(xs));
      assert xs == Front(xs) + [Last(xs)];
    }
  }

  /** One detail for each sensor that remains, and totals that fit them. */
  ghost predicate SoundReport(c: Config, s: Store, after: Store, now: int, r: Report) {
    && (forall d <- r.sensorsUptime :: SoundDetail(c, s, now, d))
    && (forall id <- after.members :: exists d <- r.sensorsUptime :: d.sensorId == id)
    && r.sensorsTotalTracked == |r.sensorsUptime| == |after.members|
    && Totals(r)
  }

  /** Online sensors, their uptimes by id, the longest one and the average, as the details have them. */
  ghost predicate Totals(r: Report) {
    && r.sensorsOnline == OnlineCount(r.sensorsUptime) == |r.sensorUptimeSeconds|
    && (forall d <- r.sensorsUptime :: d.online <==> d.sensorId in r.sensorUptimeSeconds)
    && (forall d <- r.sensorsUptime :: d.online ==> r.sensorUptimeSeconds[d.sensorId] == d.uptimeSeconds <= r.maxUptimeSeconds)
    && (r.sensorsOnline > 0 ==> exists d <- r.sensorsUptime :: d.online && d.uptimeSeconds == r.maxUptimeSeconds)
    && (r.sensorsOnline == 0 ==> r.maxUptimeSeconds == r.avgUptimeSeconds == 0.0)
    && r.avgUptimeSeconds * r.sensorsOnline as real == TotalUptime(r.sensorsUptime)
    && 0.0 <= r.avgUptimeSeconds <= r.maxUptimeSeconds
  }

  lemma {:induction false} ListingSize(ids: seq<string>, members: set<string>)
    requires Lists(ids, members)
    ensures |ids| == |members|
  {
    if ids != [] {
      assert Last(ids) in ids;
      assert ids == Front(ids) + [Last(ids)];
      ListingSize(Front(ids), members - {Last(ids)});
    } else {
      assert members == {};
    }
  }

  lemma {:induction false} StaleIsDistinct(c: Config, s: Store, ids: seq<string>, now: int)
    requires Distinct(ids)
    ensures Distinct(ScanAll(c, s, ids, now).stale)
  {
    if ids != [] {
      StaleIsDistinct(c, s, Front(ids), now);
      ScanStaleStep(c, s, ids, now);
      StaleIsExact(c, s, Front(ids), now, Last(ids));
      assert ids == Front(ids) + [Last(ids)];
    }
  }

  lemma PrunedSize(c: Config, s: Store, ids: seq<string>, now: int)
    requires Lists(ids, s.members)
    ensures |Pruned(s, ScanAll(c, s, ids, now).stale).members| == |ids| - |ScanAll(c, s, ids, now).stale|
  {
    hide ScanAll;
    var stale := ScanAll(c, s, ids, now).stale;
    var gone := set id <- stale;
    forall id <- gone
      ensures id in s.members
    {
      StaleIsExact(c, s, ids, now, id);
    }
    StaleIsDistinct(c, s, ids, now);
    ListingSize(ids, s.members);
    ListingSize(stale, gone);
  }

  lemma AverageIsBounded(xs: seq<real>)
    requires xs != [] && forall x <- xs :: x >= 0.0
    ensures MaxOf(xs) in xs && 0.0 <= Sum(xs) / |xs| as real <= MaxOf(xs)
  {
    hide Sum, MaxOf;
    MaxIsMax(xs);
    SumIsBounded(xs, MaxOf(xs));
    DivisionBound(Sum(xs), |xs| as real, MaxOf(xs));
  }

  lemma DivisionBound(sum: real, n: real, bound: real)
    requires n > 0.0 && 0.0 <= sum <= n * bound
    ensures 0.0 <= sum / n <= bound
  {
    assert (sum / n) * n == sum;
  }

  lemma TotalsFit(ids: seq<string>, scan: Scan, consumed: nat)
    requires SoundUptimes(ids, scan)
    ensures Totals(ReportOf(scan, |ids|, consumed))
  {
    hide MaxOf, Sum, TotalUptime, OnlineCount;
    if scan.onlineUptimes != [] {
      AverageIsBounded(scan.onlineUptimes);
      MaxIsMax(scan.onlineUptimes);
      AverageTimesCount(Sum(scan.onlineUptimes), |scan.onlineUptimes| as real);
    } else {
      SumOfNothing();
    }
  }

  lemma SumOfNothing()
    ensures Sum([]) == 0.0
  {
  }

  lemma AverageTimesCount(sum: real, n: real)
    requires n > 0.0
    ensures sum / n * n == sum
  {
  }

  lemma ReportFits(c: Config, s: Store, ids: seq<string>, now: int, scan: Scan, consumed: nat)
    requires SoundDetails(c, s, ids, now, scan) && SoundUptimes(ids, scan) && Lists(ids, s.members)
    requires |Pruned(s, scan.stale).members| == |ids| - |scan.stale|
    ensures SoundReport(c, s, Pruned(s, scan.stale), now, ReportOf(scan, |ids|, consumed))
  {
    TotalsFit(ids, scan, consumed);
    hide SoundDetail, MaxOf, Sum, Totals, SoundUptimes;
  }

  /**
   * Every report over every history is sound, and each detail tells what the heartbeats of its
   * sensor say, those since it was last pruned.
   */
  lemma ReportIsSound(c: Config, ops: seq<Op>, now: int, listing: seq<string>, consumed: nat)
    requires Lists(listing, Run(c, ops).members)
    ensures var report := ReportOf(ScanAll(c, Run(c, ops), listing, now), |listing|, consumed);
      && SoundReport(c, Run(c, ops), Run(c, ops + [Metrics(now, listing)]), now, report)
      && (forall d <- report.sensorsUptime :: Tells(c, Since(c, ops, d.sensorId), now, d))
      && report.consumed == consumed
  {
    hide ScanAll, SoundDetails, SoundUptimes, Tells;
    var s := Run(c, ops);
    assert Front(ops + [Metrics(now, listing)]) == ops;
    ReachableIsTracked(c, ops);
    DetailsAreSound(c, s, listing, now);
    UptimesAreSound(c, s, listing, now);
    PrunedSize(c, s, listing, now);
    var scan := ScanAll(c, s, listing, now);
    ReportFits(c, s, listing, now, scan, consumed);
    hide Totals;
    forall d <- scan.details ensures Tells(c, Since(c, ops, d.sensorId), now, d) {
      DetailOfHistory(c, ops, now, d);
    }
  }

  lemma DetailOfHistory(c: Config, ops: seq<Op>, now: int, d: Detail)
    requires SoundDetail(c, Run(c, ops), now, d)
    ensures Tells(c, Since(c, ops, d.sensorId), now, d)
  {
    StoreIsFold(c, ops, d.sensorId);
    DetailTells(c, d.sensorId, Since(c, ops, d.sensorId), now);
    hide Run, Since, Fold, DetailOf, Tells;
  }

  /** A metrics call keeps exactly the sensors with a heartbeat within the retention window. */
  lemma KeptExactlyWithinRetention(c: Config, ops: seq<Op>, now: int, listing: seq<string>, id: string)
    requires Lists(listing, Run(c, ops).members)
    ensures id in Run(c, ops + [Metrics(now, listing)]).members
      <==> exists t <- Since(c, ops, id) :: now - t <= c.retentionWindowMs
  {
    var more := ops + [Metrics(now, listing)];
    assert Front(more) == ops;
    StoreIsFold(c, more, id);
  }

  /** A metrics call drops `id` while it counts as online. */
  ghost predicate PrunesOnline(c: Config, ops: seq<Op>, now: int, listing: seq<string>, id: string) {
    var s := Run(c, ops);
    && id in s.members && Online(c, HashOf(s, id), now)
    && id !in Run(c, ops + [Metrics(now, listing)]).members
  }

  /** No history ever prunes an online sensor exactly when the online window is no longer than the retention window. */
  lemma NoOnlineSensorIsPruned(c: Config)
    ensures c.onlineWindowMs <= c.retentionWindowMs
      <==> !exists ops: seq<Op>, now: int, listing: seq<string>, id: string :: PrunesOnline(c, ops, now, listing, id)
  {
    if c.onlineWindowMs <= c.retentionWindowMs {
      forall ops: seq<Op>, now: int, listing: seq<string>, id: string
        ensures !PrunesOnline(c, ops, now, listing, id)
      {
        assert Front(ops + [Metrics(now, listing)]) == ops;
        StaleIsExact(c, Run(c, ops), listing, now, id);
      }
    } else {
      var ops, now := [Record("a", 0)], c.retentionWindowMs + 1;
      var s := Run(c, ops);
      assert Front(ops) == [] && Last(ops) == Record("a", 0);
      assert Run(c, Front(ops)) == NO_SENSORS;
      assert s == Recorded(c, NO_SENSORS, "a", 0);
      assert Lists(["a"], s.members);
      assert Front(ops + [Metrics(now, ["a"])]) == ops;
      StaleIsExact(c, s, ["a"], now, "a");
      assert PrunesOnline(c, ops, now, ["a"], "a");
    }
  }

  // ---------------------------------------------------------------------------
  // The tracker state itself
  // ---------------------------------------------------------------------------

  /** What the script replies: whether it wrote, whether the sensor was new, and the times now in force. */
  datatype Reply = Reply(updated: bool, isNew: bool, firstSeen: int, lastSeen: int, onlineSince: int)

  class HeartbeatTrackerState {
    const config: Config
    var members: set<string>
    var hashes: map<string, Hash>

    ghost function View(): Store
      reads this
    {
      Store(members, hashes)
    }

    constructor (config: Config)
      ensures this.config == config && View() == NO_SENSORS
    {
      this.config := config;
      members, hashes := {}, map[];
    }

    /** The compare-and-set script. */
    method RecordAuthorizedSensor(sensorId: string, eventTime: int) returns (reply: Reply)
      modifies this
      ensures View() == Recorded(config, old(View()), sensorId, eventTime)
      ensures reply.updated <==> Updates(HashOf(old(View()), sensorId), eventTime)
      ensures reply.isNew <==> HashOf(old(View()), sensorId).firstSeen.None?
      ensures Complete(HashOf(View(), sensorId)) ==>
        HashOf(View(), sensorId) == Hash(Some(reply.firstSeen), Some(reply.lastSeen), Some(reply.onlineSince))
    {
      members := members + {sensorId};
      var stored := if sensorId in hashes then hashes[sensorId] else NO_HASH;
      var lastSeen, firstSeen, onlineSince := stored.lastSeen, stored.firstSeen, stored.onlineSince;
      var isNew := firstSeen.None?;
      if lastSeen.None? || eventTime > lastSeen.value {
        var newFirstSeen := OrElse(firstSeen, eventTime);
        var newOnlineSince := OrElse(onlineSince, eventTime);
        if lastSeen.Some? && eventTime - lastSeen.value > config.onlineWindowMs {
          newOnlineSince := eventTime;
        }
        hashes := hashes[sensorId := Hash(Some(newFirstSeen), Some(eventTime), Some(newOnlineSince))];
        return Reply(true, isNew, newFirstSeen, eventTime, newOnlineSince);
      }
      return Reply(false, isNew, OrElse(firstSeen, eventTime), lastSeen.value, OrElse(onlineSince, eventTime));
    }

    method CreateMetrics(consumed: nat, currentTime: int, sensorIds: seq<string>) returns (report: Report)
      requires Lists(sensorIds, members)
      modifies this
      ensures View() == Step(config, old(View()), Metrics(currentTime, sensorIds))
      ensures report == ReportOf(ScanAll(config, old(View()), sensorIds, currentTime), |sensorIds|, consumed)
    {
      var uptimeMap: map<string, real> := map[];
      var details: seq<Detail> := [];
      var onlineUptimes: seq<real> := [];
      var staleSensorIds: seq<string> := [];
      var i := 0;
      while i < |sensorIds|
        invariant 0 <= i <= |sensorIds|
        invariant Scan(staleSensorIds, uptimeMap, onlineUptimes, details) == ScanAll(config, View(), sensorIds[..i], currentTime)
        invariant View() == old(View())
      {
        var sensorId := sensorIds[i];
        var heartbeat := if sensorId in hashes then hashes[sensorId] else NO_HASH;
        assert Front(sensorIds[..i + 1]) == sensorIds[..i] && Last(sensorIds[..i + 1]) == sensorId;
        i := i + 1;
        if !Complete(heartbeat) {
          continue;
        }
        var lastSeen, onlineSince := heartbeat.lastSeen.value, heartbeat.onlineSince.value;
        var secondsSinceLastSeen := Seconds(currentTime, lastSeen);
        var online := currentTime - lastSeen <= config.onlineWindowMs;
        var uptimeSeconds := if online then Seconds(currentTime, onlineSince) else 0.0;
        if currentTime - lastSeen > config.retentionWindowMs {
          staleSensorIds := staleSensorIds + [sensorId];
          continue;
        }
        if online {
          uptimeMap := uptimeMap[sensorId := uptimeSeconds];
          onlineUptimes := onlineUptimes + [uptimeSeconds];
        }
        details := details + [Detail(sensorId, online, heartbeat.firstSeen.value, lastSeen, uptimeSeconds, secondsSinceLastSeen)];
      }
      assert sensorIds[..i] == sensorIds;
      Prune(staleSensorIds);
      var sensorsOnline := |onlineUptimes|;
      report := Report(sensorsOnline, |sensorIds| - |staleSensorIds|, consumed, uptimeMap, details,
                       if sensorsOnline > 0 then MaxOf(onlineUptimes) else 0.0,
                       if sensorsOnline > 0 then Sum(onlineUptimes) / sensorsOnline as real else 0.0);
    }

    method Prune(staleSensorIds: seq<string>)
      modifies this
      ensures View() == Pruned(old(View()), staleSensorIds)
    {
      var i := 0;
      while i < |staleSensorIds|
        invariant 0 <= i <= |staleSensorIds|
        invariant View() == Pruned(old(View()), staleSensorIds[..i])
      {
        members := members - {staleSensorIds[i]};
        hashes := hashes - {staleSensorIds[i]};
        i := i + 1;
        assert staleSensorIds[..i] == staleSensorIds[..i - 1] + [staleSensorIds[i - 1]];
      }
      assert staleSensorIds[..i] == staleSensorIds;
    }
  }
}
