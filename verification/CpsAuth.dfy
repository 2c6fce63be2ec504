/**
 * CPS subtree authentication (services/cps-auth/src/cps-auth.ts): the bounded walk
 * from a sensor's node towards the configured root, over one snapshot of the chain.
 */
module CpsWalk {
  import opened Common

  type NodeId = nat

  /** nodes: every existing node with its parent, if any. */
  datatype Chain = Chain(identityNode: map<Bytes, NodeId>, nodes: map<NodeId, Option<NodeId>>)

  const MAX_TRAVERSAL_STEPS: nat := 1024

  /** The node `links` parent links above `node`. */
  function Ancestor(chain: Chain, node: NodeId, links: nat): Option<NodeId> {
    if links == 0 then Some(node)
    else
      match Ancestor(chain, node, links - 1)
      case None => None
      case Some(below) => if below in chain.nodes then chain.nodes[below] else None
  }

  ghost predicate Reaches(chain: Chain, node: NodeId, root: NodeId, links: nat) {
    Ancestor(chain, node, links) == Some(root)
  }

  /** The root lies between 1 and `limit` parent links above the node. */
  ghost predicate DescendsWithin(chain: Chain, node: NodeId, root: NodeId, limit: nat) {
    exists k :: 1 <= k <= limit && Reaches(chain, node, root, k)
  }

  /** The root lies any positive number of parent links above the node. */
  ghost predicate Descends(chain: Chain, node: NodeId, root: NodeId) {
    exists k :: 1 <= k && Reaches(chain, node, root, k)
  }

  // ---------------------------------------------------------------------------
  // Paths
  // ---------------------------------------------------------------------------

  lemma {:induction false} AncestorOfAncestor(chain: Chain, node: NodeId, i: nat, j: nat)
    requires Ancestor(chain, node, i).Some?
    ensures Ancestor(chain, node, i + j) == Ancestor(chain, Ancestor(chain, node, i).value, j)
  {
    if j > 0 {
      AncestorOfAncestor(chain, node, i, j - 1);
    }
  }

  lemma {:induction false} PathIsUnbroken(chain: Chain, node: NodeId, i: nat, k: nat)
    requires i <= k && Ancestor(chain, node, k).Some?
    ensures Ancestor(chain, node, i).Some?
    ensures i < k ==> Ancestor(chain, node, i).value in chain.nodes
  {
    if i < k {
      PathIsUnbroken(chain, node, i, k - 1);
    }
  }

  /** Once the path returns to a node it has passed, it meets nothing new. */
  lemma {:induction false} CycleMeetsNothingNew(chain: Chain, node: NodeId, root: NodeId, i: nat, j: nat, k: nat)
    requires i < j && 1 <= k
    requires Ancestor(chain, node, i).Some? && Ancestor(chain, node, i) == Ancestor(chain, node, j)
    requires forall m :: 1 <= m <= j ==> !Reaches(chain, node, root, m)
    ensures !Reaches(chain, node, root, k)
    decreases k
  {
    if k > j {
      AncestorOfAncestor(chain, node, j, k - j);
      AncestorOfAncestor(chain, node, i, k - j);
      CycleMeetsNothingNew(chain, node, root, i, j, i + (k - j));
    }
  }

  lemma NothingAboveATop(chain: Chain, node: NodeId, root: NodeId, top: nat, k: nat)
    requires Ancestor(chain, node, top).None? && top <= k
    ensures !Reaches(chain, node, root, k)
  {
    if Ancestor(chain, node, k).Some? {
      PathIsUnbroken(chain, node, top, k);
    }
  }

  // ---------------------------------------------------------------------------
  // The walk
  // ---------------------------------------------------------------------------

  /** What the chain answers for a sensor: its node is a strict descendant of the root, within the step cap. */
  ghost predicate Authorized(chain: Chain, root: NodeId, sensorId: Bytes) {
    && sensorId in chain.identityNode
    && DescendsWithin(chain, chain.identityNode[sensorId], root, MAX_TRAVERSAL_STEPS)
  }

  function NodeInfo(chain: Chain, node: NodeId): Option<Option<NodeId>> {
    if node in chain.nodes then Some(chain.nodes[node]) else None
  }

  /** The visited nodes are those passed so far. */
  ghost predicate Passed(chain: Chain, node: NodeId, visited: set<NodeId>, step: nat) {
    forall m <- visited :: exists i :: 0 <= i <= step && Ancestor(chain, node, i) == Some(m)
  }

  method IsRootDescendant(chain: Chain, root: NodeId, sensorId: Bytes) returns (allowed: bool)
    ensures allowed <==> Authorized(chain, root, sensorId)
  {
    if sensorId !in chain.identityNode {
      return false;
    }
    var nodeId := chain.identityNode[sensorId];
    var visited := {nodeId};
    var current := nodeId;
    var info := NodeInfo(chain, nodeId);
    assert Ancestor(chain, nodeId, 0) == Some(nodeId);
    for step := 0 to MAX_TRAVERSAL_STEPS
      invariant Ancestor(chain, nodeId, step) == Some(current) && info == NodeInfo(chain, current)
      invariant Passed(chain, nodeId, visited, step)
      invariant forall k :: 1 <= k <= step ==> !Reaches(chain, nodeId, root, k)
    {
      if info.None? || info.value.None? {
        forall k | 1 <= k <= MAX_TRAVERSAL_STEPS ensures !Reaches(chain, nodeId, root, k) {
          if k > step { NothingAboveATop(chain, nodeId, root, step + 1, k); }
        }
        return false;
      }
      var parent := info.value.value;
      assert Ancestor(chain, nodeId, step + 1) == Some(parent);
      if parent == root {
        assert Reaches(chain, nodeId, root, step + 1);
        return true;
      }
      if parent in visited {
        var i :| 0 <= i <= step && Ancestor(chain, nodeId, i) == Some(parent);
        forall k | 1 <= k <= MAX_TRAVERSAL_STEPS ensures !Reaches(chain, nodeId, root, k) {
          CycleMeetsNothingNew(chain, nodeId, root, i, step + 1, k);
        }
        return false;
      }
      visited := visited + {parent};
      current := parent;
      info := NodeInfo(chain, parent);
    }
    return false;
  }

  // ---------------------------------------------------------------------------
  // When the cap loses nothing
  // ---------------------------------------------------------------------------

  /** A shortest path to the root passes each node once, so it is no longer than the chain has nodes. */
  lemma ShortestPathFits(chain: Chain, node: NodeId, root: NodeId, k: nat)
    requires 1 <= k && Reaches(chain, node, root, k)
    requires forall m :: 1 <= m < k ==> !Reaches(chain, node, root, m)
    ensures k <= |chain.nodes|
  {
    forall i | 0 <= i < k ensures Ancestor(chain, node, i).Some? && Ancestor(chain, node, i).value in chain.nodes {
      PathIsUnbroken(chain, node, i, k);
    }
    var path := seq(k, i requires 0 <= i < k => Ancestor(chain, node, i).value);
    forall i, j | 0 <= i < j < k ensures path[i] != path[j] {
      if path[i] == path[j] {
        AncestorOfAncestor(chain, node, j, k - j);
        AncestorOfAncestor(chain, node, i, k - j);
        assert Reaches(chain, node, root, i + (k - j));
      }
    }
    DistinctFits(path, chain.nodes.Keys);
  }

  lemma {:induction false} ShortestExists(chain: Chain, node: NodeId, root: NodeId, k: nat) returns (l: nat)
    requires 1 <= k && Reaches(chain, node, root, k)
    ensures 1 <= l <= k && Reaches(chain, node, root, l)
    ensures forall m :: 1 <= m < l ==> !Reaches(chain, node, root, m)
    decreases k
  {
    if m :| 1 <= m < k && Reaches(chain, node, root, m) {
      l := ShortestExists(chain, node, root, m);
    } else {
      l := k;
    }
  }

  /** On a chain of at most `limit` nodes, a walk of `limit` links decides reachability at any distance. */
  lemma SmallChainIsDecided(chain: Chain, node: NodeId, root: NodeId, limit: nat)
    requires |chain.nodes| <= limit
    ensures DescendsWithin(chain, node, root, limit) <==> Descends(chain, node, root)
  {
    if Descends(chain, node, root) {
      var k :| 1 <= k && Reaches(chain, node, root, k);
      var l := ShortestExists(chain, node, root, k);
      ShortestPathFits(chain, node, root, l);
    }
  }

  /** A straight chain of `length` links above the root 0. */
  function Ladder(length: nat): map<NodeId, Option<NodeId>> {
    if length == 0 then map[0 := None] else Ladder(length - 1)[length := Some(length - 1)]
  }

  lemma {:induction false} LadderRungs(length: nat, i: nat)
    ensures i in Ladder(length) <==> i <= length
    ensures i <= length ==> Ladder(length)[i] == if i == 0 then None else Some(i - 1)
  {
    if length > 0 {
      LadderRungs(length - 1, i);
    }
  }

  lemma {:induction false} LadderAncestor(identityNode: map<Bytes, NodeId>, length: nat, top: nat, k: nat)
    requires top <= length
    ensures Ancestor(Chain(identityNode, Ladder(length)), top, k) == if k <= top then Some(top - k) else None
  {
    if k > 0 {
      LadderAncestor(identityNode, length, top, k - 1);
      if k - 1 <= top {
        LadderRungs(length, top - (k - 1));
      }
    }
  }

  /** Below the root of a straight chain a sensor is authorized exactly at 1 to 1024 links. */
  lemma CapIsExact(sensorId: Bytes, length: nat)
    ensures Authorized(Chain(map[sensorId := length], Ladder(length)), 0, sensorId) <==> 1 <= length <= 1024
  {
    var chain := Chain(map[sensorId := length], Ladder(length));
    LadderAncestor(chain.identityNode, length, length, length);
    assert Reaches(chain, length, 0, length);
    forall k: nat | Reaches(chain, length, 0, k) ensures k == length {
      LadderAncestor(chain.identityNode, length, length, k);
    }
  }

  /** One link more than the cap is lost: the sensor descends from the root but is not authorized. */
  lemma OneLinkTooFar(sensorId: Bytes)
    ensures var chain := Chain(map[sensorId := MAX_TRAVERSAL_STEPS + 1], Ladder(MAX_TRAVERSAL_STEPS + 1));
      Descends(chain, MAX_TRAVERSAL_STEPS + 1, 0) && !Authorized(chain, 0, sensorId)
  {
    var top := MAX_TRAVERSAL_STEPS + 1;
    var chain := Chain(map[sensorId := top], Ladder(top));
    LadderAncestor(chain.identityNode, top, top, top);
    assert Reaches(chain, top, 0, top);
    forall k | 1 <= k <= MAX_TRAVERSAL_STEPS ensures !Reaches(chain, top, 0, k) {
      LadderAncestor(chain.identityNode, top, top, k);
    }
  }

  // ---------------------------------------------------------------------------
  // The configured root
  // ---------------------------------------------------------------------------

  datatype RootResult = Root(node: NodeId) | NoIdentity | NoNode | HasParent(parent: NodeId)

  function ResolveRootNode(chain: Chain, rootAccount: Bytes): RootResult {
    if rootAccount !in chain.identityNode then NoIdentity
    else
      var node := chain.identityNode[rootAccount];
      if node !in chain.nodes then NoNode
      else if chain.nodes[node].Some? then HasParent(chain.nodes[node].value)
      else Root(node)
  }

  /** Startup accepts exactly an account whose node exists with nothing above it, and as that node. */
  lemma TreeRootsAreAccepted(chain: Chain, rootAccount: Bytes, node: NodeId)
    ensures ResolveRootNode(chain, rootAccount) == Root(node)
      <==> rootAccount in chain.identityNode && chain.identityNode[rootAccount] == node
           && node in chain.nodes && Ancestor(chain, node, 1) == None
    ensures var r := ResolveRootNode(chain, rootAccount);
      r.HasParent? ==>
        rootAccount in chain.identityNode && Ancestor(chain, chain.identityNode[rootAccount], 1) == Some(r.parent)
  {
    if rootAccount in chain.identityNode {
      assert Ancestor(chain, chain.identityNode[rootAccount], 0) == Some(chain.identityNode[rootAccount]);
    }
    assert Ancestor(chain, node, 0) == Some(node);
  }

  /** A root accepted at startup is a tree root, so the walk means strict descent: the root's own identity is refused. */
  lemma AcceptedRootIsNotADescendant(chain: Chain, rootAccount: Bytes)
    requires ResolveRootNode(chain, rootAccount).Root?
    ensures !Authorized(chain, ResolveRootNode(chain, rootAccount).node, rootAccount)
  {
    var root := ResolveRootNode(chain, rootAccount).node;
    forall k | 1 <= k <= MAX_TRAVERSAL_STEPS ensures !Reaches(chain, root, root, k) {
      NothingAboveATop(chain, root, root, 1, k);
    }
  }
}

/** The authenticator: a cache in front of the walk, with one lookup in flight per sensor. */
module CpsAuthenticator {
  import opened Common
  import opened LruCaching
  import CpsWalk

  datatype Outcome = Resolved(allowed: bool) | LookupFailed

  /** A failed lookup denies. */
  function Verdict(o: Outcome): bool {
    o.Resolved? && o.allowed
  }

  /** What CpsAuth holds: the cache, and for each key in flight the promise, settled or not. */
  datatype Core = Core(cache: Cache<Bytes, bool>, inFlight: map<Bytes, Option<bool>>, negativeTtlMs: nat)
  {
    function Authenticate(key: Bytes, now: int): Core {
      var c := this.(cache := cache.Get(key, now));
      if cache.Lookup(key, now).Some? || key in inFlight then c else c.(inFlight := inFlight[key := None])
    }

    /** The lookup's own outcome: cached only if it resolved, a denial with a TTL. */
    function Finish(key: Bytes, o: Outcome, now: int): Core {
      var stored := match o
        case LookupFailed => cache
        case Resolved(allowed) => cache.Set(key, allowed, if allowed then None else Some(negativeTtlMs), now);
      this.(cache := stored, inFlight := inFlight[key := Some(Verdict(o))])
    }

    function Forget(key: Bytes): Core {
      this.(inFlight := inFlight - {key})
    }
  }

  /** How an answer came about. */
  datatype Source = FromCache | FromLookup

  datatype Answer = Answer(key: Bytes, allowed: bool, at: int, source: Source)

  datatype Completion = Completion(key: Bytes, outcome: Outcome, at: int)

  datatype State = State(
    now: int,
    core: Core,
    waiting: seq<Bytes>,
    started: multiset<Bytes>,
    completed: seq<Completion>,
    answers: seq<Answer>)

  datatype Event =
    | Tick(ms: nat)
    | Call(key: Bytes)
    | LookupDone(key: Bytes, outcome: Outcome)
    | Cleanup(key: Bytes)

  function Init(cacheMaxSize: nat, negativeTtlMs: nat, now: int): State {
    State(now, Core(LruCaching.Empty(cacheMaxSize), map[], negativeTtlMs), [], multiset{}, [], [])
  }

  /** All callers waiting for `key` get the same answer. */
  function AnswerWaiting(waiting: seq<Bytes>, key: Bytes, allowed: bool, at: int): seq<Answer> {
    if waiting == [] then []
    else
      var rest := AnswerWaiting(Front(waiting), key, allowed, at);
      if Last(waiting) == key then rest + [Answer(key, allowed, at, FromLookup)] else rest
  }

  predicate Pending(s: State, key: Bytes) {
    key in s.core.inFlight && s.core.inFlight[key].None?
  }

  function OnCall(s: State, key: Bytes): State {
    var s1 := s.(core := s.core.Authenticate(key, s.now));
    var hit := s.core.cache.Lookup(key, s.now);
    if hit.Some? then
      s1.(answers := s.answers + [Answer(key, hit.value, s.now, FromCache)])
    else if key !in s.core.inFlight then
      s1.(waiting := s.waiting + [key], started := s.started + multiset{key})
    else
      match s.core.inFlight[key]
      case None => s1.(waiting := s.waiting + [key])
      case Some(allowed) => s1.(answers := s.answers + [Answer(key, allowed, s.now, FromLookup)])
  }

  function OnLookupDone(s: State, key: Bytes, o: Outcome): State {
    s.(core := s.core.Finish(key, o, s.now),
       waiting := Without(s.waiting, key),
       completed := s.completed + [Completion(key, o, s.now)],
       answers := s.answers + AnswerWaiting(s.waiting, key, Verdict(o), s.now))
  }

  function Step(s: State, e: Event): State {
    match e
    case Tick(ms) => s.(now := s.now + ms)
    case Call(key) => OnCall(s, key)
    case LookupDone(key, o) => if Pending(s, key) then OnLookupDone(s, key, o) else s
    case Cleanup(key) =>
      if key in s.core.inFlight && s.core.inFlight[key].Some? then s.(core := s.core.Forget(key)) else s
  }

  function Run(s: State, es: seq<Event>): State {
    if es == [] then s else Step(Run(s, Front(es)), Last(es))
  }

  // ---------------------------------------------------------------------------
  // The invariant
  // ---------------------------------------------------------------------------

  /** Some lookup of this key resolved to this value at time t. */
  ghost predicate ResolvedAt(completed: seq<Completion>, key: Bytes, allowed: bool, t: int) {
    Completion(key, Resolved(allowed), t) in completed
  }

  /** Some lookup of this key ended, resolved or failed, with this verdict, no later than `at`. */
  ghost predicate Concluded(completed: seq<Completion>, key: Bytes, allowed: bool, at: int) {
    exists d <- completed :: d.key == key && Verdict(d.outcome) == allowed && d.at <= at
  }

  ghost predicate EntryBacked(s: State, key: Bytes, entry: Entry<bool>) {
    if entry.value then
      entry.expiresAt.None? && exists t :: t <= s.now && ResolvedAt(s.completed, key, true, t)
    else
      entry.expiresAt.Some? && entry.expiresAt.value - s.core.negativeTtlMs <= s.now
        && ResolvedAt(s.completed, key, false, entry.expiresAt.value - s.core.negativeTtlMs)
  }

  /** Where an answer rests: a cached denial on a resolved lookup less than the negative TTL ago. */
  ghost predicate AnswerBacked(s: State, a: Answer) {
    && a.at <= s.now
    && match a.source {
         case FromCache =>
           exists t :: t <= a.at && ResolvedAt(s.completed, a.key, a.allowed, t) && (!a.allowed ==> a.at < t + s.core.negativeTtlMs)
         case FromLookup => Concluded(s.completed, a.key, a.allowed, a.at)
       }
  }

  /** Lookups of `key` started and not yet completed: one if its promise is pending, else none. */
  ghost predicate OneInFlight(s: State) {
    forall key :: s.started[key] == Completions(s.completed, key) + (if Pending(s, key) then 1 else 0)
  }

  function Completions(completed: seq<Completion>, key: Bytes): nat {
    if completed == [] then 0
    else Completions(Front(completed), key) + (if Last(completed).key == key then 1 else 0)
  }

  ghost predicate Inv(s: State) {
    && s.core.cache.Valid()
    && (forall k <- s.core.cache.entries :: EntryBacked(s, k, s.core.cache.entries[k]))
    && (forall k <- s.core.inFlight :: s.core.inFlight[k].Some? ==> Concluded(s.completed, k, s.core.inFlight[k].value, s.now))
    && (forall a <- s.answers :: AnswerBacked(s, a))
    && OneInFlight(s)
    && (forall k <- s.waiting :: Pending(s, k))
  }

  lemma BackingIsKept(s: State, s1: State)
    requires s.completed <= s1.completed && s.now <= s1.now && s1.core.negativeTtlMs == s.core.negativeTtlMs
    ensures forall k, e :: EntryBacked(s, k, e) ==> EntryBacked(s1, k, e)
    ensures forall a :: AnswerBacked(s, a) ==> AnswerBacked(s1, a)
    ensures forall k, v :: Concluded(s.completed, k, v, s.now) ==> Concluded(s1.completed, k, v, s1.now)
  {
    forall k, e | EntryBacked(s, k, e) ensures EntryBacked(s1, k, e) {
      if e.value {
        var t :| t <= s.now && ResolvedAt(s.completed, k, true, t);
        assert ResolvedAt(s1.completed, k, true, t);
      }
    }
    forall a | AnswerBacked(s, a) ensures AnswerBacked(s1, a) {
      if a.source.FromCache? {
        var t :| t <= a.at && ResolvedAt(s.completed, a.key, a.allowed, t) && (!a.allowed ==> a.at < t + s.core.negativeTtlMs);
        assert ResolvedAt(s1.completed, a.key, a.allowed, t);
      } else {
        var d :| d in s.completed && d.key == a.key && Verdict(d.outcome) == a.allowed && d.at <= a.at;
        assert d in s1.completed;
      }
    }
  }

  lemma GetKeepsEntries(c: Cache<Bytes, bool>, key: Bytes, now: int)
    requires c.Valid()
    ensures c.Get(key, now).Valid()
    ensures forall k <- c.Get(key, now).entries :: k in c.entries && c.Get(key, now).entries[k] == c.entries[k]
  {
    ApplyKeepsValid(c, GetOp(key, now));
  }

  lemma SetKeepsEntries(c: Cache<Bytes, bool>, key: Bytes, value: bool, ttlMs: Option<int>, now: int)
    requires c.Valid()
    ensures c.Set(key, value, ttlMs, now).Valid()
    ensures forall k <- c.Set(key, value, ttlMs, now).entries ::
              var e := c.Set(key, value, ttlMs, now).entries[k];
              if k == key then e == Entry(value, if ttlMs.None? then None else Some(now + ttlMs.value))
              else k in c.entries && e == c.entries[k]
  {
    ApplyKeepsValid(c, SetOp(key, value, ttlMs, now));
  }

  lemma TickKeeps(s: State, ms: nat)
    requires Inv(s)
    ensures Inv(s.(now := s.now + ms))
  {
    BackingIsKept(s, s.(now := s.now + ms));
  }

  lemma CallAnswersAreBacked(s: State, key: Bytes)
    requires Inv(s)
    ensures forall a <- OnCall(s, key).answers :: AnswerBacked(OnCall(s, key), a)
  {
    var s1 := OnCall(s, key);
    BackingIsKept(s, s1);
    forall a <- s1.answers ensures AnswerBacked(s1, a) {
      if a !in s.answers {
        if s.core.cache.Live(key, s.now) {
          HitIsBacked(s, key);
          assert AnswerBacked(s, a);
        } else {
          assert Concluded(s.completed, key, a.allowed, s.now);
        }
      }
    }
  }

  lemma CallCacheIsBacked(s: State, key: Bytes)
    requires Inv(s)
    ensures var s1 := OnCall(s, key);
      s1.core.cache.Valid() && forall k <- s1.core.cache.entries :: EntryBacked(s1, k, s1.core.cache.entries[k])
  {
    BackingIsKept(s, OnCall(s, key));
    GetKeepsEntries(s.core.cache, key, s.now);
  }

  lemma CallFlights(s: State, key: Bytes)
    requires Inv(s)
    ensures var s1 := OnCall(s, key);
      && (forall k <- s1.core.inFlight :: s1.core.inFlight[k].Some? ==> Concluded(s1.completed, k, s1.core.inFlight[k].value, s1.now))
      && OneInFlight(s1)
      && (forall k <- s1.waiting :: Pending(s1, k))
  {
    hide Cache.Get, Concluded, EntryBacked, AnswerBacked, Cache.Valid;
  }

  lemma CallKeeps(s: State, key: Bytes)
    requires Inv(s)
    ensures Inv(OnCall(s, key))
  {
    CallAnswersAreBacked(s, key);
    CallCacheIsBacked(s, key);
    CallFlights(s, key);
    hide AnswerBacked, EntryBacked, Concluded, OneInFlight, OnCall, Pending;
  }

  lemma HitIsBacked(s: State, key: Bytes)
    requires Inv(s) && s.core.cache.Live(key, s.now)
    ensures AnswerBacked(s, Answer(key, s.core.cache.entries[key].value, s.now, FromCache))
  {
    var e := s.core.cache.entries[key];
    assert EntryBacked(s, key, e);
    if !e.value {
      assert ResolvedAt(s.completed, key, false, e.expiresAt.value - s.core.negativeTtlMs);
    }
  }

  lemma {:induction false} AnsweredWaiters(waiting: seq<Bytes>, key: Bytes, allowed: bool, at: int)
    ensures forall a <- AnswerWaiting(waiting, key, allowed, at) :: a == Answer(key, allowed, at, FromLookup)
  {
    if waiting != [] {
      AnsweredWaiters(Front(waiting), key, allowed, at);
    }
  }

  lemma CompletionCounts(s: State, key: Bytes, o: Outcome)
    requires OneInFlight(s) && Pending(s, key)
    ensures OneInFlight(OnLookupDone(s, key, o))
  {
    hide Cache.Set, AnswerWaiting, Without;
    var s1 := OnLookupDone(s, key, o);
    forall k ensures Completions(s1.completed, k) == Completions(s.completed, k) + (if k == key then 1 else 0) {
      assert Front(s1.completed) == s.completed;
    }
  }

  lemma SettledPromises(s: State, key: Bytes, o: Outcome)
    requires Inv(s) && Pending(s, key)
    ensures var s1 := OnLookupDone(s, key, o);
      && (forall k <- s1.core.inFlight :: s1.core.inFlight[k].Some? ==> Concluded(s1.completed, k, s1.core.inFlight[k].value, s1.now))
      && (forall a <- s1.answers :: AnswerBacked(s1, a))
  {
    var s1 := OnLookupDone(s, key, o);
    assert Completion(key, o, s.now) in s1.completed;
    BackingIsKept(s, s1);
    AnsweredWaiters(s.waiting, key, Verdict(o), s.now);
    assert Concluded(s1.completed, key, Verdict(o), s.now);
    hide Concluded;
    forall a <- s1.answers ensures AnswerBacked(s1, a) {
      if a in s.answers {
        assert AnswerBacked(s, a);
      }
    }
  }

  lemma LookupDoneKeeps(s: State, key: Bytes, o: Outcome)
    requires Inv(s) && Pending(s, key)
    ensures Inv(OnLookupDone(s, key, o))
  {
    CompletionCounts(s, key, o);
    SettledPromises(s, key, o);
    FinishStoresBacked(s, key, o);
    WithoutAll(s.waiting, key);
    hide AnswerBacked, EntryBacked, Concluded, OneInFlight;
  }

  lemma {:induction false} WithoutAll(waiting: seq<Bytes>, key: Bytes)
    ensures forall k <- Without(waiting, key) :: k in waiting && k != key
  {
    if waiting != [] {
      WithoutAll(waiting[1..], key);
    }
  }

  lemma StoredNowIsBacked(s: State, key: Bytes, o: Outcome)
    requires o.Resolved?
    ensures EntryBacked(OnLookupDone(s, key, o), key,
      Entry(o.allowed, if o.allowed then None else Some(s.now + s.core.negativeTtlMs)))
  {
    var s1 := OnLookupDone(s, key, o);
    assert Completion(key, o, s.now) in s1.completed;
    assert ResolvedAt(s1.completed, key, o.allowed, s.now);
    hide Cache.Set, AnswerWaiting, Without;
  }

  lemma FinishStoresBacked(s: State, key: Bytes, o: Outcome)
    requires Inv(s)
    ensures var s1 := OnLookupDone(s, key, o);
      s1.core.cache.Valid() && forall k <- s1.core.cache.entries :: EntryBacked(s1, k, s1.core.cache.entries[k])
  {
    hide Cache.Set, Cache.Valid, EntryBacked, AnswerBacked, Concluded, OneInFlight, AnswerWaiting, Without;
    var s1 := OnLookupDone(s, key, o);
    BackingIsKept(s, s1);
    if o.Resolved? {
      SetKeepsEntries(s.core.cache, key, o.allowed, if o.allowed then None else Some(s.core.negativeTtlMs), s.now);
      StoredNowIsBacked(s, key, o);
    }
    forall k <- s1.core.cache.entries ensures EntryBacked(s1, k, s1.core.cache.entries[k]) {
      if k in s.core.cache.entries {
        assert EntryBacked(s, k, s.core.cache.entries[k]);
      }
    }
  }

  lemma StepKeeps(s: State, e: Event)
    requires Inv(s)
    ensures Inv(Step(s, e))
  {
    match e
    case Tick(ms) => TickKeeps(s, ms);
    case Call(key) => CallKeeps(s, key);
    case LookupDone(key, o) => if Pending(s, key) { LookupDoneKeeps(s, key, o); }
    case Cleanup(key) => BackingIsKept(s, Step(s, e));
  }

  lemma {:induction false} RunKeeps(cacheMaxSize: nat, negativeTtlMs: nat, now: int, es: seq<Event>)
    requires 0 < cacheMaxSize
    ensures Inv(Run(Init(cacheMaxSize, negativeTtlMs, now), es))
  {
    if es != [] {
      RunKeeps(cacheMaxSize, negativeTtlMs, now, Front(es));
      StepKeeps(Run(Init(cacheMaxSize, negativeTtlMs, now), Front(es)), Last(es));
    }
  }

  // ---------------------------------------------------------------------------
  // Main results
  // ---------------------------------------------------------------------------

  /**
   * On a chain that may change or fail between calls: a grant always comes from a
   * lookup that resolved to a grant; a denial from the cache from one that resolved
   * to a denial less than the negative TTL before; and failures are never stored.
   */
  lemma AnswersAreBacked(cacheMaxSize: nat, negativeTtlMs: nat, now: int, es: seq<Event>, a: Answer)
    requires 0 < cacheMaxSize
    requires a in Run(Init(cacheMaxSize, negativeTtlMs, now), es).answers
    ensures var completed := Run(Init(cacheMaxSize, negativeTtlMs, now), es).completed;
      && (a.allowed ==> exists t :: t <= a.at && ResolvedAt(completed, a.key, true, t))
      && (!a.allowed && a.source.FromCache? ==> exists t :: t <= a.at < t + negativeTtlMs && ResolvedAt(completed, a.key, false, t))
  {
    RunKeeps(cacheMaxSize, negativeTtlMs, now, es);
    TtlIsFixed(cacheMaxSize, negativeTtlMs, now, es);
    var s := Run(Init(cacheMaxSize, negativeTtlMs, now), es);
    assert AnswerBacked(s, a);
    if a.source.FromLookup? && a.allowed {
      var d :| d in s.completed && d.key == a.key && Verdict(d.outcome) && d.at <= a.at;
      assert ResolvedAt(s.completed, a.key, true, d.at);
    } else if a.source.FromCache? && !a.allowed {
      var t :| t <= a.at && ResolvedAt(s.completed, a.key, a.allowed, t) && (!a.allowed ==> a.at < t + s.core.negativeTtlMs);
      assert t <= a.at < t + negativeTtlMs;
    }
  }

  lemma {:induction false} TtlIsFixed(cacheMaxSize: nat, negativeTtlMs: nat, now: int, es: seq<Event>)
    ensures Run(Init(cacheMaxSize, negativeTtlMs, now), es).core.negativeTtlMs == negativeTtlMs
  {
    if es != [] {
      TtlIsFixed(cacheMaxSize, negativeTtlMs, now, Front(es));
    }
  }

  /** Only resolved lookups are stored: a stored verdict is that of a lookup that resolved to it. */
  lemma FailuresAreNeverStored(cacheMaxSize: nat, negativeTtlMs: nat, now: int, es: seq<Event>, key: Bytes)
    requires 0 < cacheMaxSize
    requires key in Run(Init(cacheMaxSize, negativeTtlMs, now), es).core.cache.entries
    ensures var s := Run(Init(cacheMaxSize, negativeTtlMs, now), es);
      exists t :: ResolvedAt(s.completed, key, s.core.cache.entries[key].value, t)
  {
    RunKeeps(cacheMaxSize, negativeTtlMs, now, es);
    var s := Run(Init(cacheMaxSize, negativeTtlMs, now), es);
    assert EntryBacked(s, key, s.core.cache.entries[key]);
  }

  /** Each key has at most one lookup started and not completed, whatever calls come meanwhile. */
  lemma OneLookupPerKey(cacheMaxSize: nat, negativeTtlMs: nat, now: int, es: seq<Event>, key: Bytes)
    requires 0 < cacheMaxSize
    ensures var s := Run(Init(cacheMaxSize, negativeTtlMs, now), es);
      Completions(s.completed, key) <= s.started[key] <= Completions(s.completed, key) + 1
  {
    RunKeeps(cacheMaxSize, negativeTtlMs, now, es);
  }

  // ---------------------------------------------------------------------------
  // A resolved verdict is served again
  // ---------------------------------------------------------------------------

  /** The keys other than `key` that were called or looked up. */
  function OtherKeys(es: seq<Event>, key: Bytes): set<Bytes> {
    if es == [] then {}
    else OtherKeys(Front(es), key) + (if (Last(es).Call? || Last(es).LookupDone?) && Last(es).key != key then {Last(es).key} else {})
  }

  /** The verdict of time `t` is stored for good if it granted, else for the negative TTL, with no lookup of its key pending. */
  ghost predicate Remembers(s: State, key: Bytes, allowed: bool, t: int, newer: set<Bytes>) {
    && Kept(s.core.cache, key, Entry(allowed, if allowed then None else Some(t + s.core.negativeTtlMs)), newer)
    && !Pending(s, key)
  }

  lemma KeptMonotone(c: Cache<Bytes, bool>, key: Bytes, entry: Entry<bool>, newer: set<Bytes>, more: set<Bytes>)
    requires Kept(c, key, entry, newer) && newer <= more
    ensures Kept(c, key, entry, more)
  {
  }

  lemma OtherOpRemembers(c: Cache<Bytes, bool>, op: Op<Bytes, bool>, key: Bytes, entry: Entry<bool>, newer: set<Bytes>)
    requires Kept(c, key, entry, newer) && op.key != key && |newer + {op.key}| < c.maxSize
    ensures Kept(Apply(c, op), key, entry, newer + {op.key}) && Apply(c, op).maxSize == c.maxSize
  {
    var touched := newer + (if Touching(c, op) then {op.key} else {});
    SubsetSize(touched, newer + {op.key});
    ApplyKeepsValid(c, op);
    ApplyKeeps(c, op, key, entry, newer);
    KeptMonotone(Apply(c, op), key, entry, touched, newer + {op.key});
  }

  lemma HitRemembers(c: Cache<Bytes, bool>, key: Bytes, entry: Entry<bool>, newer: set<Bytes>, now: int)
    requires Kept(c, key, entry, newer) && (entry.expiresAt.None? || now < entry.expiresAt.value)
    ensures Kept(c.Get(key, now), key, entry, newer) && c.Get(key, now).maxSize == c.maxSize
    ensures c.Lookup(key, now) == Some(entry.value)
  {
    ApplyKeepsValid(c, GetOp(key, now));
    TouchMovesLast(c, GetOp(key, now));
    NewerOfLast(c.Get(key, now).order);
  }

  lemma CallRemembers(s: State, k: Bytes, key: Bytes, allowed: bool, t: int, newer: set<Bytes>)
    requires Remembers(s, key, allowed, t, newer) && (allowed || s.now < t + s.core.negativeTtlMs)
    requires k != key ==> |newer + {k}| < s.core.cache.maxSize
    ensures Remembers(OnCall(s, k), key, allowed, t, if k == key then newer else newer + {k})
    ensures OnCall(s, k).core.negativeTtlMs == s.core.negativeTtlMs && OnCall(s, k).core.cache.maxSize == s.core.cache.maxSize
  {
    hide Kept, Cache.Get, Cache.Lookup;
    var entry := Entry(allowed, if allowed then None else Some(t + s.core.negativeTtlMs));
    if k == key {
      HitRemembers(s.core.cache, key, entry, newer, s.now);
    } else {
      OtherOpRemembers(s.core.cache, GetOp(k, s.now), key, entry, newer);
      assert Apply(s.core.cache, GetOp(k, s.now)) == s.core.cache.Get(k, s.now);
    }
  }

  lemma LookupRemembers(s: State, k: Bytes, o: Outcome, key: Bytes, allowed: bool, t: int, newer: set<Bytes>)
    requires Remembers(s, key, allowed, t, newer) && k != key && |newer + {k}| < s.core.cache.maxSize
    ensures var s1 := OnLookupDone(s, k, o);
      Remembers(s1, key, allowed, t, newer + {k}) && s1.core.negativeTtlMs == s.core.negativeTtlMs && s1.core.cache.maxSize == s.core.cache.maxSize
  {
    hide Kept, Cache.Set, AnswerWaiting, Without;
    var entry := Entry(allowed, if allowed then None else Some(t + s.core.negativeTtlMs));
    KeptMonotone(s.core.cache, key, entry, newer, newer + {k});
    if o.Resolved? {
      var op := SetOp(k, o.allowed, if o.allowed then None else Some(s.core.negativeTtlMs), s.now);
      OtherOpRemembers(s.core.cache, op, key, entry, newer);
      assert Apply(s.core.cache, op) == s.core.cache.Set(k, op.value, op.ttlMs, s.now);
    }
  }

  lemma MoreRemembers(s: State, key: Bytes, allowed: bool, t: int, newer: set<Bytes>, more: set<Bytes>)
    requires Remembers(s, key, allowed, t, newer) && newer <= more
    ensures Remembers(s, key, allowed, t, more)
  {
    KeptMonotone(s.core.cache, key, Entry(allowed, if allowed then None else Some(t + s.core.negativeTtlMs)), newer, more);
    hide Kept;
  }

  lemma OtherKeyOf(e: Event, key: Bytes)
    ensures OtherKeys([e], key) == if (e.Call? || e.LookupDone?) && e.key != key then {e.key} else {}
  {
    assert Front([e]) == [] && OtherKeys([], key) == {};
  }

  lemma StepRemembers(s: State, e: Event, key: Bytes, allowed: bool, t: int, newer: set<Bytes>)
    requires Remembers(s, key, allowed, t, newer) && (allowed || s.now < t + s.core.negativeTtlMs)
    requires |newer + OtherKeys([e], key)| < s.core.cache.maxSize
    ensures Remembers(Step(s, e), key, allowed, t, newer + OtherKeys([e], key))
    ensures Step(s, e).core.negativeTtlMs == s.core.negativeTtlMs && Step(s, e).core.cache.maxSize == s.core.cache.maxSize
  {
    OtherKeyOf(e, key);
    MoreRemembers(s, key, allowed, t, newer, newer + OtherKeys([e], key));
    assert newer + {} == newer;
    match e
    case Call(k) => CallRemembers(s, k, key, allowed, t, newer); hide OnCall, Remembers;
    case LookupDone(k, o) =>
      if k != key {
        LookupRemembers(s, k, o, key, allowed, t, newer);
      } else {
        assert !Pending(s, key);
      }
      hide OnLookupDone, Remembers, Pending;
    case Tick(_) => hide Kept;
    case Cleanup(_) => hide Kept;
  }

  lemma ServedFromCache(s: State, key: Bytes, allowed: bool, t: int, newer: set<Bytes>)
    requires Remembers(s, key, allowed, t, newer) && (allowed || s.now < t + s.core.negativeTtlMs)
    ensures var s1 := Step(s, Call(key));
      && s1.answers == s.answers + [Answer(key, allowed, s.now, FromCache)]
      && s1.started == s.started && s1.waiting == s.waiting && s1.core.inFlight == s.core.inFlight
  {
    HitRemembers(s.core.cache, key, Entry(allowed, if allowed then None else Some(t + s.core.negativeTtlMs)), newer, s.now);
    hide Kept, Cache.Get, Cache.Lookup;
  }

  lemma {:induction false} RunRemembers(s: State, es: seq<Event>, key: Bytes, allowed: bool, t: int)
    requires Remembers(s, key, allowed, t, {}) && |OtherKeys(es, key)| < s.core.cache.maxSize
    requires allowed || Run(s, es).now < t + s.core.negativeTtlMs
    ensures Remembers(Run(s, es), key, allowed, t, OtherKeys(es, key))
    ensures Run(s, es).core.negativeTtlMs == s.core.negativeTtlMs && Run(s, es).core.cache.maxSize == s.core.cache.maxSize
  {
    if es != [] {
      var before := OtherKeys(Front(es), key);
      assert OtherKeys(es, key) == before + OtherKeys([Last(es)], key) by {
        assert Front([Last(es)]) == [] && OtherKeys([], key) == {};
      }
      SubsetSize(before, OtherKeys(es, key));
      TimeGoesOn(Run(s, Front(es)), Last(es));
      hide Remembers, Step, OtherKeys;
      RunRemembers(s, Front(es), key, allowed, t);
      StepRemembers(Run(s, Front(es)), Last(es), key, allowed, t, before);
    }
  }

  lemma TimeGoesOn(s: State, e: Event)
    ensures s.now <= Step(s, e).now
  {
  }

  lemma VerdictIsRemembered(s: State, key: Bytes, allowed: bool)
    requires s.core.cache.Valid() && Pending(s, key)
    ensures var s1 := Step(s, LookupDone(key, Resolved(allowed)));
      Remembers(s1, key, allowed, s.now, {}) && s1.core.cache.maxSize == s.core.cache.maxSize && s1.core.negativeTtlMs == s.core.negativeTtlMs
  {
    var ttl := if allowed then None else Some(s.core.negativeTtlMs);
    var c1 := s.core.cache.Set(key, allowed, ttl, s.now);
    ApplyKeepsValid(s.core.cache, SetOp(key, allowed, ttl, s.now));
    TouchMovesLast(s.core.cache, SetOp(key, allowed, ttl, s.now));
    SetStores(s.core.cache, key, allowed, ttl, s.now);
    NewerOfLast(c1.order);
    hide Cache.Set, AnswerWaiting, Without;
  }

  /**
   * Over every run: once a lookup has resolved, its verdict answers the next call of its key from the
   * cache, and no lookup is started, if it granted or is younger than the negative TTL, and if fewer
   * other keys than the cache holds were called or looked up meanwhile.
   */
  lemma ResolvedVerdictIsServed(
      cacheMaxSize: nat, negativeTtlMs: nat, now: int, es: seq<Event>, key: Bytes, allowed: bool, more: seq<Event>)
    requires 0 < cacheMaxSize && Pending(Run(Init(cacheMaxSize, negativeTtlMs, now), es), key)
    requires |OtherKeys(more, key)| < cacheMaxSize
    requires var s := Run(Init(cacheMaxSize, negativeTtlMs, now), es);
      allowed || Run(Step(s, LookupDone(key, Resolved(allowed))), more).now < s.now + negativeTtlMs
    ensures var s := Run(Init(cacheMaxSize, negativeTtlMs, now), es);
      var s1 := Run(Step(s, LookupDone(key, Resolved(allowed))), more);
      var s2 := Step(s1, Call(key));
      && s2.answers == s1.answers + [Answer(key, allowed, s1.now, FromCache)]
      && s2.started == s1.started && s2.waiting == s1.waiting && s2.core.inFlight == s1.core.inFlight
  {
    RunKeeps(cacheMaxSize, negativeTtlMs, now, es);
    TtlIsFixed(cacheMaxSize, negativeTtlMs, now, es);
    SizeIsFixed(cacheMaxSize, negativeTtlMs, now, es);
    var s := Run(Init(cacheMaxSize, negativeTtlMs, now), es);
    VerdictIsRemembered(s, key, allowed);
    var s0 := Step(s, LookupDone(key, Resolved(allowed)));
    RunRemembers(s0, more, key, allowed, s.now);
    hide Run, Step, Remembers, OtherKeys;
    ServedFromCache(Run(s0, more), key, allowed, s.now, OtherKeys(more, key));
  }

  lemma {:induction false} SizeIsFixed(cacheMaxSize: nat, negativeTtlMs: nat, now: int, es: seq<Event>)
    ensures Run(Init(cacheMaxSize, negativeTtlMs, now), es).core.cache.maxSize == cacheMaxSize
  {
    if es != [] {
      SizeIsFixed(cacheMaxSize, negativeTtlMs, now, Front(es));
    }
  }

  function Calls(es: seq<Event>, key: Bytes): nat {
    if es == [] then 0 else Calls(Front(es), key) + (if Last(es) == Call(key) then 1 else 0)
  }

  function Answers(answers: seq<Answer>, key: Bytes): nat {
    if answers == [] then 0 else Answers(Front(answers), key) + (if Last(answers).key == key then 1 else 0)
  }

  function Waiters(waiting: seq<Bytes>, key: Bytes): nat {
    if waiting == [] then 0 else Waiters(Front(waiting), key) + (if Last(waiting) == key then 1 else 0)
  }

  lemma {:induction false} AnswersConcat(a: seq<Answer>, b: seq<Answer>, key: Bytes)
    ensures Answers(a + b, key) == Answers(a, key) + Answers(b, key)
  {
    if b == [] {
      assert a + b == a;
    } else {
      AnswersConcat(a, Front(b), key);
      assert Front(a + b) == a + Front(b);
    }
  }

  lemma OneMoreAnswer(answers: seq<Answer>, a: Answer, key: Bytes)
    ensures Answers(answers + [a], key) == Answers(answers, key) + (if a.key == key then 1 else 0)
  {
    assert Front(answers + [a]) == answers;
  }

  lemma OneMoreWaiter(waiting: seq<Bytes>, x: Bytes, key: Bytes)
    ensures Waiters(waiting + [x], key) == Waiters(waiting, key) + (if x == key then 1 else 0)
  {
    assert Front(waiting + [x]) == waiting;
  }

  lemma AnswersOneMore(waiting: seq<Bytes>, x: Bytes, done: Bytes, allowed: bool, at: int, key: Bytes)
    ensures Answers(AnswerWaiting(waiting + [x], done, allowed, at), key)
      == Answers(AnswerWaiting(waiting, done, allowed, at), key) + (if x == done == key then 1 else 0)
  {
    assert Front(waiting + [x]) == waiting;
    OneMoreAnswer(AnswerWaiting(waiting, done, allowed, at), Answer(done, allowed, at, FromLookup), key);
    hide Answers;
  }

  lemma WaitersOneMore(waiting: seq<Bytes>, x: Bytes, done: Bytes, key: Bytes)
    ensures Waiters(Without(waiting + [x], done), key)
      == Waiters(Without(waiting, done), key) + (if x != done && x == key then 1 else 0)
  {
    WithoutSnoc(waiting, x, done);
    assert Without(waiting, done) + [] == Without(waiting, done);
    OneMoreWaiter(Without(waiting, done), x, key);
    hide Waiters, Without;
  }

  /** A completed lookup answers all who wait for its key, and no one else. */
  lemma {:induction false} WaitersSplit(waiting: seq<Bytes>, done: Bytes, allowed: bool, at: int, key: Bytes)
    ensures Answers(AnswerWaiting(waiting, done, allowed, at), key) == if key == done then Waiters(waiting, key) else 0
    ensures Waiters(Without(waiting, done), key) == if key == done then 0 else Waiters(waiting, key)
  {
    if waiting != [] {
      hide Answers, AnswerWaiting, Without;
      assert waiting == Front(waiting) + [Last(waiting)];
      WaitersSplit(Front(waiting), done, allowed, at, key);
      AnswersOneMore(Front(waiting), Last(waiting), done, allowed, at, key);
      WaitersOneMore(Front(waiting), Last(waiting), done, key);
    }
  }

  lemma {:induction false} WithoutSnoc(keys: seq<Bytes>, x: Bytes, key: Bytes)
    ensures Without(keys + [x], key) == Without(keys, key) + (if x == key then [] else [x])
  {
    if keys == [] {
      assert keys + [x] == [x];
    } else {
      assert (keys + [x])[1..] == keys[1..] + [x];
      WithoutSnoc(keys[1..], x, key);
    }
  }

  /** For each key, its answers and its waiting callers number its calls. */
  ghost predicate Served(s: State, es: seq<Event>, key: Bytes) {
    Answers(s.answers, key) + Waiters(s.waiting, key) == Calls(es, key)
  }

  lemma CallIsServed(s: State, called: Bytes, key: Bytes)
    ensures var s1 := OnCall(s, called);
      Answers(s1.answers, key) + Waiters(s1.waiting, key) == Answers(s.answers, key) + Waiters(s.waiting, key) + (if called == key then 1 else 0)
  {
    OneMoreWaiter(s.waiting, called, key);
    var hit := s.core.cache.Lookup(called, s.now);
    if hit.Some? {
      OneMoreAnswer(s.answers, Answer(called, hit.value, s.now, FromCache), key);
    } else if called in s.core.inFlight && s.core.inFlight[called].Some? {
      OneMoreAnswer(s.answers, Answer(called, s.core.inFlight[called].value, s.now, FromLookup), key);
    }
    hide Answers, Waiters;
  }

  /** Every call is answered exactly once, or waits for a lookup of its key that is in flight. */
  lemma {:induction false} EveryCallIsAnsweredOnce(cacheMaxSize: nat, negativeTtlMs: nat, now: int, es: seq<Event>, key: Bytes)
    requires 0 < cacheMaxSize
    ensures var s := Run(Init(cacheMaxSize, negativeTtlMs, now), es);
      Served(s, es, key) && (Waiters(s.waiting, key) > 0 ==> Pending(s, key))
  {
    RunKeeps(cacheMaxSize, negativeTtlMs, now, es);
    WaitersAreMembers(Run(Init(cacheMaxSize, negativeTtlMs, now), es).waiting, key);
    if es != [] {
      EveryCallIsAnsweredOnce(cacheMaxSize, negativeTtlMs, now, Front(es), key);
      var s := Run(Init(cacheMaxSize, negativeTtlMs, now), Front(es));
      hide Inv;
      match Last(es)
      case Call(called) => CallIsServed(s, called, key); hide OnCall;
      case LookupDone(done, o) =>
        WaitersSplit(s.waiting, done, Verdict(o), s.now, key);
        AnswersConcat(s.answers, AnswerWaiting(s.waiting, done, Verdict(o), s.now), key);
      case _ =>
    }
  }

  lemma {:induction false} WaitersAreMembers(waiting: seq<Bytes>, key: Bytes)
    ensures Waiters(waiting, key) > 0 <==> key in waiting
  {
    if waiting != [] {
      WaitersAreMembers(Front(waiting), key);
      assert waiting == Front(waiting) + [Last(waiting)];
    }
  }

  /** Every lookup walked the same chain, and none failed. */
  ghost predicate OnFixedChain(es: seq<Event>, chain: CpsWalk.Chain, root: CpsWalk.NodeId) {
    forall e <- es :: e.LookupDone? ==> e.outcome.Resolved? && (e.outcome.allowed <==> CpsWalk.Authorized(chain, root, e.key))
  }

  lemma {:induction false} CompletionsFollowTheChain(s: State, es: seq<Event>, chain: CpsWalk.Chain, root: CpsWalk.NodeId)
    requires s.completed == [] && OnFixedChain(es, chain, root)
    ensures forall d <- Run(s, es).completed :: d.outcome.Resolved? && (Verdict(d.outcome) <==> CpsWalk.Authorized(chain, root, d.key))
  {
    if es != [] {
      assert forall e <- Front(es) :: e in es;
      CompletionsFollowTheChain(s, Front(es), chain, root);
      assert Last(es) in es;
    }
  }

  /** On a fixed chain the cached, coalesced authenticator always agrees with the walk itself. */
  lemma AgreesWithTheWalk(cacheMaxSize: nat, negativeTtlMs: nat, now: int, es: seq<Event>, chain: CpsWalk.Chain, root: CpsWalk.NodeId)
    requires 0 < cacheMaxSize && OnFixedChain(es, chain, root)
    ensures forall a <- Run(Init(cacheMaxSize, negativeTtlMs, now), es).answers :: a.allowed <==> CpsWalk.Authorized(chain, root, a.key)
  {
    var s := Run(Init(cacheMaxSize, negativeTtlMs, now), es);
    RunKeeps(cacheMaxSize, negativeTtlMs, now, es);
    CompletionsFollowTheChain(Init(cacheMaxSize, negativeTtlMs, now), es, chain, root);
    forall a <- s.answers ensures a.allowed <==> CpsWalk.Authorized(chain, root, a.key) {
      assert AnswerBacked(s, a);
    }
  }

  // ---------------------------------------------------------------------------
  // The class
  // ---------------------------------------------------------------------------

  /** What a call does first: answer from the cache, join the pending promise, or start a lookup. */
  datatype CallStart = Hit(allowed: bool) | Joined(settled: Option<bool>) | LookupStarted

  class CpsAuth {
    const cache: LruCache<Bytes, bool>
    var inFlight: map<Bytes, Option<bool>>
    const negativeTtlMs: nat

    ghost predicate Valid()
      reads this, cache
    {
      cache.Valid()
    }

    ghost function View(): Core
      reads this, cache
    {
      Core(cache.View(), inFlight, negativeTtlMs)
    }

    constructor (cacheMaxSize: nat, negativeTtlSeconds: nat)
      requires 0 < cacheMaxSize
      ensures Valid() && fresh(cache)
      ensures View() == Core(LruCaching.Empty(cacheMaxSize), map[], negativeTtlSeconds * 1000)
    {
      cache := new LruCache(cacheMaxSize);
      inFlight := map[];
      negativeTtlMs := negativeTtlSeconds * 1000;
    }

    method Authenticate(key: Bytes, now: int) returns (r: CallStart)
      requires Valid()
      modifies this, cache
      ensures Valid() && View() == old(View()).Authenticate(key, now)
      ensures var hit := old(View()).cache.Lookup(key, now);
        r == if hit.Some? then Hit(hit.value)
             else if key in old(inFlight) then Joined(old(inFlight)[key])
             else LookupStarted
    {
      var cached := cache.Get(key, now);
      if cached.Some? {
        return Hit(cached.value);
      }
      if key in inFlight {
        return Joined(inFlight[key]);
      }
      inFlight := inFlight[key := None];
      return LookupStarted;
    }

    /** The tail of `lookup`, once the walk has ended or thrown. */
    method FinishLookup(key: Bytes, o: Outcome, now: int) returns (allowed: bool)
      requires Valid()
      modifies this, cache
      ensures Valid() && View() == old(View()).Finish(key, o, now) && allowed == Verdict(o)
    {
      allowed := false;
      if o.Resolved? {
        allowed := o.allowed;
        if allowed {
          cache.Set(key, true, None, now);
        } else {
          cache.Set(key, false, Some(negativeTtlMs), now);
        }
      }
      inFlight := inFlight[key := Some(allowed)];
    }

    /** The `finally` of the promise. */
    method Forget(key: Bytes)
      requires Valid()
      modifies this
      ensures Valid() && View() == old(View()).Forget(key)
    {
      inFlight := inFlight - {key};
    }
  }
}
