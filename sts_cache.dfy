/**
 * The TTL + LRU cache of assumed-role sessions behind get_session
 * (sts_assume_role.py): an ordered dictionary from
 * (target role, session name, intermediate role) to a session and its expiry,
 * oldest entry first.
 */
module StsCache {
  import opened Wrappers

  /** `_MAX_CACHE_SIZE` before any configure_cache call. */
  const DEFAULT_MAX_CACHE_SIZE: int := 128

  /** The cache key: (target_role_arn, session_name, intermediate_role_arn). */
  datatype Key = Key(targetRoleArn: string, sessionName: string, intermediateRoleArn: Option<string>)

  /**
   * A boto3 Session: the default one boto3.Session() builds, or one built
   * from a set of temporary credentials, named by an opaque token.
   */
  datatype Session = DefaultSession | CredentialSession(token: nat)

  /** CachedSession: a session and the Unix time at which its credentials expire. */
  datatype CachedSession = CachedSession(session: Session, expiration: int)

  /** One call of _assume_role_session. */
  datatype AssumeRequest = AssumeRequest(base: Session, roleArn: string, sessionName: string, durationSeconds: int)

  /** What _assume_role_session did: returned a session with its expiry, or raised RuntimeError. */
  datatype AssumeReply = Assumed(session: Session, expiration: int) | AssumeFailed

  datatype StsError =
    | AssumeRoleError(roleArn: string)   // RuntimeError("Failed to assume role ...")
    | EmptyCacheEviction                 // KeyError from popitem on an empty cache (a negative size bound)

  /**
   * The outside world: time.time() as the value of its n-th reading, and
   * the STS call as a reply that may depend on every earlier request.
   */
  datatype StsEnv = StsEnv(clock: nat -> int, assumeRole: (seq<AssumeRequest>, AssumeRequest) -> AssumeReply)

  /**
   * The module state: the cache's keys from least to most recently used,
   * its entries, the size bound, and how much of the oracles has been used.
   */
  datatype CacheState = CacheState(
    order: seq<Key>,
    sessions: map<Key, CachedSession>,
    maxSize: int,
    clockReads: nat,
    requests: seq<AssumeRequest>)

  /** The state after a get_session call and what the call returned or raised. */
  datatype Outcome = Outcome(state: CacheState, result: Result<Session, StsError>)

  predicate Distinct<T(==)>(s: seq<T>)
  {
    forall i, j :: 0 <= i < j < |s| ==> s[i] != s[j]
  }

  /** The ordered dictionary is well formed: each key once, and the same keys in the order as in the map. */
  ghost predicate CacheValid(c: CacheState)
  {
    Distinct(c.order) && forall k :: k in c.sessions <==> k in c.order
  }

  /** An intermediate role that is used: present and not the empty string. */
  predicate Truthy(arn: Option<string>)
  {
    arn.Some? && arn.value != ""
  }

  /** The order with `key` taken out; nothing else moves. */
  function Without(order: seq<Key>, key: Key): (r: seq<Key>)
    ensures forall k :: k in r <==> k in order && k != key
    ensures Distinct(order) ==> Distinct(r)
    ensures key !in order ==> r == order
    ensures Distinct(order) && key in order ==> |r| == |order| - 1
  {
    if order == [] then []
    else if order[0] == key then Without(order[1..], key)
    else
      var rest := Without(order[1..], key);
      DistinctPrepend(order[0], rest);
      [order[0]] + rest
  }

  lemma DistinctPrepend<T>(x: T, s: seq<T>)
    ensures Distinct(s) && x !in s ==> Distinct([x] + s)
  {
    if Distinct(s) && x !in s {
      forall i, j | 0 <= i < j < |[x] + s| ensures ([x] + s)[i] != ([x] + s)[j] {
        if i > 0 {
          assert ([x] + s)[i] == s[i - 1];
        }
      }
    }
  }

  lemma DistinctAppend<T>(s: seq<T>, x: T)
    ensures Distinct(s) && x !in s ==> Distinct(s + [x])
  {
  }

  lemma {:induction false} WithoutAppended(order: seq<Key>, key: Key)
    ensures Without(order + [key], key) == Without(order, key)
    decreases |order|
  {
    if order == [] {
      assert [key][1..] == [];
    } else {
      assert (order + [key])[1..] == order[1..] + [key];
      WithoutAppended(order[1..], key);
    }
  }

  lemma {:induction false} WithoutTwice(order: seq<Key>, key: Key)
    ensures Without(Without(order, key), key) == Without(order, key)
    decreases |order|
  {
    if order != [] {
      WithoutTwice(order[1..], key);
      if order[0] != key {
        assert ([order[0]] + Without(order[1..], key))[1..] == Without(order[1..], key);
      }
    }
  }

  /**
   * move_to_end: `key` becomes the most recently used; the keys stay the same
   * and the others keep their relative order.
   */
  function MoveToEnd(order: seq<Key>, key: Key): (r: seq<Key>)
    requires key in order
    ensures |r| > 0 && r[|r| - 1] == key
    ensures forall k :: k in r <==> k in order
    ensures Distinct(order) ==> Distinct(r) && |r| == |order|
    ensures Without(r, key) == Without(order, key)
  {
    WithoutAppended(Without(order, key), key);
    WithoutTwice(order, key);
    Without(order, key) + [key]
  }

  /**
   * The keys the eviction loop (sts_assume_role.py:94-95) leaves:
   * the newest max_size keys, or none when the bound is zero or negative.
   */
  function KeepNewest(order: seq<Key>, maxSize: int): (r: seq<Key>)
    ensures |r| <= |order| && r == order[|order| - |r|..]
    ensures |order| <= maxSize ==> r == order
    ensures |order| > maxSize ==> |r| == (if maxSize < 0 then 0 else maxSize)
  {
    if |order| <= maxSize then order
    else if maxSize <= 0 then []
    else order[|order| - maxSize..]
  }

  /** The entries whose keys are kept. */
  function Restrict(sessions: map<Key, CachedSession>, keep: seq<Key>): (r: map<Key, CachedSession>)
    ensures forall k :: k in r <==> k in sessions && k in keep
    ensures forall k :: k in r ==> r[k] == sessions[k]
    ensures (forall k :: k in sessions ==> k in keep) ==> r == sessions
  {
    map k | k in sessions && k in keep :: sessions[k]
  }

  /** Removing a present key from the cache (sts_assume_role.py:70). */
  function Forget(c: CacheState, key: Key): (r: CacheState)
    requires CacheValid(c)
    ensures CacheValid(r)
    ensures key !in r.sessions && r.sessions == c.sessions - {key} && r.order == Without(c.order, key)
    ensures r.maxSize == c.maxSize && r.clockReads == c.clockReads && r.requests == c.requests
  {
    c.(order := Without(c.order, key), sessions := c.sessions - {key})
  }

  /**
   * Assigning an entry to a key (sts_assume_role.py:92): a new key goes to the most recently used end,
   * an existing key keeps its place and gets the new entry.
   */
  function Store(c: CacheState, key: Key, entry: CachedSession): (r: CacheState)
    requires CacheValid(c)
    ensures CacheValid(r)
    ensures r.sessions == c.sessions[key := entry]
    ensures key in c.sessions ==> r.order == c.order
    ensures key !in c.sessions ==> r.order == c.order + [key]
    ensures r.maxSize == c.maxSize && r.clockReads == c.clockReads && r.requests == c.requests
  {
    DistinctAppend(c.order, key);
    c.(order := if key in c.sessions then c.order else c.order + [key], sessions := c.sessions[key := entry])
  }

  lemma DistinctSuffix<T>(s: seq<T>, n: nat)
    requires n <= |s|
    ensures Distinct(s) ==> Distinct(s[n..])
  {
    if Distinct(s) {
      forall i, j | 0 <= i < j < |s[n..]| ensures s[n..][i] != s[n..][j] {
        assert s[n..][i] == s[n + i] && s[n..][j] == s[n + j];
      }
    }
  }

  /**
   * The LRU eviction loop (sts_assume_role.py:94-95), which pops the oldest
   * entry while the cache is over its bound: keys go only from the least recently used end,
   * and only as many as the bound needs; a bound of zero or less empties the cache.
   */
  function Evict(c: CacheState): (r: CacheState)
    requires CacheValid(c)
    ensures CacheValid(r)
    ensures r.maxSize == c.maxSize && r.clockReads == c.clockReads && r.requests == c.requests
    ensures c.maxSize >= 0 ==> |r.order| <= c.maxSize
    ensures c.maxSize < 0 ==> r.order == []
    ensures |r.order| <= |c.order| && r.order == c.order[|c.order| - |r.order|..]
    ensures |c.order| > c.maxSize >= 0 ==> |r.order| == c.maxSize
    ensures |c.order| <= c.maxSize ==> r == c
    ensures forall k :: k in r.sessions ==> k in c.sessions && r.sessions[k] == c.sessions[k]
  {
    var kept := KeepNewest(c.order, c.maxSize);
    DistinctSuffix(c.order, |c.order| - |kept|);
    assert forall k :: k in kept ==> k in c.order;
    c.(order := kept, sessions := Restrict(c.sessions, kept))
  }

  /**
   * The insert of get_session: store the new entry, then evict. With a
   * negative bound the loop has emptied the cache when popitem raises.
   */
  function InsertAndEvict(c: CacheState, key: Key, entry: CachedSession): (o: Outcome)
    requires CacheValid(c)
    ensures CacheValid(o.state)
    ensures o.state.maxSize == c.maxSize && o.state.clockReads == c.clockReads && o.state.requests == c.requests
    ensures o.result.Success? <==> c.maxSize >= 0
    ensures o.result.Success? ==> o.result.value == entry.session
    ensures o.result.Failure? ==> o.result.error == EmptyCacheEviction && o.state.order == [] && o.state.sessions == map[]
    ensures c.maxSize >= 0 ==> |o.state.order| <= c.maxSize
    ensures forall k :: k in o.state.sessions ==> k == key || (k in c.sessions && o.state.sessions[k] == c.sessions[k])
    ensures key !in c.sessions && c.maxSize >= 1 ==>
      key in o.state.sessions && o.state.sessions[key] == entry && o.state.order[|o.state.order| - 1] == key
    ensures key !in c.sessions ==>
      forall i :: 0 <= i < |c.order| && |c.order| + 1 - c.maxSize <= i ==> c.order[i] in o.state.sessions
  {
    var stored := Store(c, key, entry);
    var evicted := Evict(stored);
    InsertKeepsNewest(c, key, entry);
    InsertNewKeyLast(c, key, entry);
    if c.maxSize < 0 then Outcome(evicted, Failure(EmptyCacheEviction))
    else Outcome(evicted, Success(entry.session))
  }

  /**
   * Inserting a new key evicts only from the least recently used end: the
   * newest max_size - 1 keys that were there before the insert survive it.
   */
  lemma InsertKeepsNewest(c: CacheState, key: Key, entry: CachedSession)
    requires CacheValid(c)
    ensures key !in c.sessions ==>
      forall i :: 0 <= i < |c.order| && |c.order| + 1 - c.maxSize <= i ==> c.order[i] in Evict(Store(c, key, entry)).sessions
  {
    var stored := Store(c, key, entry);
    var evicted := Evict(stored);
    if key !in c.sessions {
      forall i | 0 <= i < |c.order| && |c.order| + 1 - c.maxSize <= i
        ensures c.order[i] in evicted.sessions
      {
        var n := |stored.order| - |evicted.order|;
        assert stored.order == c.order + [key];
        assert n <= i;
        assert evicted.order == stored.order[n..];
        assert evicted.order[i - n] == stored.order[i] == c.order[i];
        assert c.order[i] in evicted.order;
      }
    }
  }

  /** With room for at least one entry, a newly inserted key survives the eviction as the newest. */
  lemma InsertNewKeyLast(c: CacheState, key: Key, entry: CachedSession)
    requires CacheValid(c)
    ensures key !in c.sessions && c.maxSize >= 1 ==>
      var evicted := Evict(Store(c, key, entry));
      key in evicted.sessions && evicted.sessions[key] == entry && evicted.order[|evicted.order| - 1] == key
  {
    var stored := Store(c, key, entry);
    var evicted := Evict(stored);
    if key !in c.sessions && c.maxSize >= 1 {
      var n := |stored.order| - |evicted.order|;
      assert stored.order == c.order + [key];
      assert evicted.order == stored.order[n..];
      assert |evicted.order| >= 1;
      assert evicted.order[|evicted.order| - 1] == stored.order[|stored.order| - 1] == key;
      assert key in evicted.order;
    }
  }

  /** The call _assume_role_session(base, role_arn, session_name, duration_seconds) would make. */
  function Request(key: Key, base: Session, durationSeconds: int): AssumeRequest
  {
    AssumeRequest(base, key.targetRoleArn, key.sessionName, durationSeconds)
  }

  /**
   * Assuming the target role from `base` and caching the result under `key`;
   * a failed call raises RuntimeError and writes nothing.
   */
  function AssumeAndStore(env: StsEnv, c: CacheState, key: Key, base: Session, durationSeconds: int): (o: Outcome)
    requires CacheValid(c)
    ensures CacheValid(o.state)
    ensures o.state.maxSize == c.maxSize && o.state.clockReads == c.clockReads
    ensures o.state.requests == c.requests + [Request(key, base, durationSeconds)]
    ensures env.assumeRole(c.requests, Request(key, base, durationSeconds)).AssumeFailed? ==>
      o.result == Failure(AssumeRoleError(key.targetRoleArn)) && o.state.sessions == c.sessions && o.state.order == c.order
    ensures o.result.Success? ==>
      var reply := env.assumeRole(c.requests, Request(key, base, durationSeconds));
      reply.Assumed? && o.result.value == reply.session && c.maxSize >= 0
    ensures o.result.Success? ==> |o.state.order| <= c.maxSize
    ensures env.assumeRole(c.requests, Request(key, base, durationSeconds)).Assumed? && c.maxSize >= 0 ==>
      o.result == Success(env.assumeRole(c.requests, Request(key, base, durationSeconds)).session)
    ensures
      var reply := env.assumeRole(c.requests, Request(key, base, durationSeconds));
      reply.Assumed? && key !in c.sessions && c.maxSize >= 1 ==>
        && key in o.state.sessions && o.state.sessions[key] == CachedSession(reply.session, reply.expiration)
        && |o.state.order| > 0 && o.state.order[|o.state.order| - 1] == key
    ensures forall k :: k in o.state.sessions ==> k == key || (k in c.sessions && o.state.sessions[k] == c.sessions[k])
  {
    var request := Request(key, base, durationSeconds);
    var reply := env.assumeRole(c.requests, request);
    var called := c.(requests := c.requests + [request]);
    if reply.AssumeFailed? then Outcome(called, Failure(AssumeRoleError(key.targetRoleArn)))
    else InsertAndEvict(called, key, CachedSession(reply.session, reply.expiration))
  }

  /** The cached entry for `key` is still valid at time `now`: its expiry is strictly later. */
  predicate FreshHit(c: CacheState, key: Key, now: int)
  {
    key in c.sessions && c.sessions[key].expiration > now
  }

  /** The key under which the intermediate role's session is looked up and cached. */
  function IntermediateKey(intermediateRoleArn: Option<string>, sessionName: string): Key
    requires intermediateRoleArn.Some?
  {
    Key(intermediateRoleArn.value, sessionName, None)
  }

  /** The session handed on to the assume-role step when the caller passed none: boto3.Session(). */
  function BaseSession(base: Option<Session>): Session
  {
    if base.Some? then base.value else DefaultSession
  }

  /** The state after the lookup of `key`: the clock read, and an expired entry removed. */
  function Missed(c: CacheState, key: Key): (r: CacheState)
    requires CacheValid(c)
    ensures CacheValid(r) && key !in r.sessions
    ensures r.maxSize == c.maxSize && r.clockReads == c.clockReads + 1 && r.requests == c.requests
    ensures |r.order| <= |c.order|
    ensures r.order == Without(c.order, key) && r.sessions == c.sessions - {key}
    ensures forall k :: k in r.sessions ==> k in c.sessions && r.sessions[k] == c.sessions[k]
  {
    var read := c.(clockReads := c.clockReads + 1);
    if key in read.sessions then Forget(read, key) else read
  }

  /**
   * get_session(target_role_arn, session_name, intermediate_role_arn,
   * duration_seconds, session) on the cache state `c`: one clock reading,
   * then a fresh hit, or the removal of an expired entry, the optional
   * recursive lookup of the intermediate role, the assume-role call and the insert.
   */
  function GetSessionOutcome(env: StsEnv, c: CacheState, targetRoleArn: string, sessionName: string,
                             intermediateRoleArn: Option<string>, durationSeconds: int, base: Option<Session>): (o: Outcome)
    requires CacheValid(c)
    ensures CacheValid(o.state)
    ensures o.state.maxSize == c.maxSize
    decreases if Truthy(intermediateRoleArn) then 1 else 0
  {
    var key := Key(targetRoleArn, sessionName, intermediateRoleArn);
    var now := env.clock(c.clockReads);
    if FreshHit(c, key, now) then
      Outcome(c.(clockReads := c.clockReads + 1, order := MoveToEnd(c.order, key)), Success(c.sessions[key].session))
    else
      var missed := Missed(c, key);
      var session := BaseSession(base);
      if Truthy(intermediateRoleArn) then
        var via := GetSessionOutcome(env, missed, intermediateRoleArn.value, sessionName, None, durationSeconds, Some(session));
        if via.result.Failure? then via
        else AssumeAndStore(env, via.state, key, via.result.value, durationSeconds)
      else AssumeAndStore(env, missed, key, session, durationSeconds)
  }

  /** configure_cache only changes the bound: no entry is evicted until the next insert. */
  function Configure(c: CacheState, maxSize: int): (r: CacheState)
    ensures r.order == c.order && r.sessions == c.sessions && r.maxSize == maxSize
    ensures r.clockReads == c.clockReads && r.requests == c.requests
  {
    c.(maxSize := maxSize)
  }

  /** get_session called with the fields of `key` as its first three arguments. */
  function CallFor(env: StsEnv, c: CacheState, key: Key, durationSeconds: int, base: Option<Session>): Outcome
    requires CacheValid(c)
  {
    GetSessionOutcome(env, c, key.targetRoleArn, key.sessionName, key.intermediateRoleArn, durationSeconds, base)
  }

  /**
   * A fresh hit returns the cached session without calling assume-role,
   * leaves every entry as it was and makes the key the most recently used;
   * the other keys keep their relative order.
   */
  lemma FreshHitReturnsCached(env: StsEnv, c: CacheState, key: Key, durationSeconds: int, base: Option<Session>, o: Outcome)
    requires CacheValid(c) && o == CallFor(env, c, key, durationSeconds, base)
    requires FreshHit(c, key, env.clock(c.clockReads))
    ensures o.result == Success(c.sessions[key].session)
    ensures o.state.requests == c.requests && o.state.sessions == c.sessions
    ensures |o.state.order| == |c.order| && o.state.order[|o.state.order| - 1] == key
    ensures Without(o.state.order, key) == Without(c.order, key)
  {
  }

  /**
   * A missing or expired entry without an intermediate role: one call of
   * assume-role from the given session (or a default one), whose session is
   * returned and cached under the key as the most recently used entry.
   */
  lemma MissAssumesAndStores(env: StsEnv, c: CacheState, key: Key, durationSeconds: int, base: Option<Session>, o: Outcome)
    requires CacheValid(c) && c.maxSize >= 1 && o == CallFor(env, c, key, durationSeconds, base)
    requires !Truthy(key.intermediateRoleArn) && !FreshHit(c, key, env.clock(c.clockReads))
    requires env.assumeRole(c.requests, Request(key, BaseSession(base), durationSeconds)).Assumed?
    ensures o.result == Success(env.assumeRole(c.requests, Request(key, BaseSession(base), durationSeconds)).session)
    ensures o.state.requests == c.requests + [Request(key, BaseSession(base), durationSeconds)]
    ensures key in o.state.sessions
    ensures o.state.sessions[key] == CachedSession(o.result.value, env.assumeRole(c.requests, Request(key, BaseSession(base), durationSeconds)).expiration)
    ensures o.state.order[|o.state.order| - 1] == key && |o.state.order| <= c.maxSize
  {
    var missed := Missed(c, key);
    DirectOutcome(env, c, key, durationSeconds, base);
  }

  /**
   * A call adds no key but its own and, when it has one, its intermediate
   * role's; every other entry still there has its old value.
   */
  lemma {:induction false} OnlyOwnKeysAdded(env: StsEnv, c: CacheState, key: Key, durationSeconds: int, base: Option<Session>, o: Outcome)
    requires CacheValid(c) && o == CallFor(env, c, key, durationSeconds, base)
    ensures forall k :: k in o.state.sessions ==>
      || k == key
      || (Truthy(key.intermediateRoleArn) && k == IntermediateKey(key.intermediateRoleArn, key.sessionName))
      || (k in c.sessions && o.state.sessions[k] == c.sessions[k])
    decreases if Truthy(key.intermediateRoleArn) then 1 else 0
  {
    if !FreshHit(c, key, env.clock(c.clockReads)) && Truthy(key.intermediateRoleArn) {
      var ikey := IntermediateKey(key.intermediateRoleArn, key.sessionName);
      var via := CallFor(env, Missed(c, key), ikey, durationSeconds, Some(BaseSession(base)));
      OnlyOwnKeysAdded(env, Missed(c, key), ikey, durationSeconds, Some(BaseSession(base)), via);
    }
  }

  /**
   * A call that raises has stored nothing under its key: an expired entry
   * was removed before the failing step and nothing replaced it.
   */
  lemma FailureStoresNothing(env: StsEnv, c: CacheState, key: Key, durationSeconds: int, base: Option<Session>, o: Outcome)
    requires CacheValid(c) && o == CallFor(env, c, key, durationSeconds, base)
    ensures o.result.Failure? ==> key !in o.state.sessions
  {
    if FreshHit(c, key, env.clock(c.clockReads)) {
      HitOutcome(env, c, key, durationSeconds, base);
    } else if Truthy(key.intermediateRoleArn) {
      var ikey := IntermediateKey(key.intermediateRoleArn, key.sessionName);
      var via := CallFor(env, Missed(c, key), ikey, durationSeconds, Some(BaseSession(base)));
      ViaOutcome(env, c, key, durationSeconds, base);
      OnlyOwnKeysAdded(env, Missed(c, key), ikey, durationSeconds, Some(BaseSession(base)), via);
      assert key !in via.state.sessions;
      if via.result.Success? {
        AssumeFailureStoresNothing(env, via.state, key, via.result.value, durationSeconds);
      }
    } else {
      DirectOutcome(env, c, key, durationSeconds, base);
      AssumeFailureStoresNothing(env, Missed(c, key), key, BaseSession(base), durationSeconds);
    }
  }

  /** A failed assume-and-store of a key that is not cached leaves it uncached. */
  lemma AssumeFailureStoresNothing(env: StsEnv, c: CacheState, key: Key, base: Session, durationSeconds: int)
    requires CacheValid(c) && key !in c.sessions
    ensures AssumeAndStore(env, c, key, base, durationSeconds).result.Failure? ==>
      key !in AssumeAndStore(env, c, key, base, durationSeconds).state.sessions
  {
  }

  /**
   * With room for at least one entry, a call that returns a session leaves
   * its key cached as the most recently used entry.
   */
  lemma SuccessLeavesKeyNewest(env: StsEnv, c: CacheState, key: Key, durationSeconds: int, base: Option<Session>, o: Outcome)
    requires CacheValid(c) && c.maxSize >= 1 && o == CallFor(env, c, key, durationSeconds, base)
    ensures o.result.Success? ==> key in o.state.sessions
    ensures o.result.Success? ==> |o.state.order| > 0 && o.state.order[|o.state.order| - 1] == key
  {
    if !FreshHit(c, key, env.clock(c.clockReads)) {
      var missed := Missed(c, key);
      var session := BaseSession(base);
      if Truthy(key.intermediateRoleArn) {
        var ikey := IntermediateKey(key.intermediateRoleArn, key.sessionName);
        var via := CallFor(env, missed, ikey, durationSeconds, Some(session));
        OnlyOwnKeysAdded(env, missed, ikey, durationSeconds, Some(session), via);
        if via.result.Success? {
          assert key !in via.state.sessions;
          assert o == AssumeAndStore(env, via.state, key, via.result.value, durationSeconds);
        }
      } else {
        assert o == AssumeAndStore(env, missed, key, session, durationSeconds);
      }
    }
  }

  /**
   * Through an intermediate role: when the intermediate lookup returns a
   * session and assuming the target role from it succeeds, the call returns
   * the target role's session.
   */
  lemma IntermediateChainReturns(env: StsEnv, c: CacheState, key: Key, durationSeconds: int, base: Option<Session>)
    requires CacheValid(c) && c.maxSize >= 0
    requires Truthy(key.intermediateRoleArn) && !FreshHit(c, key, env.clock(c.clockReads))
    ensures
      var via := CallFor(env, Missed(c, key), IntermediateKey(key.intermediateRoleArn, key.sessionName), durationSeconds, Some(BaseSession(base)));
      via.result.Success? && env.assumeRole(via.state.requests, Request(key, via.result.value, durationSeconds)).Assumed? ==>
        CallFor(env, c, key, durationSeconds, base).result
          == Success(env.assumeRole(via.state.requests, Request(key, via.result.value, durationSeconds)).session)
  {
    ViaOutcome(env, c, key, durationSeconds, base);
  }

  /**
   * Through an intermediate role, with room for two entries: a call that
   * returns leaves both the intermediate role's key and the target key cached.
   */
  lemma IntermediateAndTargetCached(env: StsEnv, c: CacheState, key: Key, durationSeconds: int, base: Option<Session>, o: Outcome)
    requires CacheValid(c) && c.maxSize >= 2 && o == CallFor(env, c, key, durationSeconds, base)
    requires Truthy(key.intermediateRoleArn) && !FreshHit(c, key, env.clock(c.clockReads))
    ensures o.result.Success? ==> key in o.state.sessions
    ensures o.result.Success? ==> IntermediateKey(key.intermediateRoleArn, key.sessionName) in o.state.sessions
  {
    var ikey := IntermediateKey(key.intermediateRoleArn, key.sessionName);
    var missed := Missed(c, key);
    var session := BaseSession(base);
    var via := CallFor(env, missed, ikey, durationSeconds, Some(session));
    SuccessLeavesKeyNewest(env, c, key, durationSeconds, base, o);
    OnlyOwnKeysAdded(env, missed, ikey, durationSeconds, Some(session), via);
    SuccessLeavesKeyNewest(env, missed, ikey, durationSeconds, Some(session), via);
    if via.result.Success? {
      assert key !in via.state.sessions;
      assert o == AssumeAndStore(env, via.state, key, via.result.value, durationSeconds);
      PreviousNewestSurvives(env, via.state, key, via.result.value, durationSeconds);
    }
  }

  /** With room for two entries, the entry that was newest before the insert of a new key survives it. */
  lemma PreviousNewestSurvives(env: StsEnv, c: CacheState, key: Key, base: Session, durationSeconds: int)
    requires CacheValid(c) && c.maxSize >= 2 && key !in c.sessions && |c.order| > 0
    ensures
      var o := AssumeAndStore(env, c, key, base, durationSeconds);
      o.result.Success? ==> c.order[|c.order| - 1] in o.state.sessions
  {
    var request := Request(key, base, durationSeconds);
    var reply := env.assumeRole(c.requests, request);
    var called := c.(requests := c.requests + [request]);
    if reply.Assumed? {
      InsertKeepsNewest(called, key, CachedSession(reply.session, reply.expiration));
    }
  }

  /** A cache within its bound stays within it, whatever the call does. */
  lemma {:induction false} SizeBoundKept(env: StsEnv, c: CacheState, key: Key, durationSeconds: int, base: Option<Session>, o: Outcome)
    requires CacheValid(c) && 0 <= c.maxSize && |c.order| <= c.maxSize && o == CallFor(env, c, key, durationSeconds, base)
    ensures |o.state.order| <= c.maxSize
    ensures o.result != Failure(EmptyCacheEviction)
    decreases if Truthy(key.intermediateRoleArn) then 1 else 0
  {
    if FreshHit(c, key, env.clock(c.clockReads)) {
      HitOutcome(env, c, key, durationSeconds, base);
    } else if Truthy(key.intermediateRoleArn) {
      var ikey := IntermediateKey(key.intermediateRoleArn, key.sessionName);
      var via := CallFor(env, Missed(c, key), ikey, durationSeconds, Some(BaseSession(base)));
      ViaOutcome(env, c, key, durationSeconds, base);
      SizeBoundKept(env, Missed(c, key), ikey, durationSeconds, Some(BaseSession(base)), via);
    } else {
      DirectOutcome(env, c, key, durationSeconds, base);
    }
  }

  /**
   * configure_cache evicts nothing itself, but the next call that stores a
   * session trims the cache to the new bound, however far above it it was.
   */
  lemma ShrinkAppliesAtNextInsert(env: StsEnv, c: CacheState, maxSize: int, key: Key, durationSeconds: int,
                                  base: Option<Session>, o: Outcome)
    requires CacheValid(c) && 0 <= maxSize
    requires o == CallFor(env, Configure(c, maxSize), key, durationSeconds, base)
    requires !FreshHit(c, key, env.clock(c.clockReads))
    ensures o.result.Success? ==> |o.state.order| <= maxSize
  {
    var d := Configure(c, maxSize);
    assert CacheValid(d);
    if Truthy(key.intermediateRoleArn) {
      ViaOutcome(env, d, key, durationSeconds, base);
    } else {
      DirectOutcome(env, d, key, durationSeconds, base);
    }
  }

  /**
   * A key that is not cached and has no intermediate role: the call assumes
   * the role once, appends the key as the newest and evicts from the
   * oldest end down to the bound.
   */
  lemma UncachedKeyInserted(env: StsEnv, c: CacheState, key: Key, durationSeconds: int, base: Option<Session>, o: Outcome)
    requires CacheValid(c) && o == CallFor(env, c, key, durationSeconds, base)
    requires !Truthy(key.intermediateRoleArn) && key !in c.sessions
    requires env.assumeRole(c.requests, Request(key, BaseSession(base), durationSeconds)).Assumed?
    ensures o.state.order == KeepNewest(c.order + [key], c.maxSize)
    ensures
      var reply := env.assumeRole(c.requests, Request(key, BaseSession(base), durationSeconds));
      o.state.sessions == Restrict(c.sessions[key := CachedSession(reply.session, reply.expiration)], o.state.order)
    ensures o.state.requests == c.requests + [Request(key, BaseSession(base), durationSeconds)]
  {
    var missed := Missed(c, key);
    var request := Request(key, BaseSession(base), durationSeconds);
    var reply := env.assumeRole(c.requests, request);
    var called := missed.(requests := missed.requests + [request]);
    assert missed.order == c.order;
    assert o == InsertAndEvict(called, key, CachedSession(reply.session, reply.expiration));
  }

  /** The cache as the module defines it at import: empty, with the default bound. */
  function InitialCache(): (c: CacheState)
    ensures CacheValid(c)
  {
    CacheState([], map[], DEFAULT_MAX_CACHE_SIZE, 0, [])
  }

  /** The cache after get_session is called for each key in turn, with no session passed in. */
  function RunLookups(env: StsEnv, c: CacheState, keys: seq<Key>, durationSeconds: int): (r: CacheState)
    requires CacheValid(c)
    ensures CacheValid(r) && r.maxSize == c.maxSize
    decreases |keys|
  {
    if keys == [] then c
    else RunLookups(env, CallFor(env, c, keys[0], durationSeconds, None).state, keys[1..], durationSeconds)
  }

  /** Trimming to the newest entries before appending more gives the same result as trimming once after. */
  lemma KeepNewestAppend(s: seq<Key>, t: seq<Key>, maxSize: int)
    ensures KeepNewest(KeepNewest(s, maxSize) + t, maxSize) == KeepNewest(s + t, maxSize)
  {
    var k := KeepNewest(s, maxSize);
    if maxSize > 0 && |s + t| > maxSize && |k + t| > maxSize {
      var n := |k + t| - maxSize;
      var m := |s + t| - maxSize;
      assert k == s[|s| - |k|..];
      forall j | n <= j < |k + t| ensures (k + t)[j] == (s + t)[j - n + m] {
        if j < |k| {
          assert (k + t)[j] == s[|s| - |k| + j];
        }
      }
      assert (k + t)[n..] == (s + t)[m..];
    }
  }

  lemma AppendHead<T>(s: seq<T>, keys: seq<T>)
    requires keys != []
    ensures s + [keys[0]] + keys[1..] == s + keys
  {
    assert keys == [keys[0]] + keys[1..];
  }

  /**
   * A run of lookups of distinct keys that are not cached and have no
   * intermediate role, every assume-role call succeeding, behaves as an LRU
   * list: the keys are appended in turn and only the newest max_size stay.
   */
  lemma {:induction false} MissesKeepNewest(env: StsEnv, c: CacheState, keys: seq<Key>, durationSeconds: int)
    requires CacheValid(c)
    requires forall earlier, request :: env.assumeRole(earlier, request).Assumed?
    requires keys != [] || c.order == KeepNewest(c.order, c.maxSize)
    requires Distinct(keys)
    requires forall i :: 0 <= i < |keys| ==> keys[i] !in c.sessions && !Truthy(keys[i].intermediateRoleArn)
    ensures RunLookups(env, c, keys, durationSeconds).order == KeepNewest(c.order + keys, c.maxSize)
    decreases |keys|
  {
    if keys != [] {
      var o := CallFor(env, c, keys[0], durationSeconds, None);
      var rest := keys[1..];
      assert o.state.order == KeepNewest(c.order + [keys[0]], c.maxSize) by {
        UncachedKeyInserted(env, c, keys[0], durationSeconds, None, o);
      }
      assert forall i :: 0 <= i < |rest| ==> rest[i] !in o.state.sessions && !Truthy(rest[i].intermediateRoleArn) by {
        OnlyOwnKeysAdded(env, c, keys[0], durationSeconds, None, o);
        forall i | 0 <= i < |rest| ensures rest[i] !in o.state.sessions && !Truthy(rest[i].intermediateRoleArn) {
          assert rest[i] == keys[i + 1];
        }
      }
      assert Distinct(rest) by {
        DistinctSuffix(keys, 1);
      }
      KeepNewestAppend(c.order + [keys[0]], [], c.maxSize);
      assert c.order + [keys[0]] + [] == c.order + [keys[0]];
      MissesKeepNewest(env, o.state, rest, durationSeconds);
      KeepNewestAppend(c.order + [keys[0]], rest, c.maxSize);
      AppendHead(c.order, keys);
      calc {
        RunLookups(env, c, keys, durationSeconds).order;
        RunLookups(env, o.state, rest, durationSeconds).order;
        KeepNewest(o.state.order + rest, c.maxSize);
        KeepNewest(KeepNewest(c.order + [keys[0]], c.maxSize) + rest, c.maxSize);
        KeepNewest(c.order + [keys[0]] + rest, c.maxSize);
        KeepNewest(c.order + keys, c.maxSize);
      }
    }
  }

  /** A list of distinct keys has as many elements as it has positions. */
  lemma {:induction false} DistinctCardinality(s: seq<Key>)
    requires Distinct(s)
    ensures |set k | k in s| == |s|
    decreases |s|
  {
    if s != [] {
      var init := s[..|s| - 1];
      assert Distinct(init);
      DistinctCardinality(init);
      assert (set k | k in s) == (set k | k in init) + {s[|s| - 1]};
      assert s[|s| - 1] !in init;
    }
  }

  /** len(_STS_CACHE) is the length of the recency order. */
  lemma CacheSizeIsOrderLength(c: CacheState)
    requires CacheValid(c)
    ensures |c.sessions| == |c.order|
  {
    assert c.sessions.Keys == set k | k in c.order;
    DistinctCardinality(c.order);
  }

  /** A cache whose order is [k2, k3] holds two entries, none for k1. */
  lemma TwoNewestLeft(c: CacheState, k1: Key, k2: Key, k3: Key)
    requires CacheValid(c) && c.order == [k2, k3] && k1 != k2 && k1 != k3 && k2 != k3
    ensures |c.sessions| == 2 && k1 !in c.sessions
  {
    CacheSizeIsOrderLength(c);
  }

  /**
   * With the bound configured to 2, looking up three different roles in turn,
   * none through an intermediate role and every assume-role call succeeding,
   * leaves two entries: the first role, the least recently used, is gone.
   */
  lemma LruEvictionScenario(env: StsEnv, k1: Key, k2: Key, k3: Key)
    requires forall earlier, request :: env.assumeRole(earlier, request).Assumed?
    requires k1.intermediateRoleArn == None && k2.intermediateRoleArn == None && k3.intermediateRoleArn == None
    requires k1 != k2 && k2 != k3 && k1 != k3
    ensures RunLookups(env, Configure(InitialCache(), 2), [k1, k2, k3], 900).order == [k2, k3]
    ensures |RunLookups(env, Configure(InitialCache(), 2), [k1, k2, k3], 900).sessions| == 2
    ensures k1 !in RunLookups(env, Configure(InitialCache(), 2), [k1, k2, k3], 900).sessions
  {
    var c0 := Configure(InitialCache(), 2);
    var keys := [k1, k2, k3];
    MissesKeepNewest(env, c0, keys, 900);
    assert c0.order + keys == keys;
    TwoNewestLeft(RunLookups(env, c0, keys, 900), k1, k2, k3);
  }

  /** popitem(last=False) keeps the newest entries the loop is heading for. */
  lemma KeepNewestDropOldest(order: seq<Key>, maxSize: int)
    requires |order| > maxSize && order != []
    ensures KeepNewest(order[1..], maxSize) == KeepNewest(order, maxSize)
  {
    if |order[1..]| > maxSize && maxSize > 0 {
      assert order[1..][|order| - 1 - maxSize..] == order[|order| - maxSize..];
    }
  }

  /** popitem(last=False) removes the entry of the oldest key and no other. */
  lemma RestrictDropOldest(sessions: map<Key, CachedSession>, order: seq<Key>)
    requires Distinct(order) && order != []
    ensures Restrict(sessions, order) - {order[0]} == Restrict(sessions, order[1..])
  {
    forall k | k in order[1..] ensures k != order[0] {
      var j :| 0 <= j < |order[1..]| && order[1..][j] == k;
      assert order[j + 1] == k;
    }
    forall k | k in order ensures k == order[0] || k in order[1..] {
      var j :| 0 <= j < |order| && order[j] == k;
      if j > 0 {
        assert order[1..][j - 1] == k;
      }
    }
  }

  /** The three ways get_session can go, one lemma each, for the imperative version to follow. */
  lemma HitOutcome(env: StsEnv, c: CacheState, key: Key, durationSeconds: int, base: Option<Session>)
    requires CacheValid(c) && FreshHit(c, key, env.clock(c.clockReads))
    ensures CallFor(env, c, key, durationSeconds, base)
         == Outcome(c.(clockReads := c.clockReads + 1, order := MoveToEnd(c.order, key)), Success(c.sessions[key].session))
  {
  }

  lemma DirectOutcome(env: StsEnv, c: CacheState, key: Key, durationSeconds: int, base: Option<Session>)
    requires CacheValid(c) && !FreshHit(c, key, env.clock(c.clockReads)) && !Truthy(key.intermediateRoleArn)
    ensures CallFor(env, c, key, durationSeconds, base) == AssumeAndStore(env, Missed(c, key), key, BaseSession(base), durationSeconds)
  {
  }

  lemma ViaOutcome(env: StsEnv, c: CacheState, key: Key, durationSeconds: int, base: Option<Session>)
    requires CacheValid(c) && !FreshHit(c, key, env.clock(c.clockReads)) && Truthy(key.intermediateRoleArn)
    ensures
      var via := CallFor(env, Missed(c, key), IntermediateKey(key.intermediateRoleArn, key.sessionName), durationSeconds, Some(BaseSession(base)));
      CallFor(env, c, key, durationSeconds, base)
        == if via.result.Failure? then via else AssumeAndStore(env, via.state, key, via.result.value, durationSeconds)
  {
  }

  /**
   * The module state behind get_session and configure_cache: _STS_CACHE as a
   * recency order and a map, _MAX_CACHE_SIZE, and how much of the clock and
   * STS oracles the calls have used.
   */
  class SessionCache {
    const env: StsEnv
    var order: seq<Key>
    var sessions: map<Key, CachedSession>
    var maxSize: int
    var clockReads: nat
    var requests: seq<AssumeRequest>

    function State(): CacheState
      reads this
    {
      CacheState(order, sessions, maxSize, clockReads, requests)
    }

    ghost predicate Valid()
      reads this
    {
      CacheValid(State())
    }

    /** The module at import time: an empty cache bounded by 128. */
    constructor (env: StsEnv)
      ensures Valid() && State() == InitialCache() && this.env == env
    {
      this.env := env;
      order := [];
      sessions := map[];
      maxSize := DEFAULT_MAX_CACHE_SIZE;
      clockReads := 0;
      requests := [];
    }

    /** configure_cache(max_size): only the bound changes. */
    method ConfigureCache(maxSize: int)
      requires Valid()
      modifies this
      ensures Valid()
      ensures State() == Configure(old(State()), maxSize)
    {
      this.maxSize := maxSize;
    }

    /**
     * The LRU eviction loop: pop the least recently used entry while the
     * cache is over its bound. Returns false when popitem would be called
     * on an empty cache, which raises KeyError.
     */
    method EvictLeastRecent() returns (ok: bool)
      requires Valid()
      modifies this
      ensures Valid()
      ensures State() == Evict(old(State()))
      ensures ok <==> maxSize >= 0
    {
      ghost var start := State();
      assert sessions == Restrict(start.sessions, order);
      while |order| > maxSize
        invariant Valid()
        invariant maxSize == start.maxSize && clockReads == start.clockReads && requests == start.requests
        invariant KeepNewest(order, maxSize) == KeepNewest(start.order, maxSize)
        invariant sessions == Restrict(start.sessions, order)
        decreases |order|
      {
        if order == [] {
          return false;
        }
        KeepNewestDropOldest(order, maxSize);
        RestrictDropOldest(start.sessions, order);
        DistinctSuffix(order, 1);
        sessions := sessions - {order[0]};
        order := order[1..];
      }
      return true;
    }

    /** Assigning an entry to a key, which appends a new key and keeps an existing key's place. */
    method Put(key: Key, entry: CachedSession)
      requires Valid()
      modifies this
      ensures Valid()
      ensures State() == Store(old(State()), key, entry)
    {
      DistinctAppend(order, key);
      if key !in sessions {
        order := order + [key];
      }
      sessions := sessions[key := entry];
    }

    /**
     * get_session(target_role_arn, session_name, intermediate_role_arn,
     * duration_seconds, session): the cache changes exactly as the pure
     * definition says, and the call returns or raises what it says.
     */
    method GetSession(targetRoleArn: string, sessionName: string, intermediateRoleArn: Option<string>,
                      durationSeconds: int, base: Option<Session>) returns (result: Result<Session, StsError>)
      requires Valid()
      modifies this
      ensures Valid()
      ensures Outcome(State(), result) == GetSessionOutcome(env, old(State()), targetRoleArn, sessionName, intermediateRoleArn, durationSeconds, base)
      decreases if Truthy(intermediateRoleArn) then 1 else 0
    {
      ghost var start := State();
      var key := Key(targetRoleArn, sessionName, intermediateRoleArn);
      var now := env.clock(clockReads);
      if key in sessions && sessions[key].expiration > now {
        HitOutcome(env, start, key, durationSeconds, base);
        clockReads := clockReads + 1;
        order := MoveToEnd(order, key);
        return Success(sessions[key].session);
      }
      clockReads := clockReads + 1;
      if key in sessions {
        order := Without(order, key);
        sessions := sessions - {key};
      }
      assert State() == Missed(start, key);
      var session := BaseSession(base);
      if Truthy(intermediateRoleArn) {
        ViaOutcome(env, start, key, durationSeconds, base);
        result := GetSession(intermediateRoleArn.value, sessionName, None, durationSeconds, Some(session));
        if result.Failure? {
          return;
        }
        session := result.value;
      } else {
        DirectOutcome(env, start, key, durationSeconds, base);
      }
      result := AssumeAndCache(key, session, durationSeconds);
    }

    /**
     * _assume_role_session(session, target_role_arn, session_name,
     * duration_seconds), then the insert under `key` and the eviction loop.
     */
    method AssumeAndCache(key: Key, session: Session, durationSeconds: int) returns (result: Result<Session, StsError>)
      requires Valid()
      modifies this
      ensures Valid()
      ensures Outcome(State(), result) == AssumeAndStore(env, old(State()), key, session, durationSeconds)
    {
      var request := Request(key, session, durationSeconds);
      var reply := env.assumeRole(requests, request);
      requests := requests + [request];
      if reply.AssumeFailed? {
        return Failure(AssumeRoleError(key.targetRoleArn));
      }
      var entry := CachedSession(reply.session, reply.expiration);
      Put(key, entry);
      var ok := EvictLeastRecent();
      if ok {
        result := Success(entry.session);
      } else {
        result := Failure(EmptyCacheEviction);
      }
    }
  }
}
