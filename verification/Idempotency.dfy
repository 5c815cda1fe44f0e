/**
 * The idempotency middleware of the refund route: cache, lock, handler and release,
 * for one request, and as a protocol between any number of interleaved requests.
 * The protocol assumes that Redis is open and that no key expires.
 */
module Idempotency {
  import opened Prelude
  import opened Redis

  const CACHE_PREFIX := "idempotency:refund:"
  const LOCK_PREFIX := "lock:refund:"

  datatype Entry = KeyRequired | Replay(body: string) | Conflict | Proceed

  predicate IsCacheable(statusCode: int) {
    200 <= statusCode < 400
  }

  /** What a request meets when Redis holds `store`; a cached text that does not parse is passed over. */
  function EntryFor(store: map<string, string>, key: string, parses: string -> bool): Entry {
    if key == "" then KeyRequired
    else if CACHE_PREFIX + key in store && store[CACHE_PREFIX + key] != "" && parses(store[CACHE_PREFIX + key]) then
      Replay(store[CACHE_PREFIX + key])
    else if LOCK_PREFIX + key in store then Conflict
    else Proceed
  }

  function AfterEntry(store: map<string, string>, key: string, parses: string -> bool): map<string, string> {
    if EntryFor(store, key, parses).Proceed? then store[LOCK_PREFIX + key := "locked"] else store
  }

  function AfterJson(store: map<string, string>, key: string, statusCode: int, body: string): map<string, string> {
    if IsCacheable(statusCode) then store[CACHE_PREFIX + key := body] else store
  }

  function AfterRelease(store: map<string, string>, key: string, released: bool): map<string, string> {
    if released then store else store - {LOCK_PREFIX + key}
  }

  /** The middleware's state for one request. Without a connection to Redis every keyed request proceeds. */
  class Guard {
    const redis: RedisService
    const key: string
    var lockReleased: bool

    /** `rawKey` is the Idempotency-Key header. */
    constructor (redis: RedisService, rawKey: Option<string>)
      ensures this.redis == redis && key == Trim(rawKey.GetOr("")) && !lockReleased
    {
      this.redis, key := redis, Trim(rawKey.GetOr(""));
      lockReleased := false;
    }

    /** The steps before the handler. `parses` is whether `JSON.parse` accepts a text. */
    method Enter(parses: string -> bool) returns (r: Entry)
      modifies redis`store
      ensures r == EntryFor(if redis.isOpen then old(redis.store) else map[], key, parses)
      ensures redis.store == if redis.isOpen then AfterEntry(old(redis.store), key, parses) else old(redis.store)
    {
      if key == "" {
        return KeyRequired;
      }
      var cached := redis.Get(CACHE_PREFIX + key);
      if Truthy(cached) && parses(cached.value) {
        return Replay(cached.value);
      }
      var acquired := redis.AcquireLock(LOCK_PREFIX + key);
      return if acquired then Proceed else Conflict;
    }

    /** The replaced `res.json`. */
    method Json(statusCode: int, body: string)
      modifies redis`store
      ensures redis.store ==
              if redis.isOpen then AfterJson(old(redis.store), key, statusCode, body) else old(redis.store)
    {
      if statusCode >= 200 && statusCode < 400 {
        redis.Set(CACHE_PREFIX + key, body);
      }
    }

    /** Called on `finish` and again on `close`: only the first call deletes the lock. */
    method ReleaseLockSafely()
      modifies this`lockReleased, redis`store
      ensures lockReleased
      ensures redis.store ==
              if redis.isOpen then AfterRelease(old(redis.store), key, old(lockReleased)) else old(redis.store)
    {
      if !lockReleased {
        lockReleased := true;
        redis.ReleaseLock(LOCK_PREFIX + key);
      }
    }
  }

  datatype Stage = Arrived | Missed | Running | Responded | Replayed(body: string) | Refused

  /** `released` is the flag of the release hook, `closed` whether the connection has closed, which it does once. */
  datatype Request = Request(key: string, stage: Stage, released: bool, closed: bool)

  /** The cached bodies, the request behind each held lock, and the requests. */
  datatype State = State(cache: map<string, string>, locks: map<string, nat>, requests: map<nat, Request>)

  datatype Step =
    | Arrive(request: nat, key: string)
    | ReadCache(request: nat)
    | TakeLock(request: nat)
    | Respond(request: nat, statusCode: int, body: string)
    | Finish(request: nat)
    | Close(request: nat)

  function To(s: State, r: nat, stage: Stage): State
    requires r in s.requests
  {
    s.(requests := s.requests[r := s.requests[r].(stage := stage)])
  }

  function Release(s: State, r: nat): State
    requires r in s.requests
  {
    if s.requests[r].released then s
    else s.(locks := s.locks - {s.requests[r].key}, requests := s.requests[r := s.requests[r].(released := true)])
  }

  function NoteClose(s: State, r: nat): State
    requires r in s.requests
  {
    s.(requests := s.requests[r := s.requests[r].(closed := true)])
  }

  function Apply(s: State, step: Step): State {
    var r := step.request;
    if step.Arrive? then
      if r in s.requests then s else s.(requests := s.requests[r := Request(step.key, Arrived, false, false)])
    else if r !in s.requests then s
    else
      var Request(key, stage, _, closed) := s.requests[r];
      match step
      case ReadCache(_) =>
        if !stage.Arrived? then s
        else if key in s.cache then To(s, r, Replayed(s.cache[key])) else To(s, r, Missed)
      case TakeLock(_) =>
        if !stage.Missed? then s
        else if key in s.locks then To(s, r, Refused)
        else To(s, r, Running).(locks := s.locks[key := r])
      case Respond(_, statusCode, body) =>
        if !stage.Running? then s
        else To(s, r, Responded).(cache := if IsCacheable(statusCode) then s.cache[key := body] else s.cache)
      case Finish(_) => if stage.Responded? then Release(s, r) else s
      case Close(_) =>
        // The hooks are attached once the lock is held: a connection that closes before goes unnoticed.
        if closed then s
        else if stage.Responded? || stage.Running? then Release(NoteClose(s, r), r)
        else NoteClose(s, r)
      case Arrive(_, _) => s
  }

  lemma KeysAreDisjoint(key: string, other: string)
    ensures CACHE_PREFIX + key != LOCK_PREFIX + other
    ensures CACHE_PREFIX + key == CACHE_PREFIX + other || LOCK_PREFIX + key == LOCK_PREFIX + other ==> key == other
  {
    assert (CACHE_PREFIX + key)[0] == 'i' && (LOCK_PREFIX + other)[0] == 'l';
    assert (CACHE_PREFIX + key)[|CACHE_PREFIX|..] == key && (CACHE_PREFIX + other)[|CACHE_PREFIX|..] == other;
    assert (LOCK_PREFIX + key)[|LOCK_PREFIX|..] == key && (LOCK_PREFIX + other)[|LOCK_PREFIX|..] == other;
  }

  /** Redis holds the protocol's cached bodies and locks of `key`. */
  predicate HoldsKey(store: map<string, string>, s: State, key: string) {
    && (CACHE_PREFIX + key in store <==> key in s.cache)
    && (key in s.cache ==> store[CACHE_PREFIX + key] == s.cache[key])
    && (LOCK_PREFIX + key in store <==> key in s.locks)
  }

  ghost predicate Represents(store: map<string, string>, s: State) {
    forall key :: HoldsKey(store, s, key)
  }

  /** How a request that was not let through, or was, stands in the protocol. */
  predicate Meets(entry: Entry, stage: Stage) {
    match entry
    case Replay(body) => stage == Replayed(body)
    case Conflict => stage == Refused
    case Proceed => stage == Running
    case KeyRequired => false
  }

  lemma EntryFollowsProtocol(store: map<string, string>, s: State, r: nat, parses: string -> bool)
    requires Represents(store, s) && r in s.requests && s.requests[r].key != "" && s.requests[r].stage.Arrived?
    requires var key := s.requests[r].key; key in s.cache ==> s.cache[key] != "" && parses(s.cache[key])
    ensures var s' := Apply(Apply(s, ReadCache(r)), TakeLock(r));
            r in s'.requests && Meets(EntryFor(store, s.requests[r].key, parses), s'.requests[r].stage)
            && Represents(AfterEntry(store, s.requests[r].key, parses), s')
  {
    var key := s.requests[r].key;
    assert HoldsKey(store, s, key);
    forall other
      ensures HoldsKey(AfterEntry(store, key, parses), Apply(Apply(s, ReadCache(r)), TakeLock(r)), other)
    {
      assert HoldsKey(store, s, other);
      KeysAreDisjoint(key, other);
      KeysAreDisjoint(other, key);
    }
  }

  lemma ResponseFollowsProtocol(store: map<string, string>, s: State, r: nat, statusCode: int, body: string)
    requires Represents(store, s) && r in s.requests && s.requests[r].stage.Running?
    ensures Represents(AfterJson(store, s.requests[r].key, statusCode, body), Apply(s, Respond(r, statusCode, body)))
  {
    var key := s.requests[r].key;
    forall other
      ensures HoldsKey(AfterJson(store, key, statusCode, body), Apply(s, Respond(r, statusCode, body)), other)
    {
      assert HoldsKey(store, s, other);
      KeysAreDisjoint(key, other);
      KeysAreDisjoint(other, key);
    }
  }

  lemma ReleaseFollowsProtocol(store: map<string, string>, s: State, r: nat, step: Step)
    requires Represents(store, s) && r in s.requests && (s.requests[r].stage.Running? || s.requests[r].stage.Responded?)
    requires (step == Close(r) && !s.requests[r].closed) || (step == Finish(r) && s.requests[r].stage.Responded?)
    ensures Represents(AfterRelease(store, s.requests[r].key, s.requests[r].released), Apply(s, step))
  {
    var key := s.requests[r].key;
    forall other
      ensures HoldsKey(AfterRelease(store, key, s.requests[r].released), Apply(s, step), other)
    {
      assert HoldsKey(store, s, other);
      KeysAreDisjoint(key, other);
      KeysAreDisjoint(other, key);
    }
  }

  function Exec(s: State, steps: seq<Step>): State {
    if steps == [] then s else Apply(Exec(s, steps[..|steps| - 1]), steps[|steps| - 1])
  }

  const EMPTY := State(map[], map[], map[])

  predicate HoldsLock(q: Request) {
    (q.stage.Running? || q.stage.Responded?) && !q.released
  }

  ghost predicate HoldersHaveLocks(s: State) {
    forall r :: r in s.requests && HoldsLock(s.requests[r]) ==>
      s.requests[r].key in s.locks && s.locks[s.requests[r].key] == r
  }

  ghost predicate LocksHaveHolders(s: State) {
    forall key :: key in s.locks ==>
      s.locks[key] in s.requests && s.requests[s.locks[key]].key == key && HoldsLock(s.requests[s.locks[key]])
  }

  ghost predicate ReleasedHaveRun(s: State) {
    forall r :: r in s.requests && s.requests[r].released ==>
        s.requests[r].stage.Running? || s.requests[r].stage.Responded?
  }

  /** A lock is held by exactly one request, which has taken it and not released it yet. */
  ghost predicate LocksAreOwned(s: State) {
    HoldersHaveLocks(s) && LocksHaveHolders(s) && ReleasedHaveRun(s)
  }

  lemma StepKeepsHolders(s: State, step: Step)
    requires LocksAreOwned(s)
    ensures HoldersHaveLocks(Apply(s, step))
  {
  }

  lemma StepKeepsLocks(s: State, step: Step)
    requires LocksAreOwned(s)
    ensures LocksHaveHolders(Apply(s, step))
  {
  }

  lemma StepKeepsRun(s: State, step: Step)
    requires ReleasedHaveRun(s)
    ensures ReleasedHaveRun(Apply(s, step))
  {
  }

  lemma StepKeepsOwnership(s: State, step: Step)
    requires LocksAreOwned(s)
    ensures LocksAreOwned(Apply(s, step))
  {
    hide Apply, HoldersHaveLocks, LocksHaveHolders;
    StepKeepsHolders(s, step);
    StepKeepsLocks(s, step);
    StepKeepsRun(s, step);
  }

  lemma {:induction false} LocksStayOwned(steps: seq<Step>)
    ensures LocksAreOwned(Exec(EMPTY, steps))
  {
    hide Apply;
    if steps != [] {
      LocksStayOwned(steps[..|steps| - 1]);
      StepKeepsOwnership(Exec(EMPTY, steps[..|steps| - 1]), steps[|steps| - 1]);
    }
  }

  /** The release hook fires for request `r`: on `finish`, or on the first `close` after it was attached. */
  predicate FiresRelease(s: State, step: Step, r: nat)
    requires r in s.requests
  {
    (step == Finish(r) && s.requests[r].stage.Responded?)
    || (step == Close(r) && (s.requests[r].stage.Running? || s.requests[r].stage.Responded?) && !s.requests[r].closed)
  }

  /**
   * In every run, although release fires on both `finish` and `close` and deletes by
   * name, a step deletes a lock if and only if the hook of its own holder fires, and
   * that marks the holder as released.
   */
  lemma ReleaseFreesOwnLock(steps: seq<Step>, step: Step, key: string)
    requires key in Exec(EMPTY, steps).locks
    ensures var s := Exec(EMPTY, steps); var holder := s.locks[key];
            && holder in s.requests && s.requests[holder].key == key && !s.requests[holder].released
            && (key !in Apply(s, step).locks <==> FiresRelease(s, step, holder))
            && (key !in Apply(s, step).locks ==> Apply(s, step).requests[holder].released)
  {
    LocksStayOwned(steps);
    var s := Exec(EMPTY, steps);
    if step.request in s.requests && step.request != s.locks[key] && !s.requests[step.request].released
       && s.requests[step.request].key == key {
      assert !HoldsLock(s.requests[step.request]);
    }
  }

  /** A connection that closed before its hooks were attached leaves the lock held until `finish`, whatever happens. */
  lemma {:induction false} AbandonedLockStays(steps: seq<Step>, more: seq<Step>, key: string)
    requires var s := Exec(EMPTY, steps);
             key in s.locks && s.locks[key] in s.requests && s.requests[s.locks[key]].closed
    requires forall n :: 0 <= n < |more| ==> more[n] != Finish(Exec(EMPTY, steps).locks[key])
    ensures var s, s' := Exec(EMPTY, steps), Exec(EMPTY, steps + more); var holder := s.locks[key];
            key in s'.locks && s'.locks[key] == holder && holder in s'.requests && s'.requests[holder].closed
  {
    hide Apply;
    if more == [] {
      assert steps + more == steps;
    } else {
      var n := |more| - 1;
      AbandonedLockStays(steps, more[..n], key);
      assert (steps + more)[..|steps| + n] == steps + more[..n];
      ReleaseFreesOwnLock(steps + more[..n], more[n], key);
      HeldLockStaysWithHolder(Exec(EMPTY, steps + more[..n]), more[n], key);
    }
  }

  lemma HeldLockStaysWithHolder(s: State, step: Step, key: string)
    requires key in s.locks && s.locks[key] in s.requests && s.requests[s.locks[key]].closed
    ensures var s' := Apply(s, step); var holder := s.locks[key];
            (key in s'.locks ==> s'.locks[key] == holder) && holder in s'.requests && s'.requests[holder].closed
  {
  }

  lemma StepKeepsReleased(s: State, step: Step, r: nat)
    requires r in s.requests && s.requests[r].released
    ensures r in Apply(s, step).requests && Apply(s, step).requests[r].released
  {
  }

  lemma {:induction false} ReleasedStaysReleased(steps: seq<Step>, more: seq<Step>, r: nat)
    requires r in Exec(EMPTY, steps).requests && Exec(EMPTY, steps).requests[r].released
    ensures r in Exec(EMPTY, steps + more).requests && Exec(EMPTY, steps + more).requests[r].released
  {
    hide Apply;
    if more == [] {
      assert steps + more == steps;
    } else {
      var n := |more| - 1;
      ReleasedStaysReleased(steps, more[..n], r);
      assert (steps + more)[..|steps| + n] == steps + more[..n];
      StepKeepsReleased(Exec(EMPTY, steps + more[..n]), more[n], r);
    }
  }

  /** The body of the last cacheable response for a key in a run. */
  ghost function LastCached(steps: seq<Step>, key: string): Option<string> {
    if steps == [] then None
    else
      var n := |steps| - 1;
      var s := Exec(EMPTY, steps[..n]);
      if steps[n].Respond? && IsCacheable(steps[n].statusCode) && steps[n].request in s.requests
         && s.requests[steps[n].request].key == key
             && s.requests[steps[n].request].stage.Running? then Some(steps[n].body)
      else LastCached(steps[..n], key)
  }

  lemma {:induction false} CacheHoldsLastResponse(steps: seq<Step>, key: string)
    ensures var s := Exec(EMPTY, steps);
            LastCached(steps, key) == if key in s.cache then Some(s.cache[key]) else None
  {
    if steps != [] {
      CacheHoldsLastResponse(steps[..|steps| - 1], key);
    }
  }

  lemma StepKeepsReplayed(s: State, step: Step, r: nat)
    requires r in s.requests && s.requests[r].stage.Replayed?
    ensures r in Apply(s, step).requests && Apply(s, step).requests[r].stage == s.requests[r].stage
  {
  }

  lemma {:induction false} ReplayedStaysReplayed(steps: seq<Step>, more: seq<Step>, r: nat)
    requires r in Exec(EMPTY, steps).requests && Exec(EMPTY, steps).requests[r].stage.Replayed?
    ensures r in Exec(EMPTY, steps + more).requests
            && Exec(EMPTY, steps + more).requests[r].stage == Exec(EMPTY, steps).requests[r].stage
  {
    hide Apply;
    if more == [] {
      assert steps + more == steps;
    } else {
      var n := |more| - 1;
      ReplayedStaysReplayed(steps, more[..n], r);
      assert (steps + more)[..|steps| + n] == steps + more[..n];
      StepKeepsReplayed(Exec(EMPTY, steps + more[..n]), more[n], r);
    }
  }

  /**
   * A request that reads the cache after a response was cached answers with the last
   * cached body, and never runs the handler, whatever follows.
   */
  lemma LateReadersReplay(steps: seq<Step>, r: nat, more: seq<Step>)
    requires r in Exec(EMPTY, steps).requests && Exec(EMPTY, steps).requests[r].stage.Arrived?
    requires LastCached(steps, Exec(EMPTY, steps).requests[r].key).Some?
    ensures var s := Exec(EMPTY, steps + [ReadCache(r)] + more);
            r in s.requests
                && s.requests[r].stage == Replayed(LastCached(steps, Exec(EMPTY, steps).requests[r].key).value)
  {
    CacheHoldsLastResponse(steps, Exec(EMPTY, steps).requests[r].key);
    assert (steps + [ReadCache(r)])[..|steps|] == steps;
    ReplayedStaysReplayed(steps + [ReadCache(r)], more, r);
  }
}
