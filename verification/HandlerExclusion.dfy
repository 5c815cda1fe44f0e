/**
 * When the handlers of one idempotency key exclude each other. They do in every run in
 * which no connection closes while its handler runs; once one has, it depends on the
 * cache and on the requests that have missed it already.
 */
module HandlerExclusion {
  import opened Prelude
  import opened Idempotency

  predicate IsRunning(s: State, r: nat, key: string) {
    r in s.requests && s.requests[r].key == key && s.requests[r].stage.Running?
  }

  /** A handler that runs on after its connection has closed and its lock has gone. */
  predicate IsLoose(s: State, r: nat, key: string) {
    IsRunning(s, r, key) && s.requests[r].released
  }

  predicate HasMissed(s: State, r: nat, key: string) {
    r in s.requests && s.requests[r].key == key && s.requests[r].stage.Missed?
  }

  ghost predicate AtMostOneRuns(s: State, key: string) {
    forall q, r :: IsRunning(s, q, key) && IsRunning(s, r, key) ==> q == r
  }

  /** A connection that closes while its handler still runs. */
  predicate ClosesEarly(s: State, step: Step) {
    step.Close? && step.request in s.requests && s.requests[step.request].stage.Running?
        && !s.requests[step.request].closed
  }

  /** From `s` on, no connection closes while its handler runs. */
  ghost predicate NoEarlyClose(s: State, steps: seq<Step>) {
    forall n :: 0 <= n < |steps| ==> !ClosesEarly(Exec(s, steps[..n]), steps[n])
  }

  lemma NoEarlyCloseFront(s: State, steps: seq<Step>)
    requires steps != [] && NoEarlyClose(s, steps)
    ensures NoEarlyClose(s, steps[..|steps| - 1]) && !ClosesEarly(Exec(s, steps[..|steps| - 1]), steps[|steps| - 1])
  {
    hide Exec, ClosesEarly;
    var front := steps[..|steps| - 1];
    forall m | 0 <= m < |front|
      ensures !ClosesEarly(Exec(s, front[..m]), front[m])
    {
      assert front[..m] == steps[..m];
      assert !ClosesEarly(Exec(s, steps[..m]), steps[m]);
    }
  }

  lemma NoEarlyCloseMore(s: State, steps: seq<Step>, step: Step)
    requires NoEarlyClose(s, steps) && !ClosesEarly(Exec(s, steps), step)
    ensures NoEarlyClose(s, steps + [step]) && Exec(s, steps + [step]) == Apply(Exec(s, steps), step)
  {
    hide ClosesEarly, Apply;
    assert (steps + [step])[..|steps|] == steps;
    forall m | 0 <= m < |steps + [step]|
      ensures !ClosesEarly(Exec(s, (steps + [step])[..m]), (steps + [step])[m])
    {
      assert (steps + [step])[..m] == steps[..m];
      assert m == |steps| ==> steps[..m] == steps;
    }
  }

  /** No running handler of the key has given up its lock. */
  ghost predicate RunnersHoldLocks(s: State, key: string) {
    forall r :: !IsLoose(s, r, key)
  }

  lemma StepKeepsRunners(s: State, step: Step, key: string)
    requires LocksAreOwned(s) && RunnersHoldLocks(s, key) && !ClosesEarly(s, step)
    ensures RunnersHoldLocks(Apply(s, step), key)
  {
    forall r
      ensures !IsLoose(Apply(s, step), r, key)
    {
      assert !IsLoose(s, r, key);
    }
  }

  lemma {:induction false} RunnersKeepLocks(s: State, more: seq<Step>, key: string)
    requires LocksAreOwned(s) && RunnersHoldLocks(s, key) && NoEarlyClose(s, more)
    ensures LocksAreOwned(Exec(s, more)) && RunnersHoldLocks(Exec(s, more), key)
  {
    hide Apply, ClosesEarly, LocksAreOwned, RunnersHoldLocks;
    if more != [] {
      NoEarlyCloseFront(s, more);
      RunnersKeepLocks(s, more[..|more| - 1], key);
      StepKeepsOwnership(Exec(s, more[..|more| - 1]), more[|more| - 1]);
      StepKeepsRunners(Exec(s, more[..|more| - 1]), more[|more| - 1], key);
    }
  }

  lemma LockHoldersExclude(s: State, key: string)
    requires LocksAreOwned(s) && RunnersHoldLocks(s, key)
    ensures AtMostOneRuns(s, key)
  {
    forall q, r | IsRunning(s, q, key) && IsRunning(s, r, key)
      ensures q == r
    {
      assert !IsLoose(s, q, key) && !IsLoose(s, r, key);
      assert HoldsLock(s.requests[q]) && HoldsLock(s.requests[r]);
    }
  }

  /** In every run in which no connection closes early, no two handlers of one key run at once. */
  lemma HandlersExclude(steps: seq<Step>, key: string)
    requires NoEarlyClose(EMPTY, steps)
    ensures AtMostOneRuns(Exec(EMPTY, steps), key)
  {
    RunnersKeepLocks(EMPTY, steps, key);
    LockHoldersExclude(Exec(EMPTY, steps), key);
  }

  /**
   * In every run, when two handlers of one key are running at once, the connection of
   * one of them has closed: it is running on after giving up its lock.
   */
  lemma OnlyClosedHandlersOverlap(steps: seq<Step>, q: nat, r: nat, key: string)
    requires IsRunning(Exec(EMPTY, steps), q, key) && IsRunning(Exec(EMPTY, steps), r, key) && q != r
    ensures IsLoose(Exec(EMPTY, steps), q, key) || IsLoose(Exec(EMPTY, steps), r, key)
  {
    LocksStayOwned(steps);
  }

  /**
   * The lock step decides: in every run, while a handler of a key runs, a request that
   * has missed the cache starts a second one if and only if nobody holds the lock, and
   * then the first one is loose.
   */
  lemma SecondHandlerStarts(steps: seq<Step>, q: nat, r: nat, key: string)
    requires IsRunning(Exec(EMPTY, steps), q, key) && HasMissed(Exec(EMPTY, steps), r, key)
    ensures var s := Exec(EMPTY, steps);
            && (IsRunning(Apply(s, TakeLock(r)), r, key) <==>
                forall h :: h in s.requests && s.requests[h].key == key ==> !HoldsLock(s.requests[h]))
            && (IsRunning(Apply(s, TakeLock(r)), r, key) ==>
                  IsRunning(Apply(s, TakeLock(r)), q, key) && IsLoose(s, q, key))
  {
    LocksStayOwned(steps);
    var s := Exec(EMPTY, steps);
    if key in s.locks {
      assert HoldsLock(s.requests[s.locks[key]]);
    }
  }

  /** A cached key whose requests have all read the cache: no handler of it starts again. */
  ghost predicate IsSealed(s: State, key: string) {
    key in s.cache && forall r :: !HasMissed(s, r, key)
  }

  lemma StepKeepsSealed(s: State, step: Step, key: string)
    requires IsSealed(s, key)
    ensures IsSealed(Apply(s, step), key)
    ensures forall r :: IsRunning(Apply(s, step), r, key) ==> IsRunning(s, r, key)
  {
    forall r
      ensures !HasMissed(Apply(s, step), r, key) && (IsRunning(Apply(s, step), r, key) ==> IsRunning(s, r, key))
    {
      assert !HasMissed(s, r, key);
    }
  }

  lemma {:induction false} SealedStartsNoHandler(s: State, more: seq<Step>, key: string)
    requires IsSealed(s, key)
    ensures IsSealed(Exec(s, more), key)
    ensures forall r :: IsRunning(Exec(s, more), r, key) ==> IsRunning(s, r, key)
  {
    hide Apply, IsSealed, IsRunning;
    if more != [] {
      SealedStartsNoHandler(s, more[..|more| - 1], key);
      StepKeepsSealed(Exec(s, more[..|more| - 1]), more[|more| - 1], key);
    }
  }

  /** A step that lets the requests of a key go on as they were, but for `h`. */
  ghost predicate LeavesOthers(s: State, s': State, key: string, h: nat) {
    && (forall r :: r != h && HasMissed(s, r, key) ==> HasMissed(s', r, key))
    && (forall q :: IsLoose(s, q, key) && q != h ==> IsLoose(s', q, key))
  }

  lemma ResponseGoesOn(s: State, h: nat, key: string)
    requires LocksAreOwned(s) && key in s.locks && s.locks[key] == h && s.requests[h].stage.Running?
    ensures var s' := Apply(s, Respond(h, 500, ""));
            && key in s'.locks && s'.locks[key] == h && h in s'.requests && s'.requests[h].stage.Responded?
            && LeavesOthers(s, s', key, h)
  {
    assert HoldsLock(s.requests[h]);
  }

  lemma FinishFrees(s: State, h: nat, key: string)
    requires LocksAreOwned(s) && key in s.locks && s.locks[key] == h && s.requests[h].stage.Responded?
    ensures var s' := Apply(s, Finish(h)); key !in s'.locks && LeavesOthers(s, s', key, h)
  {
    assert HoldsLock(s.requests[h]);
  }

  lemma FreeLockIsTaken(s: State, r: nat, key: string)
    requires key !in s.locks && HasMissed(s, r, key)
    ensures IsRunning(Apply(s, TakeLock(r)), r, key)
    ensures forall q :: IsLoose(s, q, key) ==> IsLoose(Apply(s, TakeLock(r)), q, key)
  {
  }

  /** Whoever holds the lock, it can be freed without an early close. */
  lemma LockCanBeFreed(s: State, r: nat, key: string) returns (more: seq<Step>)
    requires LocksAreOwned(s) && HasMissed(s, r, key)
    ensures NoEarlyClose(s, more) && key !in Exec(s, more).locks && HasMissed(Exec(s, more), r, key)
    ensures forall q :: IsLoose(s, q, key) ==> IsLoose(Exec(s, more), q, key)
  {
    more := [];
    if key in s.locks {
      var h := s.locks[key];
      assert HoldsLock(s.requests[h]);
      hide Apply, LocksAreOwned;
      if s.requests[h].stage.Running? {
        ResponseGoesOn(s, h, key);
        StepKeepsOwnership(s, Respond(h, 500, ""));
        NoEarlyCloseMore(s, more, Respond(h, 500, ""));
        more := more + [Respond(h, 500, "")];
      }
      FinishFrees(Exec(s, more), h, key);
      NoEarlyCloseMore(s, more, Finish(h));
      more := more + [Finish(h)];
    }
  }

  lemma MissedCanRun(s: State, r: nat, key: string) returns (more: seq<Step>)
    requires LocksAreOwned(s) && HasMissed(s, r, key)
    ensures NoEarlyClose(s, more) && IsRunning(Exec(s, more), r, key)
    ensures forall q :: IsLoose(s, q, key) ==> IsLoose(Exec(s, more), q, key)
  {
    hide Apply, LocksAreOwned, IsRunning, IsLoose, NoEarlyClose;
    more := LockCanBeFreed(s, r, key);
    FreeLockIsTaken(Exec(s, more), r, key);
    NoEarlyCloseMore(s, more, TakeLock(r));
    more := more + [TakeLock(r)];
  }

  lemma {:induction false} FreshNumber(used: set<nat>) returns (n: nat)
    ensures forall i :: i in used ==> i < n
  {
    if used == {} {
      return 0;
    }
    var i :| i in used;
    var m := FreshNumber(used - {i});
    assert forall j :: j in used ==> j == i || j in used - {i};
    return if i < m then m else i + 1;
  }

  /** A new request of a key that is not cached misses. */
  lemma NewcomerMisses(s: State, key: string) returns (r: nat, more: seq<Step>)
    requires LocksAreOwned(s) && key !in s.cache
    ensures NoEarlyClose(s, more) && LocksAreOwned(Exec(s, more)) && HasMissed(Exec(s, more), r, key)
            && r !in s.requests
    ensures forall q :: IsLoose(s, q, key) ==> IsLoose(Exec(s, more), q, key)
  {
    r := FreshNumber(s.requests.Keys);
    more := [];
    NoEarlyCloseMore(s, more, Arrive(r, key));
    more := more + [Arrive(r, key)];
    StepKeepsOwnership(s, Arrive(r, key));
    StepKeepsOwnership(Exec(s, more), ReadCache(r));
    NoEarlyCloseMore(s, more, ReadCache(r));
    more := more + [ReadCache(r)];
  }

  lemma {:induction false} ExecComposes(s: State, a: seq<Step>, b: seq<Step>)
    requires NoEarlyClose(s, a) && NoEarlyClose(Exec(s, a), b)
    ensures Exec(s, a + b) == Exec(Exec(s, a), b) && NoEarlyClose(s, a + b)
  {
    hide Apply, ClosesEarly, NoEarlyClose;
    if b == [] {
      assert a + b == a;
    } else {
      var n := |b| - 1;
      NoEarlyCloseFront(Exec(s, a), b);
      ExecComposes(s, a, b[..n]);
      assert a + b == (a + b[..n]) + [b[n]];
      NoEarlyCloseMore(s, a + b[..n], b[n]);
    }
  }

  /** Exclusion holds in every continuation without further early closes. */
  ghost predicate StaysExclusive(s: State, key: string) {
    forall more :: NoEarlyClose(s, more) ==> AtMostOneRuns(Exec(s, more), key)
  }

  /**
   * In every run, exclusion will last if and only if at most one handler runs now and,
   * where it runs loose, the key is cached and no request that has missed is waiting.
   */
  lemma ExclusionLasts(steps: seq<Step>, key: string)
    ensures var s := Exec(EMPTY, steps);
            StaysExclusive(s, key) <==>
            AtMostOneRuns(s, key) && (RunnersHoldLocks(s, key) || IsSealed(s, key))
  {
    hide Apply;
    LocksStayOwned(steps);
    var s := Exec(EMPTY, steps);
    if StaysExclusive(s, key) {
      assert NoEarlyClose(s, []) && Exec(s, []) == s;
      if !RunnersHoldLocks(s, key) && !IsSealed(s, key) {
        var q :| IsLoose(s, q, key);
        OverlapFollows(s, q, key);
      }
    } else {
      var more :| NoEarlyClose(s, more) && !AtMostOneRuns(Exec(s, more), key);
      if RunnersHoldLocks(s, key) {
        RunnersKeepLocks(s, more, key);
        LockHoldersExclude(Exec(s, more), key);
      } else if IsSealed(s, key) {
        SealedStartsNoHandler(s, more, key);
      }
    }
  }

  /** Beside a loose handler a second one can start unless the key is sealed. */
  lemma OverlapFollows(s: State, q: nat, key: string)
    requires LocksAreOwned(s) && IsLoose(s, q, key) && !IsSealed(s, key)
    ensures !StaysExclusive(s, key)
  {
    hide Apply;
    var more, r := [], 0;
    if r' :| HasMissed(s, r', key) {
      r := r';
      more := MissedCanRun(s, r, key);
    } else {
      var first;
      r, first := NewcomerMisses(s, key);
      var rest := MissedCanRun(Exec(s, first), r, key);
      ExecComposes(s, first, rest);
      more := first + rest;
    }
    assert IsRunning(Exec(s, more), q, key) && IsRunning(Exec(s, more), r, key) && q != r;
  }

  /**
   * In every run in which the response of a key is cached, the handler never runs
   * again if and only if no request that missed before is waiting.
   */
  lemma CachedKeyRunsNoMore(steps: seq<Step>, key: string)
    requires key in Exec(EMPTY, steps).cache
    ensures var s := Exec(EMPTY, steps);
            (forall more, r :: IsRunning(Exec(s, more), r, key) ==> IsRunning(s, r, key)) <==>
            forall r :: !HasMissed(s, r, key)
  {
    hide Apply;
    LocksStayOwned(steps);
    var s := Exec(EMPTY, steps);
    if r :| HasMissed(s, r, key) {
      var more := MissedCanRun(s, r, key);
      assert IsRunning(Exec(s, more), r, key) && !IsRunning(s, r, key);
    } else {
      assert IsSealed(s, key);
      forall more, r | IsRunning(Exec(s, more), r, key)
        ensures IsRunning(s, r, key)
      {
        SealedStartsNoHandler(s, more, key);
      }
    }
  }

  /** Two requests miss, one runs, its connection closes, and the other runs beside it. */
  function EarlyClose(key: string): seq<Step> {
    [Arrive(0, key), Arrive(1, key), ReadCache(0), ReadCache(1), TakeLock(0), Close(0), TakeLock(1)]
  }

  /** Two requests miss, one runs and answers, and the other runs again. */
  function StaleMiss(key: string, body: string): seq<Step> {
    [Arrive(0, key), Arrive(1, key), ReadCache(0), ReadCache(1), TakeLock(0), Respond(0, 200, body), Finish(0),
     TakeLock(1)]
  }

  /** The state of both runs once the first request runs. */
  function FirstRuns(key: string): State {
    State(map[], map[key := 0], map[0 := Request(key, Running, false, false), 1 := Request(key, Missed, false, false)])
  }

  lemma {:induction false} ExecFrom(s: State, front: seq<Step>, rest: seq<Step>)
    ensures Exec(s, front + rest) == Exec(Exec(s, front), rest)
  {
    hide Apply;
    if rest == [] {
      assert front + rest == front;
    } else {
      var n := |rest| - 1;
      ExecFrom(s, front, rest[..n]);
      assert (front + rest)[..|front| + n] == front + rest[..n];
    }
  }

  lemma ExecOne(s: State, step: Step)
    ensures Exec(s, [step]) == Apply(s, step)
  {
    assert [step][..0] == [];
  }

  lemma FirstRunsIsReached(key: string)
    ensures Exec(EMPTY, [Arrive(0, key), Arrive(1, key), ReadCache(0), ReadCache(1), TakeLock(0)]) == FirstRuns(key)
  {
    var q, r := Request(key, Arrived, false, false), Request(key, Missed, false, false);
    assert Apply(EMPTY, Arrive(0, key)) == State(map[], map[], map[0 := q]);
    assert Apply(State(map[], map[], map[0 := q]), Arrive(1, key)) == State(map[], map[], map[0 := q, 1 := q]);
    assert Apply(State(map[], map[], map[0 := q, 1 := q]), ReadCache(0)) == State(map[], map[], map[0 := r, 1 := q]);
    assert Apply(State(map[], map[], map[0 := r, 1 := q]), ReadCache(1)) == State(map[], map[], map[0 := r, 1 := r]);
    assert Apply(State(map[], map[], map[0 := r, 1 := r]), TakeLock(0)) == FirstRuns(key);
    hide Apply, FirstRuns;
    var run := [Arrive(0, key), Arrive(1, key), ReadCache(0), ReadCache(1), TakeLock(0)];
    assert run == [run[0]] + [run[1]] + [run[2]] + [run[3]] + [run[4]];
    ExecOne(EMPTY, run[0]);
    ExecFrom(EMPTY, [run[0]], [run[1]]);
    ExecOne(Exec(EMPTY, [run[0]]), run[1]);
    ExecFrom(EMPTY, [run[0]] + [run[1]], [run[2]]);
    ExecOne(Exec(EMPTY, [run[0]] + [run[1]]), run[2]);
    ExecFrom(EMPTY, [run[0]] + [run[1]] + [run[2]], [run[3]]);
    ExecOne(Exec(EMPTY, [run[0]] + [run[1]] + [run[2]]), run[3]);
    ExecFrom(EMPTY, [run[0]] + [run[1]] + [run[2]] + [run[3]], [run[4]]);
    ExecOne(Exec(EMPTY, [run[0]] + [run[1]] + [run[2]] + [run[3]]), run[4]);
  }

  /** The run with an early close ends with two handlers of one key at work. */
  lemma EarlyCloseLetsTwoRun(key: string)
    ensures var s := Exec(EMPTY, EarlyClose(key)); IsRunning(s, 0, key) && IsRunning(s, 1, key)
  {
    FirstRunsIsReached(key);
    var front := [Arrive(0, key), Arrive(1, key), ReadCache(0), ReadCache(1), TakeLock(0)];
    assert EarlyClose(key) == front + [Close(0)] + [TakeLock(1)];
    ExecFrom(EMPTY, front, [Close(0)]);
    ExecFrom(EMPTY, front + [Close(0)], [TakeLock(1)]);
    ExecOne(FirstRuns(key), Close(0));
    ExecOne(Apply(FirstRuns(key), Close(0)), TakeLock(1));
  }

  /** The run with a stale miss runs the handler although a response is cached. */
  lemma StaleMissRunsAgain(key: string, body: string)
    ensures var s := Exec(EMPTY, StaleMiss(key, body));
            IsRunning(s, 1, key) && 0 in s.requests && s.requests[0].stage.Responded? && key in s.cache
                && s.cache[key] == body
  {
    FirstRunsIsReached(key);
    var front := [Arrive(0, key), Arrive(1, key), ReadCache(0), ReadCache(1), TakeLock(0)];
    var s1 := Apply(FirstRuns(key), Respond(0, 200, body));
    assert StaleMiss(key, body) == front + [Respond(0, 200, body)] + [Finish(0)] + [TakeLock(1)];
    ExecFrom(EMPTY, front, [Respond(0, 200, body)]);
    ExecFrom(EMPTY, front + [Respond(0, 200, body)], [Finish(0)]);
    ExecFrom(EMPTY, front + [Respond(0, 200, body)] + [Finish(0)], [TakeLock(1)]);
    ExecOne(FirstRuns(key), Respond(0, 200, body));
    ExecOne(s1, Finish(0));
    ExecOne(Apply(s1, Finish(0)), TakeLock(1));
  }

  /** A run in which a connection closes while its request waits for the lock, which it then holds. */
  lemma LockIsAbandoned(key: string)
    ensures var s := Exec(EMPTY, [Arrive(0, key), ReadCache(0), Close(0), TakeLock(0)]);
            key in s.locks && s.locks[key] == 0 && 0 in s.requests && s.requests[0].closed
  {
    var run := [Arrive(0, key), ReadCache(0), Close(0), TakeLock(0)];
    assert run == [run[0]] + [run[1]] + [run[2]] + [run[3]];
    ExecOne(EMPTY, run[0]);
    ExecFrom(EMPTY, [run[0]], [run[1]]);
    ExecOne(Exec(EMPTY, [run[0]]), run[1]);
    ExecFrom(EMPTY, [run[0]] + [run[1]], [run[2]]);
    ExecOne(Exec(EMPTY, [run[0]] + [run[1]]), run[2]);
    ExecFrom(EMPTY, [run[0]] + [run[1]] + [run[2]], [run[3]]);
    ExecOne(Exec(EMPTY, [run[0]] + [run[1]] + [run[2]]), run[3]);
    assert Apply(EMPTY, run[0]) == State(map[], map[], map[0 := Request(key, Arrived, false, false)]);
    assert Apply(State(map[], map[], map[0 := Request(key, Arrived, false, false)]), run[1]) ==
           State(map[], map[], map[0 := Request(key, Missed, false, false)]);
  }
}
