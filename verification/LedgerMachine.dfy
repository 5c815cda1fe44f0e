/**
 * The payment service as a state machine. A request is split where the code awaits:
 * `Begin` does its reads and prepares a commit, `Finish` runs a prepared commit, and
 * any other step may come in between. `Whole` handles a request without interruption.
 * A sweep is split the same way. Steps that the code does not allow change nothing, so
 * a theorem over all step sequences is a theorem over all runs.
 */
module LedgerMachine {
  import opened Prelude
  import opened Tables
  import opened Commits
  import opened Handlers

  /** A sweep of one process between its read and its commit. */
  datatype Sweep = Sweep(now: Instant, found: seq<Uuid>)

  datatype State = State(db: Store, clock: Instant, ready: multiset<Commit>, sweeps: map<nat, Sweep>)

  datatype Step =
    | Tick(elapsed: nat)
    | Begin(request: Request)
    | Finish(commit: Commit)
    | Whole(request: Request)
    | SweepRead(process: nat, now: Instant, found: seq<Uuid>)
    | SweepCommit(process: nat)
    | SweepAbort(process: nat)

  function Initial(plans: map<Uuid, Plan>): State {
    State(Store(plans, map[], map[], map[], map[], []), 0, multiset{}, map[])
  }

  function One(c: Option<Commit>): multiset<Commit> {
    if c.Some? then multiset{c.value} else multiset{}
  }

  /** ACTIVE subscriptions whose period ended before `now`. */
  predicate IsPastDue(s: Subscription, now: Instant) {
    s.status == Active && s.currentPeriodEnd < now
  }

  /** The rows a sweep's query may return, in any order. */
  predicate IsPastDueListing(subscriptions: map<Uuid, Subscription>, now: Instant, found: seq<Uuid>) {
    && (forall i :: 0 <= i < |found| ==> found[i] in subscriptions && IsPastDue(subscriptions[found[i]], now))
    && (forall id :: id in subscriptions && IsPastDue(subscriptions[id], now) ==> id in found)
    && (forall i, j :: 0 <= i < j < |found| ==> found[i] != found[j])
  }

  ghost function Apply(s: State, step: Step): State {
    match step
    case Tick(elapsed) => s.(clock := s.clock + elapsed)
    case Begin(request) => s.(ready := s.ready + One(Prepare(s.db, s.clock, request)))
    case Finish(c) =>
      if c !in s.ready then s
      else s.(db := RunCommit(s.db, s.clock, c), ready := s.ready - multiset{c} + One(NextCommit(s.db, c)))
    case Whole(request) => s.(db := Handle(s.db, s.clock, request))
    case SweepRead(process, now, found) =>
      // `isRunning` makes an overlapping call of the same process return 0.
      if process in s.sweeps || !IsPastDueListing(s.db.subscriptions, now, found) || found == [] then s
      else s.(sweeps := s.sweeps[process := Sweep(now, found)])
    case SweepCommit(process) =>
      if process !in s.sweeps || !Known(s.db, s.sweeps[process].found) then s
      else s.(db := ExpireSubscriptions(s.db, s.sweeps[process].found), sweeps := s.sweeps - {process})
    case SweepAbort(process) => s.(sweeps := s.sweeps - {process})
  }

  predicate Known(db: Store, ids: seq<Uuid>) {
    forall i :: 0 <= i < |ids| ==> ids[i] in db.subscriptions
  }

  /** The state after a run. */
  ghost function Exec(s: State, steps: seq<Step>): State {
    if steps == [] then s else Apply(Exec(s, steps[..|steps| - 1]), steps[|steps| - 1])
  }

  lemma ExecOneMore(s: State, steps: seq<Step>, step: Step)
    ensures Exec(s, steps + [step]) == Apply(Exec(s, steps), step)
  {
    assert (steps + [step])[..|steps|] == steps;
  }

  lemma ExecFour(s: State, a: Step, b: Step, c: Step, d: Step)
    ensures Exec(s, [a, b, c, d]) == Apply(Apply(Apply(Apply(s, a), b), c), d)
  {
    hide Apply;
    ExecOneMore(s, [], a);
    ExecOneMore(s, [a], b);
    ExecOneMore(s, [a, b], c);
    ExecOneMore(s, [a, b, c], d);
    assert [] + [a] == [a] && [a] + [b] == [a, b] && [a, b] + [c] == [a, b, c] && [a, b, c] + [d] == [a, b, c, d];
  }

  /** The commit that a step runs first, if it runs one. */
  function Runs(s: State, step: Step): Option<Commit> {
    match step
    case Finish(c) => if c in s.ready then Some(c) else None
    case Whole(request) => Prepare(s.db, s.clock, request)
    case _ => None
  }

  lemma WholeHandles(s: State, request: Request)
    ensures Apply(s, Whole(request)) == s.(db := Handle(s.db, s.clock, request))
  {
    hide Handle;
  }

  lemma BeginPrepares(s: State, request: Request, c: Commit)
    requires Prepare(s.db, s.clock, request) == Some(c)
    ensures Apply(s, Begin(request)) == s.(ready := s.ready + multiset{c})
  {
    hide Prepare;
  }

  lemma FinishRuns(s: State, c: Commit, others: multiset<Commit>)
    requires s.ready == others + multiset{c}
    ensures Apply(s, Finish(c)) == s.(db := RunCommit(s.db, s.clock, c), ready := others + One(NextCommit(s.db, c)))
  {
    hide Prepare, RunCommit, NextCommit, IsPastDueListing, Handle;
    assert s.ready - multiset{c} == others;
  }

  /** A request handled whole leaves what its own steps leave when nothing comes between them. */
  lemma WholeIsUninterrupted(s: State, request: Request)
    ensures match Prepare(s.db, s.clock, request) {
              case None => Apply(s, Begin(request)) == s == Apply(s, Whole(request))
              case Some(c) =>
                var done := Apply(Apply(s, Begin(request)), Finish(c));
                match NextCommit(s.db, c)
                case None => done == Apply(s, Whole(request))
                case Some(next) => Apply(done, Finish(next)) == Apply(s, Whole(request))
            }
  {
    hide Prepare, RunCommit, NextCommit, IsPastDueListing;
    match Prepare(s.db, s.clock, request)
    case None => assert s.ready + multiset{} == s.ready;
    case Some(c) =>
      var begun := Apply(s, Begin(request));
      assert begun == s.(ready := s.ready + multiset{c});
      FinishRuns(begun, c, s.ready);
      assert s.ready + multiset{} == s.ready;
      if NextCommit(s.db, c).Some? {
        FinishRuns(Apply(begun, Finish(c)), NextCommit(s.db, c).value, s.ready);
        DraftsAreLast(RunCommit(s.db, s.clock, c), s.db, c);
      }
  }

  lemma DraftsAreLast(done: Store, db: Store, c: Commit)
    requires NextCommit(db, c).Some?
    ensures NextCommit(done, NextCommit(db, c).value).None?
  {
  }

  /** Where the prepared commits of the next state come from. */
  lemma ReadyComesFrom(s: State, step: Step, c: Commit)
    requires c in Apply(s, step).ready
    ensures c in s.ready
            || (step.Begin? && Prepare(s.db, s.clock, step.request) == Some(c))
            || (step.Finish? && NextCommit(s.db, step.commit) == Some(c)
                && Apply(s, step).db == RunCommit(s.db, s.clock, step.commit))
  {
    hide Prepare, RunCommit, NextCommit, ExpireSubscriptions, Handle;
  }

  lemma SweepsComeFrom(s: State, step: Step, p: nat)
    requires p in Apply(s, step).sweeps
    ensures Known(s.db, Apply(s, step).sweeps[p].found) || (p in s.sweeps && Apply(s, step).sweeps[p] == s.sweeps[p])
  {
    hide Prepare, RunCommit, NextCommit, ExpireSubscriptions, Handle;
  }
}
