/**
 * The expiry sweep: what it writes, why no reader notices it, and the events of a
 * subscription's life over runs of activations and sweeps.
 */
module SubscriptionExpiry {
  import opened Prelude
  import opened Tables
  import opened Commits
  import opened Handlers
  import opened LedgerMachine
  import opened LedgerInvariant
  import OrderEvents
  import opened ExampleRuns
  import Prefixes

  class PaymentSubscriptionExpiryService {
    const db: Database
    var isRunning: bool

    constructor (db: Database)
      ensures this.db == db && !isRunning
    {
      this.db := db;
      isRunning := false;
    }

    /**
     * One sweep. `found` is what the query for past-due subscriptions returns; `fails`
     * is whether the database fails the transaction, whose error is passed on.
     */
    method ExpirePastDueSubscriptions(now: Instant, found: seq<Uuid>, fails: bool) returns (r: Result<nat, DomainError>)
      requires IsPastDueListing(db.subscriptions, now, found)
      modifies this`isRunning, db
      ensures old(isRunning) ==> r == Ok(0) && isRunning && db.Contents() == old(db.Contents())
      ensures !old(isRunning) ==>
                var failed := fails && found != [];
                && !isRunning && r == (if failed then Err(DatabaseFailure) else Ok(|found|))
                && db.Contents() ==
                   if failed then old(db.Contents()) else ExpireSubscriptions(old(db.Contents()), found)
    {
      if isRunning {
        return Ok(0);
      }
      isRunning := true;
      if |found| == 0 {
        assert db.Contents() == ExpireSubscriptions(db.Contents(), found) by { NothingExpires(db.Contents()); }
        isRunning := false;
        return Ok(0);
      }
      var before := db.Contents();
      db.subscriptions := map id | id in db.subscriptions ::
        if id in found then db.subscriptions[id].(status := Expired) else db.subscriptions[id];
      for i := 0 to |found|
        invariant isRunning && db.subscriptions == SetExpired(before.subscriptions, found)
        invariant db.payments == before.payments && db.invoices == before.invoices && db.refunds == before.refunds
        invariant db.outbox == before.outbox + ExpiredEvents(before, found)[..i]
      {
        db.outbox := db.outbox + [ExpiredEvent(before, found[i])];
      }
      assert ExpiredEvents(before, found)[..|found|] == ExpiredEvents(before, found);
      if fails {
        db.Rollback(before);
      }
      isRunning := false;
      return if fails then Err(DatabaseFailure) else Ok(|found|);
    }
  }

  lemma NothingExpires(db: Store)
    ensures ExpireSubscriptions(db, []) == db
  {
    assert SetExpired(db.subscriptions, []) == db.subscriptions;
    assert db.outbox + ExpiredEvents(db, []) == db.outbox;
  }

  /** `Subscription.isActive` at an instant. */
  predicate IsActive(s: Subscription, at: Instant) {
    s.status == Active && at <= s.currentPeriodEnd
  }

  /** What `findActiveByRestaurantId` may return at an instant: a live row that ends last. */
  predicate IsActiveAnswer(subscriptions: map<Uuid, Subscription>, restaurantId: Uuid, at: Instant,
                           found: Option<Uuid>) {
    if found.None? then
      forall id ::
          id in subscriptions && subscriptions[id].restaurantId == restaurantId ==> !IsActive(subscriptions[id], at)
    else
      && found.value in subscriptions
      && subscriptions[found.value].restaurantId == restaurantId && IsActive(subscriptions[found.value], at)
      && forall id ::
          id in subscriptions && subscriptions[id].restaurantId == restaurantId && IsActive(subscriptions[id], at) ==>
           subscriptions[id].currentPeriodEnd <= subscriptions[found.value].currentPeriodEnd
  }

  /** Expiring periods that ended before `now` changes no answer given at `now` or later. */
  lemma ExpiryIsInvisible(subscriptions: map<Uuid, Subscription>, ids: seq<Uuid>, now: Instant, restaurantId: Uuid,
                          at: Instant,
                          found: Option<Uuid>)
    requires forall i :: 0 <= i < |ids| ==> ids[i] in subscriptions && subscriptions[ids[i]].currentPeriodEnd < now
    requires now <= at
    ensures IsActiveAnswer(subscriptions, restaurantId, at, found) <==>
            IsActiveAnswer(SetExpired(subscriptions, ids), restaurantId, at, found)
    ensures found.Some? && IsActiveAnswer(subscriptions, restaurantId, at, found) ==>
              SetExpired(subscriptions, ids)[found.value] == subscriptions[found.value]
  {
    var after := SetExpired(subscriptions, ids);
    forall id | id in subscriptions
      ensures id in after && after[id].restaurantId == subscriptions[id].restaurantId
      ensures after[id].currentPeriodEnd == subscriptions[id].currentPeriodEnd
      ensures IsActive(subscriptions[id], at) <==> IsActive(after[id], at)
      ensures IsActive(subscriptions[id], at) ==> after[id] == subscriptions[id]
    {
    }
    assert forall id :: id in after ==> id in subscriptions;
  }

  /**
   * A sweep at `now` leaves as ACTIVE only what `isActive` calls active, changes no
   * later answer of the active-subscription query, and has nothing left to do at `now`.
   */
  lemma SweepIsInvisible(db: Store, now: Instant, swept: seq<Uuid>, restaurantId: Uuid, at: Instant,
                         found: Option<Uuid>, again: seq<Uuid>)
    requires IsPastDueListing(db.subscriptions, now, swept) && now <= at
    ensures var after := ExpireSubscriptions(db, swept).subscriptions;
            && (forall id :: id in after && after[id].status == Active ==> IsActive(after[id], now))
            && (IsActiveAnswer(db.subscriptions, restaurantId, at, found) <==>
                IsActiveAnswer(after, restaurantId, at, found))
            && (IsPastDueListing(after, now, again) <==> again == [])
  {
    ExpiryIsInvisible(db.subscriptions, swept, now, restaurantId, at, found);
    var after := ExpireSubscriptions(db, swept).subscriptions;
    forall id | id in after && after[id].status == Active
      ensures IsActive(after[id], now)
    {
      assert id !in swept;
    }
    if again != [] {
      assert again[0] in after ==> !IsPastDue(after[again[0]], now);
    }
  }

  /** Every prepared sweep holds subscriptions that ended before its own instant. */
  ghost predicate SweepsHoldEnded(s: State) {
    forall p, i :: p in s.sweeps && 0 <= i < |s.sweeps[p].found| ==>
      && s.sweeps[p].found[i] in s.db.subscriptions
      && s.db.subscriptions[s.sweeps[p].found[i]].currentPeriodEnd < s.sweeps[p].now
  }

  lemma SweepOrigin(s: State, step: Step, p: nat)
    requires p in Apply(s, step).sweeps
    ensures (p in s.sweeps && Apply(s, step).sweeps[p] == s.sweeps[p])
            || (p !in s.sweeps && step.SweepRead? && step.process == p
                && Apply(s, step).sweeps[p] == Sweep(step.now, step.found)
                && IsPastDueListing(s.db.subscriptions, step.now, step.found))
  {
    hide Prepare, RunCommit, NextCommit, ExpireSubscriptions, Handle;
  }

  lemma {:induction false} SweepsStayEnded(plans: map<Uuid, Plan>, steps: seq<Step>)
    ensures SweepsHoldEnded(Exec(Initial(plans), steps))
  {
    hide StateOk, Apply;
    if steps != [] {
      var n := |steps| - 1;
      var s := Exec(Initial(plans), steps[..n]);
      var s' := Apply(s, steps[n]);
      SweepsStayEnded(plans, steps[..n]);
      ReachableIsOk(plans, steps[..n]);
      StepKeepsState(s, steps[n]);
      forall p, i | p in s'.sweeps && 0 <= i < |s'.sweeps[p].found|
        ensures s'.sweeps[p].found[i] in s'.db.subscriptions
                && s'.db.subscriptions[s'.sweeps[p].found[i]].currentPeriodEnd < s'.sweeps[p].now
      {
        SweepOrigin(s, steps[n], p);
        var id := s'.sweeps[p].found[i];
        assert id in s.db.subscriptions && s.db.subscriptions[id].currentPeriodEnd < s'.sweeps[p].now;
        assert SameTerms(s.db.subscriptions[id], s'.db.subscriptions[id]);
      }
    }
  }

  /**
   * In any run, with any number of processes sweeping and anything happening between
   * a sweep's read and its commit, the commit changes no answer at its instant or later.
   */
  lemma SweepCommitIsInvisible(plans: map<Uuid, Plan>, steps: seq<Step>, p: nat, restaurantId: Uuid, at: Instant,
                               found: Option<Uuid>)
    requires var s := Exec(Initial(plans), steps); p in s.sweeps && s.sweeps[p].now <= at
    ensures var s := Exec(Initial(plans), steps);
            IsActiveAnswer(s.db.subscriptions, restaurantId, at, found) <==>
            IsActiveAnswer(Apply(s, SweepCommit(p)).db.subscriptions, restaurantId, at, found)
  {
    var s := Exec(Initial(plans), steps);
    SweepsStayEnded(plans, steps);
    ExpiryIsInvisible(s.db.subscriptions, s.sweeps[p].found, s.sweeps[p].now, restaurantId, at, found);
  }

  predicate IsEventOf(e: OutboxEvent, id: Uuid) {
    e.payload.SubscriptionPayload? && e.payload.subscriptionId == id
  }

  /** The types of the events of one subscription, oldest first. */
  function SubscriptionLog(outbox: seq<OutboxEvent>, id: Uuid): seq<EventType> {
    if outbox == [] then []
    else
      var n := |outbox| - 1;
      SubscriptionLog(outbox[..n], id) + if IsEventOf(outbox[n], id) then [outbox[n].eventType] else []
  }

  lemma SubscriptionLogGrows(outbox: seq<OutboxEvent>, e: OutboxEvent, id: Uuid)
    ensures SubscriptionLog(outbox + [e], id) ==
            SubscriptionLog(outbox, id) + if IsEventOf(e, id) then [e.eventType] else []
  {
    assert (outbox + [e])[..|outbox|] == outbox;
  }

  lemma {:induction false} UnknownSubscriptionsAreSilent(db: Store, outbox: seq<OutboxEvent>, id: Uuid)
    requires id !in db.subscriptions && forall i :: 0 <= i < |outbox| ==> EventOk(db, outbox[i])
    ensures SubscriptionLog(outbox, id) == []
  {
    if outbox != [] {
      assert EventOk(db, outbox[|outbox| - 1]);
      UnknownSubscriptionsAreSilent(db, outbox[..|outbox| - 1], id);
    }
  }

  predicate TellsExpiry(e: OutboxEvent, id: Uuid) {
    e.eventType == SubscriptionExpired && e.payload.SubscriptionPayload? && e.payload.subscriptionId == id
  }

  lemma {:induction false} ExpiriesLogEachOnce(outbox: seq<OutboxEvent>, events: seq<OutboxEvent>, ids: seq<Uuid>,
                                               id: Uuid)
    requires |events| == |ids| && forall i :: 0 <= i < |ids| ==> TellsExpiry(events[i], ids[i])
    requires forall i, j :: 0 <= i < j < |ids| ==> ids[i] != ids[j]
    ensures SubscriptionLog(outbox + events, id) ==
            SubscriptionLog(outbox, id) + if id in ids then [SubscriptionExpired] else []
  {
    hide SubscriptionLog;
    if ids == [] {
      assert outbox + events == outbox;
    } else {
      var n := |ids| - 1;
      ExpiriesLogEachOnce(outbox, events[..n], ids[..n], id);
      assert outbox + events == (outbox + events[..n]) + [events[n]];
      SubscriptionLogGrows(outbox + events[..n], events[n], id);
      assert TellsExpiry(events[n], ids[n]);
      assert ids == ids[..n] + [ids[n]];
    }
  }

  /** A sweep over distinct subscriptions logs each of them once. */
  lemma SweepLogsEachOnce(db: Store, ids: seq<Uuid>, id: Uuid)
    requires Known(db, ids)
    requires forall i, j :: 0 <= i < j < |ids| ==> ids[i] != ids[j]
    ensures SubscriptionLog(ExpireSubscriptions(db, ids).outbox, id) ==
            SubscriptionLog(db.outbox, id) + if id in ids then [SubscriptionExpired] else []
  {
    hide SubscriptionLog;
    ExpiriesLogEachOnce(db.outbox, ExpiredEvents(db, ids), ids, id);
  }

  /** A subscription is activated once, and expired once if at all, later. */
  predicate LifeIsLogged(log: seq<EventType>, s: Subscription) {
    || (log == [SubscriptionActivated] && s.status == Active)
    || (log == [SubscriptionActivated, SubscriptionExpired] && s.status == Expired)
  }

  ghost predicate LivesAreLogged(db: Store) {
    forall id :: id in db.subscriptions ==> LifeIsLogged(SubscriptionLog(db.outbox, id), db.subscriptions[id])
  }

  /** What the one sweeping process has read is still ACTIVE, without duplicates. */
  ghost predicate SweepIsFresh(s: State, process: nat) {
    && s.sweeps.Keys <= {process}
    && (process in s.sweeps ==>
          var found := s.sweeps[process].found;
          && (forall i ::
              0 <= i < |found| ==> found[i] in s.db.subscriptions && s.db.subscriptions[found[i]].status == Active)
          && (forall i, j :: 0 <= i < j < |found| ==> found[i] != found[j]))
  }

  lemma ActivationLogsItsSubscription(db: Store, a: Activation, choice: ActivationChoice)
    requires StoreOk(db) && LivesAreLogged(db)
    ensures var db' := After(db, ActivateSubscription(db, a, choice));
            && LivesAreLogged(db')
            && forall id ::
                id in db.subscriptions ==> id in db'.subscriptions && db'.subscriptions[id] == db.subscriptions[id]
  {
    var db' := After(db, ActivateSubscription(db, a, choice));
    if db' != db {
      forall id | id in db'.subscriptions
        ensures LifeIsLogged(SubscriptionLog(db'.outbox, id), db'.subscriptions[id])
      {
        SubscriptionLogGrows(db.outbox, ActivatedEvent(a, choice.subscription), id);
        if id !in db.subscriptions {
          UnknownSubscriptionsAreSilent(db, db.outbox, id);
        }
      }
    }
  }

  lemma OrderEventsAreNoLife(db: Store, event: OutboxEvent)
    requires LivesAreLogged(db) && event.payload.OrderPayload?
    ensures LivesAreLogged(db.(outbox := db.outbox + [event]))
  {
    forall id | id in db.subscriptions
      ensures LifeIsLogged(SubscriptionLog(db.outbox + [event], id), db.subscriptions[id])
    {
      SubscriptionLogGrows(db.outbox, event, id);
    }
  }

  lemma CommitLogsLives(db: Store, now: Instant, c: Commit)
    requires StoreOk(db) && CommitOk(db, c) && LivesAreLogged(db)
    ensures LivesAreLogged(RunCommit(db, now, c))
    ensures forall id :: id in db.subscriptions ==>
              id in RunCommit(db, now, c).subscriptions
                  && RunCommit(db, now, c).subscriptions[id] == db.subscriptions[id]
  {
    hide StoreOk, SubscriptionLog, SyncRefund, ActivateSubscription;
    match c
    case ActivatePlan(a, choice) => ActivationLogsItsSubscription(db, a, choice);
    case CaptureOrder(_, event) => OrderEventsAreNoLife(db, event);
    case FailOrder(_, event) => OrderEventsAreNoLife(db, event);
    case RecordRefund(n) => NoticeWritesRefunds(db, n, "");
    case _ =>
  }

  lemma SweepLogsLives(db: Store, ids: seq<Uuid>)
    requires LivesAreLogged(db) && Known(db, ids)
    requires forall i :: 0 <= i < |ids| ==> db.subscriptions[ids[i]].status == Active
    requires forall i, j :: 0 <= i < j < |ids| ==> ids[i] != ids[j]
    ensures LivesAreLogged(ExpireSubscriptions(db, ids))
  {
    var db' := ExpireSubscriptions(db, ids);
    forall id | id in db'.subscriptions
      ensures LifeIsLogged(SubscriptionLog(db'.outbox, id), db'.subscriptions[id])
    {
      SweepLogsEachOnce(db, ids, id);
      assert LifeIsLogged(SubscriptionLog(db.outbox, id), db.subscriptions[id]);
    }
  }

  predicate SweepsOnly(step: Step, process: nat) {
    match step
    case SweepRead(p, _, _) => p == process
    case SweepCommit(p) => p == process
    case SweepAbort(p) => p == process
    case _ => true
  }

  /** A step that is no sweep commit adds subscriptions but changes none. */
  lemma StepLogsLives(s: State, step: Step)
    requires StateOk(s) && LivesAreLogged(s.db) && !step.SweepCommit?
    ensures LivesAreLogged(Apply(s, step).db)
    ensures forall id :: id in s.db.subscriptions ==>
              id in Apply(s, step).db.subscriptions && Apply(s, step).db.subscriptions[id] == s.db.subscriptions[id]
  {
    hide StoreOk, CommitOk, Prepare, RunCommit, LivesAreLogged;
    OrderEvents.StepWritesOnce(s, step);
    if Runs(s, step).Some? {
      var c := Runs(s, step).value;
      OrderEvents.RunsOkCommit(s, step);
      CommitLogsLives(s.db, s.clock, c);
      if NextCommit(s.db, c).Some? {
        DraftsLeaveSubscriptions(RunCommit(s.db, s.clock, c), s.clock, s.db, c);
      }
      SameLives(RunCommit(s.db, s.clock, c), Apply(s, step).db);
    }
  }

  lemma DraftsLeaveSubscriptions(done: Store, now: Instant, db: Store, c: Commit)
    requires NextCommit(db, c).Some?
    ensures RunCommit(done, now, NextCommit(db, c).value).subscriptions == done.subscriptions
  {
  }

  lemma SameLives(a: Store, b: Store)
    requires a.subscriptions == b.subscriptions && a.outbox == b.outbox
    ensures LivesAreLogged(a) == LivesAreLogged(b)
  {
  }

  /**
   * With one sweeping process, over all runs: every subscription has exactly one
   * ACTIVATED event, and it is EXPIRED exactly when it also has its one EXPIRED event,
   * which comes later.
   */
  lemma {:induction false} LivesAreLoggedOnce(plans: map<Uuid, Plan>, steps: seq<Step>, process: nat)
    requires forall i :: 0 <= i < |steps| ==> SweepsOnly(steps[i], process)
    ensures LivesAreLogged(Exec(Initial(plans), steps).db)
    ensures SweepIsFresh(Exec(Initial(plans), steps), process)
  {
    hide StateOk, LivesAreLogged, Apply, SweepIsFresh, SweepsOnly;
    if steps == [] {
      NoLives(plans);
      assert SweepIsFresh(Initial(plans), process) by { NoSweeps(plans, process); }
    } else {
      var n := |steps| - 1;
      var s := Exec(Initial(plans), steps[..n]);
      LivesAreLoggedOnce(plans, steps[..n], process);
      ReachableIsOk(plans, steps[..n]);
      StepKeepsLives(s, steps[n], process);
    }
  }

  lemma CommittedSweepKeepsLives(s: State, process: nat)
    requires LivesAreLogged(s.db) && SweepIsFresh(s, process)
    ensures var s' := Apply(s, SweepCommit(process)); LivesAreLogged(s'.db) && SweepIsFresh(s', process)
  {
    hide LivesAreLogged, ExpireSubscriptions;
    if process in s.sweeps {
      SweepLogsLives(s.db, s.sweeps[process].found);
    }
  }

  /** While no sweep commits, what a sweep has read stays as it read it. */
  lemma OtherStepsKeepSweepFresh(s: State, step: Step, process: nat)
    requires SweepIsFresh(s, process) && SweepsOnly(step, process)
    requires forall id :: id in s.db.subscriptions ==>
               id in Apply(s, step).db.subscriptions && Apply(s, step).db.subscriptions[id] == s.db.subscriptions[id]
    ensures SweepIsFresh(Apply(s, step), process)
  {
    hide Apply;
    var s' := Apply(s, step);
    forall p | p in s'.sweeps
      ensures p == process
    {
      SweepOrigin(s, step, p);
    }
    if process in s'.sweeps {
      SweepOrigin(s, step, process);
    }
  }

  lemma StepKeepsLives(s: State, step: Step, process: nat)
    requires StateOk(s) && LivesAreLogged(s.db) && SweepIsFresh(s, process) && SweepsOnly(step, process)
    ensures LivesAreLogged(Apply(s, step).db) && SweepIsFresh(Apply(s, step), process)
  {
    hide StateOk, LivesAreLogged, SweepIsFresh, Apply;
    if step.SweepCommit? {
      CommittedSweepKeepsLives(s, process);
    } else {
      StepLogsLives(s, step);
      OtherStepsKeepSweepFresh(s, step, process);
    }
  }

  lemma NoSweeps(plans: map<Uuid, Plan>, process: nat)
    ensures SweepIsFresh(Initial(plans), process)
  {
  }

  lemma NoLives(plans: map<Uuid, Plan>)
    ensures LivesAreLogged(Initial(plans).db)
  {
  }

  /** No sweep under way holds a subscription twice, and all of them exist. */
  ghost predicate SweepsAreDistinct(s: State) {
    forall p :: p in s.sweeps ==> AreDistinct(s.sweeps[p].found)
  }

  predicate AreDistinct(ids: seq<Uuid>) {
    forall i, j :: 0 <= i < j < |ids| ==> ids[i] != ids[j]
  }

  lemma {:induction false} SweepsStayDistinct(plans: map<Uuid, Plan>, steps: seq<Step>)
    ensures SweepsAreDistinct(Exec(Initial(plans), steps))
  {
    hide Apply, AreDistinct;
    if steps != [] {
      var n := |steps| - 1;
      var s := Exec(Initial(plans), steps[..n]);
      SweepsStayDistinct(plans, steps[..n]);
      forall p | p in Apply(s, steps[n]).sweeps
        ensures AreDistinct(Apply(s, steps[n]).sweeps[p].found)
      {
        SweepOrigin(s, steps[n], p);
        if p !in s.sweeps {
          ListingsAreDistinct(s.db.subscriptions, steps[n].now, steps[n].found);
        }
      }
    }
  }

  lemma ListingsAreDistinct(subscriptions: map<Uuid, Subscription>, now: Instant, found: seq<Uuid>)
    requires IsPastDueListing(subscriptions, now, found)
    ensures AreDistinct(found)
  {
  }

  /** The step commits a sweep that has read a subscription which is no longer ACTIVE. */
  predicate ExpiresAgain(s: State, step: Step) {
    step.SweepCommit? && step.process in s.sweeps && Known(s.db, s.sweeps[step.process].found) &&
    exists i :: 0 <= i < |s.sweeps[step.process].found|
      && s.db.subscriptions[s.sweeps[step.process].found[i]].status != Active
  }

  /**
   * With any number of sweeping processes: a step keeps every subscription's life
   * logged once if and only if it is no sweep commit of one that is not ACTIVE any more.
   */
  lemma StepKeepsLivesLogged(s: State, step: Step)
    requires StateOk(s) && SweepsAreDistinct(s) && LivesAreLogged(s.db)
    ensures LivesAreLogged(Apply(s, step).db) <==> !ExpiresAgain(s, step)
  {
    hide StateOk, LivesAreLogged, ExpireSubscriptions;
    if !step.SweepCommit? {
      StepLogsLives(s, step);
    } else if step.process in s.sweeps && Known(s.db, s.sweeps[step.process].found) {
      var found := s.sweeps[step.process].found;
      assert AreDistinct(found);
      if ExpiresAgain(s, step) {
        var i :| 0 <= i < |found| && s.db.subscriptions[found[i]].status != Active;
        ExpiringAgainLogsAgain(s.db, found, found[i]);
      } else {
        SweepLogsLives(s.db, found);
      }
    }
  }

  lemma ExpiringAgainLogsAgain(db: Store, ids: seq<Uuid>, id: Uuid)
    requires LivesAreLogged(db) && Known(db, ids) && AreDistinct(ids) && id in ids
             && db.subscriptions[id].status != Active
    ensures !LivesAreLogged(ExpireSubscriptions(db, ids))
  {
    hide SubscriptionLog;
    SweepLogsEachOnce(db, ids, id);
    assert LifeIsLogged(SubscriptionLog(db.outbox, id), db.subscriptions[id]);
    assert id in ExpireSubscriptions(db, ids).subscriptions;
  }

  ghost predicate LoggedThroughout(plans: map<Uuid, Plan>, steps: seq<Step>) {
    forall n :: 0 <= n <= |steps| ==> LivesAreLogged(Exec(Initial(plans), steps[..n]).db)
  }

  ghost predicate NeverExpiresAgain(plans: map<Uuid, Plan>, steps: seq<Step>) {
    forall n :: 0 <= n < |steps| ==> !ExpiresAgain(Exec(Initial(plans), steps[..n]), steps[n])
  }

  /**
   * Over all runs of any number of processes: lives are logged once throughout if and
   * only if every sweep that commits finds what it has read still ACTIVE.
   */
  lemma LivesAreLoggedWhileActive(plans: map<Uuid, Plan>, steps: seq<Step>)
    ensures LoggedThroughout(plans, steps) <==> NeverExpiresAgain(plans, steps)
  {
    hide StateOk, Apply, LivesAreLogged, ExpiresAgain, SweepsAreDistinct, Exec;
    var holds := (front: seq<Step>) => LivesAreLogged(Exec(Initial(plans), front).db);
    var breaks := (front: seq<Step>, step: Step) => ExpiresAgain(Exec(Initial(plans), front), step);
    StartsLogged(plans);
    forall front, step | holds(front)
      ensures holds(front + [step]) <==> !breaks(front, step)
    {
      ReachableIsOk(plans, front);
      SweepsStayDistinct(plans, front);
      ExecOneMore(Initial(plans), front, step);
      StepKeepsLivesLogged(Exec(Initial(plans), front), step);
    }
    Prefixes.ThroughoutUnlessBroken(steps, holds, breaks);
    assert LoggedThroughout(plans, steps) <==> Prefixes.Throughout(steps, holds);
    assert NeverExpiresAgain(plans, steps) <==> Prefixes.NeverBreaks(steps, breaks);
  }

  lemma StartsLogged(plans: map<Uuid, Plan>)
    ensures LivesAreLogged(Exec(Initial(plans), []).db)
  {
    NoLives(plans);
  }

  /** Restaurant 3 pays for a plan; two processes find it past due and both sweep it. */
  function TwoSweeps(): seq<Step> {
    var now := PlanActivation().periodEnd + 1;
    [Whole(PlanOrder("order_1", None)), Whole(PlanVerification()),
     SweepRead(0, now, [7]), SweepRead(1, now, [7]), SweepCommit(0), SweepCommit(1)]
  }

  lemma TwoSweepsAreUnderWay()
    ensures var s := Exec(Initial(PLANS), TwoSweeps()[..4]); var sweep := Sweep(PlanActivation().periodEnd + 1, [7]);
            s == State(PaidStore(), 0, multiset{}, map[0 := sweep, 1 := sweep])
  {
    var run := TwoSweeps();
    hide PlanActivation;
    assert run[..4] == [run[0], run[1], run[2], run[3]];
    var s0 := Initial(PLANS);
    var now := PlanActivation().periodEnd + 1;
    ExecFour(s0, run[0], run[1], run[2], run[3]);
    PlanOrderIsPrepared(s0.db, 0, "order_1", None);
    assert Apply(s0, run[0]) == State(OrderedStore(), 0, multiset{}, map[]) by { OrderIsCreated(); }
    PlanVerificationActivates();
    hide Handle, PaidStore, Prepare;
    assert Apply(State(OrderedStore(), 0, multiset{}, map[]), run[1]) == State(PaidStore(), 0, multiset{}, map[]);
    SevenIsPastDue();
    assert Apply(State(PaidStore(), 0, multiset{}, map[]), run[2]) ==
           State(PaidStore(), 0, multiset{}, map[0 := Sweep(now, [7])]);
  }

  lemma OrderIsCreated()
    ensures Handle(Initial(PLANS).db, 0, PlanOrder("order_1", None)) == OrderedStore()
  {
    PlanOrderIsPrepared(Initial(PLANS).db, 0, "order_1", None);
    hide Prepare;
    assert Initial(PLANS).db.payments["order_1" := PlanPayment("order_1")] == OrderedStore().payments;
  }

  lemma SevenIsPastDue()
    ensures IsPastDueListing(PaidStore().subscriptions, PlanActivation().periodEnd + 1, [7])
  {
    hide PlanActivation;
    assert PaidStore().subscriptions == map[7 := Subscription(3, 1, Active, 0, PlanActivation().periodEnd)];
  }

  lemma TwoCommitsLogTwice(s: State, sweep: Sweep)
    requires s.sweeps == map[0 := sweep, 1 := sweep] && sweep.found == [7] && 7 in s.db.subscriptions
    ensures SubscriptionLog(Apply(Apply(s, SweepCommit(0)), SweepCommit(1)).db.outbox, 7) ==
            SubscriptionLog(s.db.outbox, 7) + [SubscriptionExpired] + [SubscriptionExpired]
  {
    hide SubscriptionLog;
    SweepLogsEachOnce(s.db, [7], 7);
    SweepLogsEachOnce(ExpireSubscriptions(s.db, [7]), [7], 7);
  }

  /** A run in which two processes log the expiry of one subscription. */
  lemma TwoProcessesExpireTwice()
    ensures SubscriptionLog(Exec(Initial(PLANS), TwoSweeps()).db.outbox, 7) ==
            [SubscriptionActivated, SubscriptionExpired, SubscriptionExpired]
  {
    hide SubscriptionLog, Exec, Apply, PlanActivation;
    var run := TwoSweeps();
    var sweep := Sweep(PlanActivation().periodEnd + 1, [7]);
    assert run == run[..4] + [SweepCommit(0)] + [SweepCommit(1)];
    ExecOneMore(Initial(PLANS), run[..4], SweepCommit(0));
    ExecOneMore(Initial(PLANS), run[..4] + [SweepCommit(0)], SweepCommit(1));
    TwoSweepsAreUnderWay();
    TwoCommitsLogTwice(Exec(Initial(PLANS), run[..4]), sweep);
    SubscriptionLogGrows([], ActivatedEvent(PlanActivation(), 7), 7);
    assert [] + [ActivatedEvent(PlanActivation(), 7)] == PaidStore().outbox;
    LogStartsEmpty(7);
  }

  lemma LogStartsEmpty(id: Uuid)
    ensures SubscriptionLog([], id) == []
  {
  }
}
