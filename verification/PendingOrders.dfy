/**
 * Reuse of pending subscription orders: an order request that runs whole never leaves
 * two open payments of one restaurant and plan within the reuse window.
 */
module PendingOrders {
  import opened Prelude
  import opened Tables
  import opened Commits
  import opened Handlers
  import opened LedgerMachine
  import opened LedgerInvariant
  import opened OrderEvents
  import opened ExampleRuns
  import Prefixes

  /** A plan payment that has not led to a subscription and may still be paid. */
  predicate IsOpen(p: Payment) {
    p.planId.Some? && p.subscriptionId.None? && (p.status == Created || p.status == PaymentStatus.Failed)
  }

  predicate Compete(p: Payment, q: Payment) {
    p.restaurantId == q.restaurantId && p.planId == q.planId && IsOpen(p) && IsOpen(q)
  }

  predicate FarApart(a: Instant, b: Instant) {
    a - b > 15 * 60 * 1000 || b - a > 15 * 60 * 1000
  }

  ghost predicate OpenOrdersAreSpaced(payments: map<string, Payment>) {
    forall j, k :: j in payments && k in payments && j != k && Compete(payments[j], payments[k]) ==>
      FarApart(payments[j].createdAt, payments[k].createdAt)
  }

  /** Prepared creations are food orders: subscription orders run whole. */
  ghost predicate OnlyFoodIsPrepared(s: State) {
    forall c :: c in s.ready && c.CreateTransaction? ==> c.row.orderId.Some?
  }

  lemma NoticeKeepsLinks(db: Store, n: RefundNotice, key: string)
    requires key in db.payments && db.payments[key].subscriptionId.Some?
    ensures var db' := After(db, SyncRefund(db, n)); key in db'.payments && db'.payments[key].subscriptionId.Some?
  {
    hide SyncRefund;
    NoticeWritesRefunds(db, n, key);
  }

  lemma ActivationKeepsLinks(db: Store, a: Activation, choice: ActivationChoice, key: string)
    requires key in db.payments && db.payments[key].subscriptionId.Some?
    ensures var db' := After(db, ActivateSubscription(db, a, choice));
            key in db'.payments && db'.payments[key].subscriptionId.Some?
  {
  }

  /** A payment never loses its subscription. */
  lemma CommitKeepsLinks(db: Store, now: Instant, c: Commit, key: string)
    requires key in db.payments && db.payments[key].subscriptionId.Some?
    ensures var db' := RunCommit(db, now, c); key in db'.payments && db'.payments[key].subscriptionId.Some?
  {
    hide SyncRefund, ActivateSubscription;
    match c
    case RecordRefund(n) => NoticeKeepsLinks(db, n, key);
    case ActivatePlan(a, choice) => ActivationKeepsLinks(db, a, choice, key);
    case _ =>
  }

  /** Where a row of the next state comes from: the same payment, or a creation at the present instant. */
  lemma RowOrigin(s: State, step: Step, key: string)
    requires StateOk(s) && key in Apply(s, step).db.payments
    ensures var p' := Apply(s, step).db.payments[key];
            if key in s.db.payments then
              SameIdentity(s.db.payments[key], p')
                  && (s.db.payments[key].subscriptionId.Some? ==> p'.subscriptionId.Some?)
            else
              && Runs(s, step).Some? && Runs(s, step).value.CreateTransaction?
              && p' == Runs(s, step).value.row.(createdAt := s.clock) && p'.razorpayOrderId == key
              && Apply(s, step).db.payments == s.db.payments[key := p']
  {
    hide StoreOk, CommitOk, Prepare, Apply;
    StepWritesOnce(s, step);
    StepKeepsState(s, step);
    if Runs(s, step).Some? {
      var c := Runs(s, step).value;
      RunsOkCommit(s, step);
      if key in s.db.payments {
        assert SameIdentity(s.db.payments[key], Apply(s, step).db.payments[key]);
        if s.db.payments[key].subscriptionId.Some? {
          CommitKeepsLinks(s.db, s.clock, c, key);
        }
      } else if !c.CreateTransaction? {
        hide RunCommit;
        OnlyCreationAddsPayments(s.db, s.clock, c, key);
      }
    }
  }

  /** A subscription order is created only when no open payment of the window exists. */
  lemma CreationFindsNoOpenOrder(db: Store, now: Instant, r: Request, key: string)
    requires r.CreateSubscriptionOrder? && Prepare(db, now, r).Some? && Prepare(db, now, r).value.CreateTransaction?
    requires var row := Prepare(db, now, r).value.row;
             key in db.payments && IsOpen(db.payments[key])
             && db.payments[key].restaurantId == row.restaurantId && db.payments[key].planId == row.planId
    ensures db.payments[key].createdAt < now - PENDING_ORDER_REUSE_WINDOW_MS
  {
    var row := Prepare(db, now, r).value.row;
    assert key !in ReusableKeys(db.payments, r.restaurantId, r.planId, now);
  }

  lemma OtherCreationsAreFood(db: Store, now: Instant, r: Request)
    requires !r.CreateSubscriptionOrder? && Prepare(db, now, r).Some? && Prepare(db, now, r).value.CreateTransaction?
    ensures Prepare(db, now, r).value.row.orderId.Some?
  {
  }

  lemma PlanPaymentsAreOpen(db: Store, key: string)
    requires StoreOk(db) && key in db.payments
    ensures IsOpen(db.payments[key]) <==> db.payments[key].planId.Some? && db.payments[key].subscriptionId.None?
  {
    assert PaymentOk(db, key, db.payments[key]);
  }

  /** A row that is open after a step and existed before it was open before, with the same identity. */
  lemma OpenWasOpen(s: State, step: Step, key: string)
    requires StateOk(s) && key in s.db.payments && key in Apply(s, step).db.payments
    requires IsOpen(Apply(s, step).db.payments[key])
    ensures IsOpen(s.db.payments[key]) && SameIdentity(s.db.payments[key], Apply(s, step).db.payments[key])
  {
    hide StoreOk, CommitOk, Apply;
    RowOrigin(s, step, key);
    PlanPaymentsAreOpen(s.db, key);
  }

  /** The step creates a payment although a competing open one was created within the reuse window. */
  ghost predicate CreatesClose(s: State, step: Step) {
    && Runs(s, step).Some? && Runs(s, step).value.CreateTransaction?
    && var row := Runs(s, step).value.row;
    && row.razorpayOrderId !in s.db.payments
    && exists k ::
        k in s.db.payments && Compete(s.db.payments[k], row) && !FarApart(s.db.payments[k].createdAt, s.clock)
  }

  /** Without split subscription orders no step does. */
  lemma WholeOrdersAreNotClose(s: State, step: Step)
    requires StateOk(s) && OnlyFoodIsPrepared(s)
    ensures !CreatesClose(s, step)
  {
    hide StateOk, CommitOk, Prepare;
    if CreatesClose(s, step) {
      var row := Runs(s, step).value.row;
      var k :| k in s.db.payments && Compete(s.db.payments[k], row) && !FarApart(s.db.payments[k].createdAt, s.clock);
      if step.Whole? && step.request.CreateSubscriptionOrder? {
        CreationFindsNoOpenOrder(s.db, s.clock, step.request, k);
      } else {
        if step.Whole? {
          OtherCreationsAreFood(s.db, s.clock, step.request);
        }
        RunsOkCommit(s, step);
        NewRowsHaveOneKind(s.db, Runs(s, step).value);
      }
    }
  }

  lemma NewRowsHaveOneKind(db: Store, c: Commit)
    requires CommitOk(db, c) && c.CreateTransaction?
    ensures c.row.orderId.Some? <==> c.row.planId.None?
  {
  }

  /** A step keeps open payments spaced if and only if it creates none too close to a competing one. */
  lemma StepKeepsSpacing(s: State, step: Step)
    requires StateOk(s) && OpenOrdersAreSpaced(s.db.payments)
    ensures OpenOrdersAreSpaced(Apply(s, step).db.payments) <==> !CreatesClose(s, step)
  {
    hide StateOk, CommitOk, Apply, Prepare, FarApart, IsOpen;
    if CreatesClose(s, step) {
      CloseCreationCollides(s, step);
    } else {
      var payments := Apply(s, step).db.payments;
      forall j, k | j in payments && k in payments && j != k && Compete(payments[j], payments[k])
        ensures FarApart(payments[j].createdAt, payments[k].createdAt)
      {
        if j in s.db.payments && k in s.db.payments {
          OpenWasOpen(s, step, j);
          OpenWasOpen(s, step, k);
          assert Compete(s.db.payments[j], s.db.payments[k]);
        } else if k in s.db.payments {
          NewOrderIsSpaced(s, step, j, k);
        } else if j in s.db.payments {
          NewOrderIsSpaced(s, step, k, j);
          FarApartIsSymmetric(payments[k].createdAt, payments[j].createdAt);
        } else {
          RowOrigin(s, step, j);
          RowOrigin(s, step, k);
        }
      }
    }
  }

  lemma NewOrderIsSpaced(s: State, step: Step, j: string, k: string)
    requires StateOk(s) && !CreatesClose(s, step)
    requires var payments := Apply(s, step).db.payments;
             j in payments && k in payments && Compete(payments[j], payments[k])
    requires j !in s.db.payments && k in s.db.payments
    ensures FarApart(Apply(s, step).db.payments[j].createdAt, Apply(s, step).db.payments[k].createdAt)
  {
    hide StateOk, Apply, Prepare, FarApart;
    RowOrigin(s, step, j);
    assert Apply(s, step).db.payments[k] == s.db.payments[k];
    assert Compete(s.db.payments[k], Runs(s, step).value.row);
    FarApartIsSymmetric(s.db.payments[k].createdAt, s.clock);
  }

  lemma CloseCreationCollides(s: State, step: Step)
    requires StateOk(s) && CreatesClose(s, step)
    ensures !OpenOrdersAreSpaced(Apply(s, step).db.payments)
  {
    hide StateOk, Apply, Prepare, FarApart;
    StepWritesOnce(s, step);
    var row := Runs(s, step).value.row;
    var k :| k in s.db.payments && Compete(s.db.payments[k], row) && !FarApart(s.db.payments[k].createdAt, s.clock);
    var payments := Apply(s, step).db.payments;
    assert payments[row.razorpayOrderId] == row.(createdAt := s.clock) && payments[k] == s.db.payments[k];
    assert Compete(payments[k], payments[row.razorpayOrderId]);
  }

  lemma FarApartIsSymmetric(a: Instant, b: Instant)
    ensures FarApart(a, b) == FarApart(b, a)
  {
  }

  /** A subscription order that is interrupted between its query and its insert. */
  predicate SplitsSubscriptionOrder(step: Step) {
    step.Begin? && step.request.CreateSubscriptionOrder?
  }

  lemma StepKeepsFoodOnly(s: State, step: Step)
    requires OnlyFoodIsPrepared(s) && !SplitsSubscriptionOrder(step)
    ensures OnlyFoodIsPrepared(Apply(s, step))
  {
    hide Apply, Prepare, RunCommit;
    forall c | c in Apply(s, step).ready && c.CreateTransaction?
      ensures c.row.orderId.Some?
    {
      ReadyComesFrom(s, step, c);
      if c !in s.ready && step.Begin? {
        OtherCreationsAreFood(s.db, s.clock, step.request);
      }
    }
  }

  /**
   * However failures, resets, activations, refunds and retries interleave: as long as
   * each subscription order runs whole, any two open payments of one restaurant and
   * plan were created more than fifteen minutes apart.
   */
  lemma {:induction false} OpenOrdersStaySpaced(plans: map<Uuid, Plan>, steps: seq<Step>)
    requires forall i :: 0 <= i < |steps| ==> !SplitsSubscriptionOrder(steps[i])
    ensures OpenOrdersAreSpaced(Exec(Initial(plans), steps).db.payments)
    ensures OnlyFoodIsPrepared(Exec(Initial(plans), steps))
  {
    hide StateOk, Apply, SplitsSubscriptionOrder, CreatesClose;
    if steps != [] {
      var n := |steps| - 1;
      var s := Exec(Initial(plans), steps[..n]);
      OpenOrdersStaySpaced(plans, steps[..n]);
      ReachableIsOk(plans, steps[..n]);
      WholeOrdersAreNotClose(s, steps[n]);
      StepKeepsSpacing(s, steps[n]);
      StepKeepsFoodOnly(s, steps[n]);
    }
  }

  ghost predicate SpacedThroughout(plans: map<Uuid, Plan>, steps: seq<Step>) {
    forall n :: 0 <= n <= |steps| ==> OpenOrdersAreSpaced(Exec(Initial(plans), steps[..n]).db.payments)
  }

  ghost predicate NeverCreatesClose(plans: map<Uuid, Plan>, steps: seq<Step>) {
    forall n :: 0 <= n < |steps| ==> !CreatesClose(Exec(Initial(plans), steps[..n]), steps[n])
  }

  /**
   * With requests split at will: open payments are spaced throughout a run if and only
   * if no commit creates one while a competing one is within the window.
   */
  lemma SpacingIsLostByCloseCreations(plans: map<Uuid, Plan>, steps: seq<Step>)
    ensures SpacedThroughout(plans, steps) <==> NeverCreatesClose(plans, steps)
  {
    hide StateOk, Apply, CreatesClose, OpenOrdersAreSpaced, Exec;
    var holds := (front: seq<Step>) => OpenOrdersAreSpaced(Exec(Initial(plans), front).db.payments);
    var breaks := (front: seq<Step>, step: Step) => CreatesClose(Exec(Initial(plans), front), step);
    NoOrders(plans);
    forall front, step | holds(front)
      ensures holds(front + [step]) <==> !breaks(front, step)
    {
      ReachableIsOk(plans, front);
      ExecOneMore(Initial(plans), front, step);
      StepKeepsSpacing(Exec(Initial(plans), front), step);
    }
    Prefixes.ThroughoutUnlessBroken(steps, holds, breaks);
    assert SpacedThroughout(plans, steps) <==> Prefixes.Throughout(steps, holds);
    assert NeverCreatesClose(plans, steps) <==> Prefixes.NeverBreaks(steps, breaks);
  }

  lemma NoOrders(plans: map<Uuid, Plan>)
    ensures OpenOrdersAreSpaced(Exec(Initial(plans), []).db.payments)
  {
  }

  /** Two orders of one restaurant for one plan that both query before either inserts. */
  function TwoOrders(): seq<Step> {
    [Begin(PlanOrder("order_1", None)), Begin(PlanOrder("order_2", None)),
     Finish(PlanCreation("order_1", None)), Finish(PlanCreation("order_2", None))]
  }

  /** A run in which they are created side by side, at the same instant. */
  lemma SplitOrdersCollide()
    ensures !OpenOrdersAreSpaced(Exec(Initial(PLANS), TwoOrders()).db.payments)
  {
    var run := TwoOrders();
    var c, d := PlanCreation("order_1", None), PlanCreation("order_2", None);
    var s0 := Initial(PLANS);
    hide Apply, Prepare;
    ExecFour(s0, run[0], run[1], run[2], run[3]);
    PlanOrderIsPrepared(s0.db, 0, "order_1", None);
    PlanOrderIsPrepared(s0.db, 0, "order_2", None);
    BeginPrepares(s0, run[0].request, c);
    var s1 := Apply(s0, run[0]);
    BeginPrepares(s1, run[1].request, d);
    var s2 := Apply(s1, run[1]);
    assert c in s2.ready && d in s2.ready;
    FinishedCreation(s2, c);
    FinishedCreation(Apply(s2, Finish(c)), d);
    var payments := Exec(s0, run).db.payments;
    assert Compete(payments["order_1"], payments["order_2"]);
  }

  lemma FinishedCreation(s: State, c: Commit)
    requires c in s.ready && c.CreateTransaction? && c.row.razorpayOrderId !in s.db.payments
    ensures var s' := Apply(s, Finish(c));
            && s'.clock == s.clock
            && s'.db.payments == s.db.payments[c.row.razorpayOrderId := c.row.(createdAt := s.clock)]
            && forall d :: d in s.ready && d != c ==> d in s'.ready
  {
    hide NextCommit;
  }
}
