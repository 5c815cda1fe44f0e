/**
 * Where the rows and events of a run come from: each goes back to a request of the run
 * that was entitled to it, on what that request read, however much came in between.
 */
module RequestOrigins {
  import opened Prelude
  import opened Tables
  import opened Commits
  import opened Handlers
  import opened LedgerMachine
  import opened LedgerInvariant
  import opened OrderEvents
  import opened RequestEffects
  import opened BillingPeriod
  import Calendar

  /** The request that a step begins or handles whole, if it does. */
  function Asked(step: Step): Option<Request> {
    match step
    case Begin(request) => Some(request)
    case Whole(request) => Some(request)
    case _ => None
  }

  /** The state that the n-th step of a run finds. */
  ghost function Before(plans: map<Uuid, Plan>, steps: seq<Step>, n: nat): State
    requires n <= |steps|
  {
    Exec(Initial(plans), steps[..n])
  }

  /** Step `m` of the run read the tables for a request and prepared the commit. */
  ghost predicate PreparesAt(plans: map<Uuid, Plan>, steps: seq<Step>, m: nat, c: Commit) {
    && m < |steps| && Asked(steps[m]).Some?
    && Prepare(Before(plans, steps, m).db, Before(plans, steps, m).clock, Asked(steps[m]).value) == Some(c)
  }

  lemma PreparedEarlier(plans: map<Uuid, Plan>, steps: seq<Step>, n: nat, m: nat, c: Commit)
    requires n <= |steps| && PreparesAt(plans, steps[..n], m, c)
    ensures PreparesAt(plans, steps, m, c) && m < n
  {
    assert steps[..n][..m] == steps[..m];
  }

  /** Every commit under way, but a draft that follows a creation, was prepared by a step of the run. */
  lemma {:induction false} ReadyWasPrepared(plans: map<Uuid, Plan>, steps: seq<Step>, c: Commit)
    requires c in Exec(Initial(plans), steps).ready && !c.DraftInvoice?
    ensures exists m :: PreparesAt(plans, steps, m, c)
  {
    hide Prepare, Apply;
    var n := |steps| - 1;
    var s := Exec(Initial(plans), steps[..n]);
    ReadyComesFrom(s, steps[n], c);
    if c in s.ready {
      ReadyWasPrepared(plans, steps[..n], c);
      var m :| PreparesAt(plans, steps[..n], m, c);
      PreparedEarlier(plans, steps, n, m, c);
    } else if steps[n].Begin? && Prepare(s.db, s.clock, steps[n].request) == Some(c) {
      assert PreparesAt(plans, steps, n, c);
    } else {
      FollowUpsAreDrafts(s.db, steps[n].commit);
    }
  }

  lemma FollowUpsAreDrafts(db: Store, c: Commit)
    requires NextCommit(db, c).Some?
    ensures NextCommit(db, c).value.DraftInvoice?
  {
  }

  /** So was every commit that a step runs, by that step or an earlier one. */
  lemma RunWasPrepared(plans: map<Uuid, Plan>, steps: seq<Step>, n: nat) returns (m: nat)
    requires n < |steps| && Runs(Before(plans, steps, n), steps[n]).Some?
    requires !Runs(Before(plans, steps, n), steps[n]).value.DraftInvoice?
    ensures m <= n && PreparesAt(plans, steps, m, Runs(Before(plans, steps, n), steps[n]).value)
    ensures steps[n].Whole? ==> m == n
  {
    hide Prepare, Apply;
    var c := Runs(Before(plans, steps, n), steps[n]).value;
    if steps[n].Whole? {
      m := n;
    } else {
      ReadyWasPrepared(plans, steps[..n], c);
      m :| PreparesAt(plans, steps[..n], m, c);
      PreparedEarlier(plans, steps, n, m, c);
    }
  }

  /** A payment of an earlier state is still there, for the same order, plan, owner and amount. */
  lemma PaymentsStay(plans: map<Uuid, Plan>, steps: seq<Step>, m: nat, key: string)
    requires m <= |steps| && key in Before(plans, steps, m).db.payments
    ensures var db := Exec(Initial(plans), steps).db;
            && key in db.payments && SameIdentity(Before(plans, steps, m).db.payments[key], db.payments[key])
            && Before(plans, steps, m).db.plans == db.plans
  {
    RunsOnlyExtend(plans, steps, m);
  }

  /** A request that may capture payment `p`: a paid webhook, or a valid verification by the owner of the order. */
  predicate MayCapture(request: Option<Request>, p: Payment) {
    match request
    case Some(PaidWebhook(key, _, _, _)) => key == p.razorpayOrderId
    case Some(VerifyOrderPayment(key, orderId, customer, _, _, valid)) =>
      valid && key == p.razorpayOrderId && p.orderId == Some(orderId) && IsOwner(p, customer)
    case _ => false
  }

  predicate MayFail(request: Option<Request>, p: Payment) {
    match request
    case Some(FailedWebhook(key, _)) => key == p.razorpayOrderId
    case _ => false
  }

  lemma CapturesAreEntitled(db: Store, now: Instant, r: Request)
    requires StoreOk(db) && Prepare(db, now, r).Some?
    ensures var c := Prepare(db, now, r).value;
            && (c.CaptureOrder? ==> c.entity.razorpayOrderId in db.payments
                                    && MayCapture(Some(r), db.payments[c.entity.razorpayOrderId]))
            && (c.FailOrder? ==> c.entity.razorpayOrderId in db.payments
                                 && MayFail(Some(r), db.payments[c.entity.razorpayOrderId]))
  {
    match r
    case VerifyOrderPayment(key, _, _, _, _, _) => assert PaymentOk(db, key, db.payments[key]);
    case PaidWebhook(key, _, _, _) => assert PaymentOk(db, key, db.payments[key]);
    case FailedWebhook(key, _) => assert PaymentOk(db, key, db.payments[key]);
    case _ =>
  }

  /** The order events a step writes are those of the commit it runs. */
  lemma NewOrderEvents(s: State, step: Step, j: nat)
    requires StateOk(s) && |s.db.outbox| <= j < |Apply(s, step).db.outbox|
    requires Apply(s, step).db.outbox[j].payload.OrderPayload?
    ensures Runs(s, step).Some?
    ensures var c := Runs(s, step).value; var e := Apply(s, step).db.outbox[j];
            && (c.CaptureOrder? || c.FailOrder?) && e == c.event && c.entity.razorpayOrderId == e.payload.payment
            && (c.CaptureOrder? <==> e.eventType == OrderCaptured)
  {
    hide StoreOk, Prepare, RunCommit, NextCommit, CommitOk;
    if Runs(s, step).Some? {
      StepHandlesCommit(s, step);
      RunsOkCommit(s, step);
      NewCommitEvents(s.db, s.clock, Runs(s, step).value, j);
    }
  }

  lemma NewCommitEvents(db: Store, now: Instant, c: Commit, j: nat)
    requires CommitOk(db, c) && |db.outbox| <= j < |RunCommit(db, now, c).outbox|
    requires RunCommit(db, now, c).outbox[j].payload.OrderPayload?
    ensures var e := RunCommit(db, now, c).outbox[j];
            && (c.CaptureOrder? || c.FailOrder?) && e == c.event && c.entity.razorpayOrderId == e.payload.payment
            && (c.CaptureOrder? <==> e.eventType == OrderCaptured)
  {
    hide SyncRefund;
    if c.RecordRefund? {
      NoticeWritesRefunds(db, c.notice, "");
    }
  }

  /** A step of the run asked for what the event tells of the payment. */
  ghost predicate IsAskedFor(steps: seq<Step>, e: OutboxEvent, p: Payment) {
    exists m :: 0 <= m < |steps| &&
      if e.eventType == OrderCaptured then MayCapture(Asked(steps[m]), p) else MayFail(Asked(steps[m]), p)
  }

  /**
   * Over all runs: every CAPTURED event goes back to a paid webhook for its payment, or
   * to a verification with a valid signature for its order and by its customer, and
   * every FAILED event to a failure webhook for its payment.
   */
  lemma {:induction false} OrderEventsAreAskedFor(plans: map<Uuid, Plan>, steps: seq<Step>, j: nat)
    requires j < |Exec(Initial(plans), steps).db.outbox|
    requires Exec(Initial(plans), steps).db.outbox[j].payload.OrderPayload?
    ensures var db := Exec(Initial(plans), steps).db; var e := db.outbox[j];
            && e.payload.payment in db.payments
            && IsAskedFor(steps, e, db.payments[e.payload.payment])
  {
    hide Apply, StateOk, Prepare, MayCapture, MayFail;
    var n := |steps| - 1;
    var s, s' := Before(plans, steps, n), Exec(Initial(plans), steps);
    ReachableIsOk(plans, steps[..n]);
    StepKeepsState(s, steps[n]);
    var e := s'.db.outbox[j];
    var key := e.payload.payment;
    if j < |s.db.outbox| {
      assert s.db.outbox[j] == e;
      OrderEventsAreAskedFor(plans, steps[..n], j);
      var m :| 0 <= m < n &&
        if e.eventType == OrderCaptured then MayCapture(Asked(steps[..n][m]), s.db.payments[key])
        else MayFail(Asked(steps[..n][m]), s.db.payments[key]);
      SameIdentityMay(Asked(steps[m]), s.db.payments[key], s'.db.payments[key]);
    } else {
      NewOrderEvents(s, steps[n], j);
      var c := Runs(s, steps[n]).value;
      var m := RunWasPrepared(plans, steps, n);
      ReachableIsOk(plans, steps[..m]);
      assert StoreOk(Before(plans, steps, m).db) by { StateOkHasStore(Before(plans, steps, m)); }
      CapturesAreEntitled(Before(plans, steps, m).db, Before(plans, steps, m).clock, Asked(steps[m]).value);
      PaymentsStay(plans, steps, m, key);
      SameIdentityMay(Asked(steps[m]), Before(plans, steps, m).db.payments[key], s'.db.payments[key]);
    }
  }

  lemma SameIdentityMay(request: Option<Request>, p: Payment, p': Payment)
    requires SameIdentity(p, p')
    ensures MayCapture(request, p) == MayCapture(request, p') && MayFail(request, p) == MayFail(request, p')
  {
  }

  /** A request that may activate payment `p`: the gateway's webhook, or a valid verification for its restaurant. */
  predicate MayActivate(request: Option<Request>, p: Payment) {
    match request
    case Some(PaidWebhook(key, _, _, _)) => key == p.razorpayOrderId
    case Some(VerifyPayment(key, caller, _, _, valid, _)) =>
      valid && key == p.razorpayOrderId && (caller.Some? ==> caller.value == p.restaurantId)
    case _ => false
  }

  lemma ActivationsAreEntitled(db: Store, now: Instant, r: Request)
    requires StoreOk(db) && Prepare(db, now, r).Some? && Prepare(db, now, r).value.ActivatePlan?
    ensures var a := Prepare(db, now, r).value.activation;
            && a.razorpayOrderId in db.payments && MayActivate(Some(r), db.payments[a.razorpayOrderId])
            && a.planId in db.plans && a.periodStart == now
            && a.periodEnd == PeriodEnd(db.plans[a.planId].billingCycle, now)
            && db.payments[a.razorpayOrderId].planId == Some(a.planId)
            && db.payments[a.razorpayOrderId].restaurantId == a.restaurantId
  {
    hide PeriodEnd;
    match r
    case PaidWebhook(key, _, _, _) => assert PaymentOk(db, key, db.payments[key]);
    case VerifyPayment(key, _, _, _, _, _) => assert PaymentOk(db, key, db.payments[key]);
    case _ =>
  }

  /** A subscription that a step adds is the one of the activation it runs. */
  lemma NewSubscriptions(s: State, step: Step, id: Uuid)
    requires StateOk(s) && id !in s.db.subscriptions && id in Apply(s, step).db.subscriptions
    ensures Runs(s, step).Some? && Runs(s, step).value.ActivatePlan?
    ensures var a := Runs(s, step).value.activation; var db' := Apply(s, step).db;
            && db'.subscriptions[id] == Subscription(a.restaurantId, a.planId, Active, a.periodStart, a.periodEnd)
            && a.razorpayOrderId in db'.payments && db'.payments[a.razorpayOrderId].subscriptionId == Some(id)
  {
    hide StoreOk, Prepare, CommitOk, RunCommit, NextCommit, IsPastDueListing;
    if Runs(s, step).Some? {
      StepHandlesCommit(s, step);
      AddedSubscriptions(s.db, s.clock, Runs(s, step).value, id);
    }
  }

  lemma AddedSubscriptions(db: Store, now: Instant, c: Commit, id: Uuid)
    requires id !in db.subscriptions && id in RunCommit(db, now, c).subscriptions
    ensures c.ActivatePlan?
    ensures var a := c.activation; var db' := RunCommit(db, now, c);
            && db'.subscriptions[id] == Subscription(a.restaurantId, a.planId, Active, a.periodStart, a.periodEnd)
            && a.razorpayOrderId in db'.payments && db'.payments[a.razorpayOrderId].subscriptionId == Some(id)
  {
    hide SyncRefund;
    if c.RecordRefund? {
      NoticeWritesRefunds(db, c.notice, "");
    }
  }

  /** The request of step `m` asked for the subscription, of the payment that is linked to it, and read at its start. */
  ghost predicate StartsAt(plans: map<Uuid, Plan>, steps: seq<Step>, m: nat, db: Store, id: Uuid)
    requires m < |steps| && id in db.subscriptions
  {
    var sub := db.subscriptions[id];
    && sub.currentPeriodStart == Before(plans, steps, m).clock
    && exists key ::
        key in db.payments && IsPaidBy(sub, id, db.payments[key]) && MayActivate(Asked(steps[m]), db.payments[key])
  }

  predicate IsPaidBy(sub: Subscription, id: Uuid, p: Payment) {
    p.subscriptionId == Some(id) && p.restaurantId == sub.restaurantId && p.planId == Some(sub.planId)
  }

  /**
   * Over all runs: a subscription that a step adds goes back to a paid webhook, or a valid
   * verification for the restaurant, of the payment that the step links to it. It starts
   * at the clock of that request's read, is ACTIVE, and is for the payment's plan.
   */
  lemma SubscriptionsAreAskedFor(plans: map<Uuid, Plan>, steps: seq<Step>, n: nat, id: Uuid)
    requires n < |steps| && id !in Before(plans, steps, n).db.subscriptions
    requires id in Before(plans, steps, n + 1).db.subscriptions
    ensures Before(plans, steps, n + 1).db.subscriptions[id].status == Active
    ensures var after := Before(plans, steps, n + 1).db;
            exists m :: 0 <= m <= n && StartsAt(plans, steps, m, after, id)
    ensures IsOnePeriod(plans, Before(plans, steps, n + 1).db.subscriptions[id])
  {
    hide Apply, StateOk, Prepare, PeriodEnd, MayActivate;
    var s, s' := Before(plans, steps, n), Before(plans, steps, n + 1);
    assert steps[..n + 1][..n] == steps[..n];
    ReachableIsOk(plans, steps[..n]);
    NewSubscriptions(s, steps[n], id);
    var a := Runs(s, steps[n]).value.activation;
    var m := RunWasPrepared(plans, steps, n);
    var read := Before(plans, steps, m);
    ReachableIsOk(plans, steps[..m]);
    assert StoreOk(read.db) by { StateOkHasStore(read); }
    ActivationsAreEntitled(read.db, read.clock, Asked(steps[m]).value);
    assert steps[..n + 1][..m] == steps[..m];
    PaymentsStay(plans, steps[..n + 1], m, a.razorpayOrderId);
    SameIdentityActivates(Asked(steps[m]), read.db.payments[a.razorpayOrderId], s'.db.payments[a.razorpayOrderId]);
    PlansStay(plans, steps[..m]);
    assert IsPaidBy(s'.db.subscriptions[id], id, s'.db.payments[a.razorpayOrderId]);
    assert StartsAt(plans, steps, m, s'.db, id);
  }

  lemma SameIdentityActivates(request: Option<Request>, p: Payment, p': Payment)
    requires SameIdentity(p, p')
    ensures MayActivate(request, p) == MayActivate(request, p')
  {
  }

  lemma PlansStay(plans: map<Uuid, Plan>, steps: seq<Step>)
    ensures Exec(Initial(plans), steps).db.plans == plans
  {
    RunsOnlyExtend(plans, steps, 0);
    assert steps[..0] == [];
  }

  /** The subscription lasts one billing period of its plan. */
  predicate IsOnePeriod(plans: map<Uuid, Plan>, sub: Subscription) {
    sub.planId in plans && sub.currentPeriodEnd == PeriodEnd(plans[sub.planId].billingCycle, sub.currentPeriodStart)
  }

  /** Over all runs, every subscription lasts exactly one billing period of its plan. */
  lemma {:induction false} SubscriptionsLastAPeriod(plans: map<Uuid, Plan>, steps: seq<Step>, id: Uuid)
    requires id in Exec(Initial(plans), steps).db.subscriptions
    ensures IsOnePeriod(plans, Exec(Initial(plans), steps).db.subscriptions[id])
  {
    hide Apply, StateOk, PeriodEnd;
    var n := |steps| - 1;
    var s := Before(plans, steps, n);
    assert steps[..n + 1] == steps;
    ReachableIsOk(plans, steps[..n]);
    StepKeepsState(s, steps[n]);
    if id in s.db.subscriptions {
      SubscriptionsLastAPeriod(plans, steps[..n], id);
      assert SameTerms(s.db.subscriptions[id], Exec(Initial(plans), steps).db.subscriptions[id]);
    } else {
      SubscriptionsAreAskedFor(plans, steps, n, id);
    }
  }

  /** That is the length of the month a monthly subscription starts in, or the year ahead of a yearly one. */
  lemma SubscriptionLengths(plans: map<Uuid, Plan>, steps: seq<Step>, id: Uuid)
    requires id in Exec(Initial(plans), steps).db.subscriptions
    ensures var sub := Exec(Initial(plans), steps).db.subscriptions[id];
            var start := Calendar.Day(sub.currentPeriodStart);
            var y, m := Calendar.YearFromDay(start), Calendar.MonthFromDay(start);
            && sub.planId in plans
            && (sub.currentPeriodEnd - sub.currentPeriodStart ==
                Calendar.MS_PER_DAY * match plans[sub.planId].billingCycle
                                      case Monthly => Calendar.DaysInMonth(y, m)
                                      case Yearly => if Calendar.Leap(if m <= 1 then y else y + 1) then 366 else 365)
  {
    hide PeriodEnd, Exec, Calendar.YearFromDay, Calendar.MonthFromDay, Calendar.DaysInMonth, Calendar.Leap;
    SubscriptionsLastAPeriod(plans, steps, id);
    var sub := Exec(Initial(plans), steps).db.subscriptions[id];
    MonthlyPeriodLength(sub.currentPeriodStart);
    YearlyPeriodLength(sub.currentPeriodStart);
  }

  /** The request, or the gateway's answer to it, says that the refund has the status. */
  predicate SaysOfRefund(request: Option<Request>, id: string, status: RefundStatus) {
    match request
    case Some(ProcessOrderRefund(_, _, _, _, Accepted(refundId, processed, _))) =>
      refundId == id && status == if processed then Processed else RefundStatus.Pending
    case Some(RefundWebhook(notice)) => notice.razorpayRefundId == id && notice.status == status
    case _ => false
  }

  lemma RefundsAreReported(db: Store, now: Instant, r: Request)
    requires Prepare(db, now, r).Some?
    ensures var c := Prepare(db, now, r).value;
            && (c.RefundOrder? ==> SaysOfRefund(Some(r), c.request.razorpayRefundId, c.request.status))
            && (c.RecordRefund? ==> SaysOfRefund(Some(r), c.notice.razorpayRefundId, c.notice.status))
  {
  }

  /** The refund rows whose status a commit writes. */
  lemma NewRefundStatus(db: Store, now: Instant, c: Commit, id: string)
    requires id in RunCommit(db, now, c).refunds
    ensures var status := RunCommit(db, now, c).refunds[id].status;
            || (id in db.refunds && db.refunds[id].status == status)
            || (c.RefundOrder? && c.request.razorpayRefundId == id && c.request.status == status)
            || (c.RecordRefund? && c.notice.razorpayRefundId == id && c.notice.status == status)
  {
    hide SyncRefund;
    if c.RecordRefund? {
      NoticeStatus(db, c.notice, id);
    }
  }

  lemma NoticeStatus(db: Store, n: RefundNotice, id: string)
    requires id in After(db, SyncRefund(db, n)).refunds
    ensures var status := After(db, SyncRefund(db, n)).refunds[id].status;
            (id in db.refunds && db.refunds[id].status == status) || (n.razorpayRefundId == id && n.status == status)
  {
    hide MarkPaymentRefunded, FindByPaymentId;
    forall store: Store, key | key in store.payments
      ensures MarkPaymentRefunded(store, key).refunds == store.refunds
    {
      MarkingKeepsRefunds(store, key);
    }
  }

  lemma MarkingKeepsRefunds(db: Store, key: string)
    requires key in db.payments
    ensures MarkPaymentRefunded(db, key).refunds == db.refunds
  {
  }

  /** Over all runs, every refund has a status that the gateway has reported of it, in a reply or a webhook. */
  lemma {:induction false} RefundStatusIsReported(plans: map<Uuid, Plan>, steps: seq<Step>, id: string)
    requires id in Exec(Initial(plans), steps).db.refunds
    ensures exists m :: 0 <= m < |steps|
              && SaysOfRefund(Asked(steps[m]), id, Exec(Initial(plans), steps).db.refunds[id].status)
  {
    hide Apply, Prepare, RunCommit, SaysOfRefund;
    var n := |steps| - 1;
    var s := Before(plans, steps, n);
    var status := Exec(Initial(plans), steps).db.refunds[id].status;
    RefundStepEffect(s, steps[n]);
    if id in s.db.refunds && s.db.refunds[id].status == status {
      RefundStatusIsReported(plans, steps[..n], id);
      var m :| 0 <= m < n && SaysOfRefund(Asked(steps[..n][m]), id, status);
      assert steps[m] == steps[..n][m];
    } else {
      NewRefundStatus(s.db, s.clock, Runs(s, steps[n]).value, id);
      var m := RunWasPrepared(plans, steps, n);
      RefundsAreReported(Before(plans, steps, m).db, Before(plans, steps, m).clock, Asked(steps[m]).value);
    }
  }

  lemma RefundStepEffect(s: State, step: Step)
    ensures Runs(s, step).None? ==> Apply(s, step).db.refunds == s.db.refunds
    ensures Runs(s, step).Some? ==> Apply(s, step).db.refunds == RunCommit(s.db, s.clock, Runs(s, step).value).refunds
  {
    hide Prepare, RunCommit, NextCommit, IsPastDueListing;
    if Runs(s, step).Some? {
      StepHandlesCommit(s, step);
    }
  }

  /** The request of step `m` asked for payment `p`, at a price and a time at which it could. */
  ghost predicate AsksForPayment(plans: map<Uuid, Plan>, steps: seq<Step>, m: nat, p: Payment)
    requires m < |steps|
  {
    match Asked(steps[m])
    case Some(CreateOrderPayment(orderId, customerId, restaurantId, amountPaise, currency, gatewayOrderId, _)) =>
      && p.razorpayOrderId == gatewayOrderId && p.orderId == Some(orderId) && p.customerId == Some(customerId)
      && p.planId.None? && p.restaurantId == restaurantId && p.amountPaise == amountPaise && p.currency == currency
    case Some(CreateSubscriptionOrder(restaurantId, planId, gatewayOrderId, _, _)) =>
      && p.razorpayOrderId == gatewayOrderId && p.orderId.None? && p.customerId.None? && p.planId == Some(planId)
      && planId in plans && plans[planId].isActive && p.restaurantId == restaurantId
      && p.amountPaise == plans[planId].pricePaise && p.currency == plans[planId].currency
      && NoneIsActive(Before(plans, steps, m).db, restaurantId, Before(plans, steps, m).clock)
    case _ => false
  }

  lemma CreationsAreEntitled(plans: map<Uuid, Plan>, steps: seq<Step>, m: nat, c: Commit, createdAt: Instant)
    requires PreparesAt(plans, steps, m, c) && c.CreateTransaction?
    ensures AsksForPayment(plans, steps, m, c.row.(createdAt := createdAt))
  {
    PlansStay(plans, steps[..m]);
    var s := Before(plans, steps, m);
    match Asked(steps[m]).value
    case CreateSubscriptionOrder(restaurantId, _, _, _, _) =>
      assert NoneIsActive(s.db, restaurantId, s.clock) <==>
             !HasActiveSubscription(s.db.subscriptions, restaurantId, s.clock);
    case _ =>
  }

  /** A payment that a step adds goes back to a request for it, in the same step if that handles a request whole. */
  lemma NewPaymentIsAskedFor(plans: map<Uuid, Plan>, steps: seq<Step>, n: nat, key: string) returns (m: nat)
    requires n < |steps| && key !in Before(plans, steps, n).db.payments
    requires key in Before(plans, steps, n + 1).db.payments
    ensures m <= n && (steps[n].Whole? ==> m == n)
    ensures AsksForPayment(plans, steps, m, Before(plans, steps, n + 1).db.payments[key])
  {
    hide Apply, Prepare, RunCommit, StateOk, CommitOk;
    var s := Before(plans, steps, n);
    assert steps[..n + 1][..n] == steps[..n];
    ReachableIsOk(plans, steps[..n]);
    StepWritesOnce(s, steps[n]);
    RunsOkCommit(s, steps[n]);
    var c := Runs(s, steps[n]).value;
    NewPayments(s.db, s.clock, c, key);
    m := RunWasPrepared(plans, steps, n);
    CreationsAreEntitled(plans, steps, m, c, s.clock);
  }

  /**
   * Over all runs: a plan payment that a request handled whole adds finds no active
   * subscription of its restaurant at the moment it is added.
   */
  lemma WholePlanOrdersFindNoneActive(plans: map<Uuid, Plan>, steps: seq<Step>, n: nat, key: string)
    requires n < |steps| && steps[n].Whole? && key !in Before(plans, steps, n).db.payments
    requires key in Before(plans, steps, n + 1).db.payments
    requires Before(plans, steps, n + 1).db.payments[key].planId.Some?
    ensures var s := Before(plans, steps, n);
            NoneIsActive(s.db, Before(plans, steps, n + 1).db.payments[key].restaurantId, s.clock)
  {
    hide Exec, NoneIsActive;
    var m := NewPaymentIsAskedFor(plans, steps, n, key);
  }

  /**
   * Over all runs: every payment goes back to a request for it, with the order's amount
   * or the price of an active plan, and a plan payment to one that found no active
   * subscription of its restaurant when it read.
   */
  lemma {:induction false} PaymentsAreAskedFor(plans: map<Uuid, Plan>, steps: seq<Step>, key: string)
    requires key in Exec(Initial(plans), steps).db.payments
    ensures exists m ::
            0 <= m < |steps| && AsksForPayment(plans, steps, m, Exec(Initial(plans), steps).db.payments[key])
  {
    hide Apply, Prepare, RunCommit, StateOk, CommitOk;
    var n := |steps| - 1;
    var s, s' := Before(plans, steps, n), Exec(Initial(plans), steps);
    assert steps[..n + 1] == steps;
    if key in s.db.payments {
      ReachableIsOk(plans, steps[..n]);
      StepKeepsState(s, steps[n]);
      PaymentsAreAskedFor(plans, steps[..n], key);
      var m :| 0 <= m < n && AsksForPayment(plans, steps[..n], m, s.db.payments[key]);
      assert steps[..n][..m] == steps[..m] && steps[..n][m] == steps[m];
      SameIdentityIsAskedFor(plans, steps, m, s.db.payments[key], s'.db.payments[key]);
    } else {
      var m := NewPaymentIsAskedFor(plans, steps, n, key);
    }
  }

  lemma NewPayments(db: Store, now: Instant, c: Commit, key: string)
    requires StoreOk(db) && CommitOk(db, c) && key !in db.payments && key in RunCommit(db, now, c).payments
    ensures c.CreateTransaction? && RunCommit(db, now, c).payments[key] == c.row.(createdAt := now)
  {
    if !c.CreateTransaction? {
      OnlyCreationAddsPayments(db, now, c, key);
    }
  }

  lemma SameIdentityIsAskedFor(plans: map<Uuid, Plan>, steps: seq<Step>, m: nat, p: Payment, p': Payment)
    requires m < |steps| && SameIdentity(p, p')
    ensures AsksForPayment(plans, steps, m, p) == AsksForPayment(plans, steps, m, p')
  {
  }
}
