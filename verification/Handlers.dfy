/**
 * What a request handler does before it commits: it reads rows, checks them, changes
 * the loaded entity in memory and prepares one commit. A handler that refuses the
 * request, or has nothing to do, prepares none.
 */
module Handlers {
  import opened Prelude
  import opened Tables
  import opened PaymentEntity
  import opened Commits
  import BillingPeriod

  const PENDING_ORDER_REUSE_WINDOW_MS := 15 * 60 * 1000

  /** A commit a handler has prepared from what it read. */
  datatype Commit =
    | CaptureOrder(entity: Payment, event: OutboxEvent)
    | FailOrder(entity: Payment, event: OutboxEvent)
    | FailPlanPayment(key: string, reason: string)
    | ResetPlanPayment(key: string)
    | ActivatePlan(activation: Activation, choice: ActivationChoice)
    | RefundOrder(entity: Payment, request: RefundRequest)
    | RecordRefund(notice: RefundNotice)
    | CreateTransaction(row: Payment, draft: Option<Uuid>)
    | DraftInvoice(id: Uuid, invoice: Invoice)

  function After<T>(db: Store, txn: Txn<T>): Store {
    if txn.Committed? then txn.db else db
  }

  /** The store after a commit; new rows get `now` as their creation time. */
  ghost function RunCommit(db: Store, now: Instant, c: Commit): Store {
    match c
    case CaptureOrder(entity, event) => After(db, CaptureOrderPayment(db, entity, event))
    case FailOrder(entity, event) => After(db, FailOrderPayment(db, entity, event))
    case FailPlanPayment(key, reason) => After(db, MarkFailed(db, key, reason))
    case ResetPlanPayment(key) => After(db, ResetToCreated(db, key))
    case ActivatePlan(a, choice) => After(db, ActivateSubscription(db, a, choice))
    case RefundOrder(entity, request) => After(db, Commits.ProcessOrderRefund(db, entity, request))
    case RecordRefund(notice) => After(db, SyncRefund(db, notice))
    case CreateTransaction(row, _) => After(db, CreatePayment(db, row.(createdAt := now)))
    case DraftInvoice(id, invoice) => After(db, CreateInvoice(db, id, invoice))
  }

  function DraftOf(row: Payment): Invoice {
    Invoice(row.restaurantId, None, row.razorpayOrderId, row.amountPaise, row.currency, Draft)
  }

  /** The commit that a handler prepares next, after `c` has succeeded on `db`. */
  function NextCommit(db: Store, c: Commit): Option<Commit> {
    if c.CreateTransaction? && c.draft.Some? && c.row.razorpayOrderId !in db.payments then
      Some(DraftInvoice(c.draft.value, DraftOf(c.row)))
    else None
  }

  /** The reply to a refund request: the gateway declines it, or accepts it with a status of its own. */
  datatype GatewayRefund = Declined | Accepted(refundId: string, processed: bool, arn: Option<string>)

  /** A request, with the database's and the gateway's answers to it. */
  datatype Request =
    | CreateOrderPayment(orderId: Uuid, customerId: Uuid, restaurantId: Uuid, amountPaise: int, currency: string,
                         gatewayOrderId: string, latest: Option<string>)
    | VerifyOrderPayment(key: string, orderId: Uuid, customer: Option<Uuid>, paymentId: string, signature: string,
                         signatureValid: bool)
    | PaidWebhook(key: string, gatewayPaymentId: Option<string>, via: Option<string>, choice: ActivationChoice)
    | FailedWebhook(key: string, failure: string)
    | RefundWebhook(notice: RefundNotice)
    | VerifyPayment(key: string, caller: Option<Uuid>, paymentId: string, signature: string, signatureValid: bool,
                    choice: ActivationChoice)
    | ProcessOrderRefund(orderId: Uuid, requested: Option<int>, reason: Option<string>, latest: Option<string>,
                         reply: GatewayRefund)
    | CreateSubscriptionOrder(restaurantId: Uuid, planId: Uuid, gatewayOrderId: string, draft: Option<Uuid>,
                              pending: Option<string>)

  /** `findFirst` by newest creation time among `keys`; ties are the database's choice. */
  predicate IsNewest(payments: map<string, Payment>, keys: set<string>, found: Option<string>)
    requires keys <= payments.Keys
  {
    if found.None? then keys == {}
    else found.value in keys && forall k :: k in keys ==> payments[k].createdAt <= payments[found.value].createdAt
  }

  function KeysOfOrder(payments: map<string, Payment>, orderId: Uuid): (keys: set<string>)
    ensures keys <= payments.Keys
  {
    set k | k in payments && payments[k].orderId == Some(orderId)
  }

  predicate IsReusable(p: Payment, restaurantId: Uuid, planId: Uuid, now: Instant) {
    && p.restaurantId == restaurantId && p.planId == Some(planId) && p.subscriptionId.None?
    && (p.status == Created || p.status == PaymentStatus.Failed)
    && p.createdAt >= now - PENDING_ORDER_REUSE_WINDOW_MS
  }

  function ReusableKeys(payments: map<string, Payment>, restaurantId: Uuid, planId: Uuid,
                        now: Instant): (keys: set<string>)
    ensures keys <= payments.Keys
  {
    set k | k in payments && IsReusable(payments[k], restaurantId, planId, now)
  }

  /** `findActiveByRestaurantId` finds a row, which `isActive` then confirms. */
  predicate HasActiveSubscription(subscriptions: map<Uuid, Subscription>, restaurantId: Uuid, now: Instant) {
    exists id :: id in subscriptions && subscriptions[id].restaurantId == restaurantId
      && subscriptions[id].status == Active && now <= subscriptions[id].currentPeriodEnd
  }

  /** A new row; `CreateTransaction` stamps its creation time when it commits. */
  function NewPayment(key: string, restaurantId: Uuid, planId: Option<Uuid>, orderId: Option<Uuid>,
                      customerId: Option<Uuid>,
                      amountPaise: int, currency: string, metadata: map<string, string>): Payment {
    Payment(key, restaurantId, planId, orderId, customerId, amountPaise, currency, 0,
            None, None, None, Created, None, Some(metadata))
  }

  function ActivationFor(p: Payment, plan: Plan, now: Instant, paymentId: string, signature: string): Activation
    requires p.planId.Some?
  {
    Activation(p.razorpayOrderId, p.restaurantId, p.planId.value, now,
               BillingPeriod.PeriodEnd(plan.billingCycle, now), paymentId, signature)
  }

  /** `a || b` on nullable strings. */
  function Or(a: Option<string>, b: Option<string>): Option<string> {
    if Truthy(a) then a else b
  }

  function PrepareVerifyOrder(db: Store, r: Request): Option<Commit>
    requires r.VerifyOrderPayment?
  {
    if r.key !in db.payments then None
    else
      var p := db.payments[r.key];
      if p.orderId != Some(r.orderId) || OwnershipRefusal(p, r.customer).Some? then None
      else if p.status == Captured || !r.signatureValid then None
      else
        var captured := AfterCapture(p, Given(r.paymentId), Given(r.signature), None);
        if captured.Err? then None
        else Some(CaptureOrder(captured.value, OrderEvent(OrderCaptured, r.orderId, captured.value)))
  }

  /** payment.captured and order.paid */
  function PreparePaidWebhook(db: Store, now: Instant, r: Request): Option<Commit>
    requires r.PaidWebhook?
  {
    if r.key !in db.payments then None
    else
      var p := db.payments[r.key];
      if p.orderId.Some? then
        var resolved := if r.gatewayPaymentId.Some? then r.gatewayPaymentId else p.razorpayPaymentId;
        var captured := AfterCapture(p, if resolved.Some? then Given(resolved.value) else Null, Null,
                                     Some(map["method" := r.via.GetOr(DEFAULT_PAYMENT_METHOD)]));
        if p.status == Captured || captured.Err? then None
        else Some(CaptureOrder(captured.value, OrderEvent(OrderCaptured, p.orderId.value, captured.value)))
      else if p.status == Success && p.subscriptionId.Some? then None
      else if p.planId.None? || p.planId.value !in db.plans then None
      else
        var paymentId := Or(r.gatewayPaymentId, p.razorpayPaymentId).GetOr("");
        Some(ActivatePlan(ActivationFor(p, db.plans[p.planId.value], now, paymentId, ""), r.choice))
  }

  function PrepareFailedWebhook(db: Store, r: Request): Option<Commit>
    requires r.FailedWebhook?
  {
    if r.key !in db.payments then None
    else
      var p := db.payments[r.key];
      if p.status == Success || p.status == Captured then None
      else if p.orderId.Some? then
        var failed := AfterFailure(p, r.failure);
        Some(FailOrder(failed, OrderEvent(OrderFailed, p.orderId.value, failed)))
      else Some(FailPlanPayment(r.key, r.failure))
  }

  function PrepareVerifyPayment(db: Store, now: Instant, r: Request): Option<Commit>
    requires r.VerifyPayment?
  {
    if !r.signatureValid || r.key !in db.payments then None
    else
      var p := db.payments[r.key];
      if r.caller.Some? && p.restaurantId != r.caller.value then None
      else if p.status == Success && p.subscriptionId.Some? then None
      else if p.planId.None? || p.planId.value !in db.plans then None
      else Some(ActivatePlan(ActivationFor(p, db.plans[p.planId.value], now, r.paymentId, r.signature), r.choice))
  }

  function PrepareRefund(db: Store, r: Request): Option<Commit>
    requires r.ProcessOrderRefund?
  {
    if !IsNewest(db.payments, KeysOfOrder(db.payments, r.orderId), r.latest) || r.latest.None? then None
    else
      var p := db.payments[r.latest.value];
      var refunded := AfterRefund(p);
      if RefundRefusal(p, r.requested).Some? || r.reply.Declined? || refunded.Err? then None
      else
        var status := if r.reply.processed then RefundStatus.Processed else RefundStatus.Pending;
        Some(RefundOrder(refunded.value,
          RefundRequest(r.reply.refundId, r.requested.GetOr(p.amountPaise), p.currency, status, r.reason, r.reply.arn,
                        PaymentMethod(p))))
  }

  function PrepareOrder(db: Store, r: Request): Option<Commit>
    requires r.CreateOrderPayment?
  {
    if !IsNewest(db.payments, KeysOfOrder(db.payments, r.orderId), r.latest) then None
    else if r.latest.Some? &&
            var p := db.payments[r.latest.value];
            p.status == Captured || p.status == Success
                || (p.status == Created && p.amountPaise == r.amountPaise) then None
    else Some(CreateTransaction(
      NewPayment(r.gatewayOrderId, r.restaurantId, None, Some(r.orderId), Some(r.customerId), r.amountPaise, r.currency,
                 map[]),
      None))
  }

  function PrepareSubscriptionOrder(db: Store, now: Instant, r: Request): Option<Commit>
    requires r.CreateSubscriptionOrder?
  {
    if r.planId !in db.plans || !db.plans[r.planId].isActive then None
    else if HasActiveSubscription(db.subscriptions, r.restaurantId, now) then None
    else if !IsNewest(db.payments, ReusableKeys(db.payments, r.restaurantId, r.planId, now), r.pending) then None
    else if r.pending.Some? then
      if db.payments[r.pending.value].status == PaymentStatus.Failed then Some(ResetPlanPayment(r.pending.value))
      else None
    else
      var plan := db.plans[r.planId];
      Some(CreateTransaction(
        NewPayment(r.gatewayOrderId, r.restaurantId, Some(r.planId), None, None, plan.pricePaise, plan.currency,
                   map["planCode" := plan.code]),
        r.draft))
  }

  /** The commit a request leads to when its reads see `db` at `now`. */
  function Prepare(db: Store, now: Instant, r: Request): Option<Commit> {
    match r
    case VerifyOrderPayment(_, _, _, _, _, _) => PrepareVerifyOrder(db, r)
    case PaidWebhook(_, _, _, _) => PreparePaidWebhook(db, now, r)
    case FailedWebhook(_, _) => PrepareFailedWebhook(db, r)
    case RefundWebhook(notice) => Some(RecordRefund(notice))
    case VerifyPayment(_, _, _, _, _, _) => PrepareVerifyPayment(db, now, r)
    case ProcessOrderRefund(_, _, _, _, _) => PrepareRefund(db, r)
    case CreateOrderPayment(_, _, _, _, _, _, _) => PrepareOrder(db, r)
    case CreateSubscriptionOrder(_, _, _, _, _) => PrepareSubscriptionOrder(db, now, r)
  }

  /** A request handled from its reads to its last commit with nothing in between. */
  ghost function Handle(db: Store, now: Instant, r: Request): Store {
    match Prepare(db, now, r)
    case None => db
    case Some(c) =>
      var done := RunCommit(db, now, c);
      match NextCommit(db, c)
      case None => done
      case Some(next) => RunCommit(done, now, next)
  }

  lemma RefundNoticesAreSynced(db: Store, now: Instant, n: RefundNotice)
    ensures Handle(db, now, RefundWebhook(n)) == After(db, SyncRefund(db, n))
  {
  }
}
