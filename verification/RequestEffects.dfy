/**
 * What each request does to the tables and when, in terms of the rows it is about: which
 * requests write, and exactly which rows they leave. Nothing here refers to how a
 * request is prepared, so the lemmas hold the handlers to it.
 */
module RequestEffects {
  import opened Prelude
  import opened Tables
  import opened Handlers
  import opened BillingPeriod
  import Commits
  import PaymentEntity
  import SubscriptionExpiry

  /** No other payment has the gateway payment id. */
  predicate IsFreeId(payments: map<string, Payment>, key: string, paymentId: Option<string>) {
    paymentId.Some? ==> forall k :: k in payments && k != key ==> payments[k].razorpayPaymentId != paymentId
  }

  predicate IsOwner(p: Payment, customer: Option<Uuid>) {
    p.customerId.None? || customer == p.customerId
  }

  predicate IsOrderOf(db: Store, key: string, orderId: Uuid, customer: Option<Uuid>) {
    key in db.payments && db.payments[key].orderId == Some(orderId) && IsOwner(db.payments[key], customer)
  }

  /** The order event of a food-order payment, as it is written. */
  function NewOrderEvent(eventType: EventType, p: Payment): OutboxEvent
    requires p.orderId.Some?
  {
    OutboxEvent(eventType, p.orderId.value,
                OrderPayload(p.razorpayOrderId, p.orderId.value, p.restaurantId, p.amountPaise, p.currency),
                OutboxStatus.Pending, 0)
  }

  /** `db'` is `db` with the payment captured and its event logged, and nothing else. */
  predicate IsCaptured(db: Store, db': Store, key: string, paymentId: Option<string>, signature: Option<string>,
                       metadata: Option<map<string, string>>)
    requires key in db.payments && db.payments[key].orderId.Some?
  {
    var p := db.payments[key];
    db' == db.(
      payments := db.payments[key := p.(status := Captured, razorpayPaymentId := paymentId,
                                        razorpaySignature := signature, metadata := metadata)],
      outbox := db.outbox + [NewOrderEvent(OrderCaptured, p)])
  }

  /**
   * A verification captures exactly a payment of its order and customer that is neither
   * CAPTURED nor FAILED, with a valid signature and a payment id of its own.
   */
  predicate VerificationCaptures(db: Store, r: Request)
    requires r.VerifyOrderPayment?
  {
    && IsOrderOf(db, r.key, r.orderId, r.customer)
    && db.payments[r.key].status != Captured && db.payments[r.key].status != PaymentStatus.Failed
    && r.signatureValid && IsFreeId(db.payments, r.key, Some(r.paymentId))
  }

  /** What a verification leaves of `db`. */
  predicate VerificationLeaves(db: Store, r: Request, db': Store)
    requires r.VerifyOrderPayment?
  {
    if VerificationCaptures(db, r) then
      IsCaptured(db, db', r.key, Some(r.paymentId),
                 if r.signature != "" then Some(r.signature) else db.payments[r.key].razorpaySignature,
                 db.payments[r.key].metadata)
    else db' == db
  }

  /** What a verification answers, by the first thing that is wrong with it. */
  predicate VerificationAnswers(db: Store, r: Request, answer: Result<Payment, DomainError>)
    requires r.VerifyOrderPayment?
  {
    if r.key !in db.payments || db.payments[r.key].orderId != Some(r.orderId) then answer == Err(PaymentOrderNotFound)
    else if !IsOwner(db.payments[r.key], r.customer) then answer == Err(CustomerUnauthorized)
    else if db.payments[r.key].status == Captured then answer == Ok(db.payments[r.key])
    else if !r.signatureValid then answer == Err(InvalidPaymentSignature)
    else if db.payments[r.key].status == PaymentStatus.Failed then answer == Err(InvalidPaymentStateTransition)
    else if !VerificationCaptures(db, r) then answer == Err(UniqueConstraint)
    else answer.Ok?
  }

  lemma VerificationEffect(db: Store, now: Instant, r: Request)
    requires r.VerifyOrderPayment? && ValidPayments(db.payments)
    ensures VerificationLeaves(db, r, Handle(db, now, r))
  {
  }

  /** The gateway payment id that a paid webhook leaves on a food order. */
  function ReportedId(p: Payment, r: Request): Option<string>
    requires r.PaidWebhook?
  {
    if r.gatewayPaymentId.Some? then r.gatewayPaymentId else p.razorpayPaymentId
  }

  predicate WebhookCaptures(db: Store, r: Request)
    requires r.PaidWebhook?
  {
    && r.key in db.payments && db.payments[r.key].orderId.Some?
    && db.payments[r.key].status != Captured && db.payments[r.key].status != PaymentStatus.Failed
    && IsFreeId(db.payments, r.key, ReportedId(db.payments[r.key], r))
  }

  /** A plan payment, not yet linked, whose plan is known. */
  predicate AwaitsActivation(db: Store, key: string) {
    && key in db.payments && db.payments[key].planId.Some? && db.payments[key].planId.value in db.plans
    && !(db.payments[key].status == Success && db.payments[key].subscriptionId.Some?)
  }

  /** The rows an activation writes can be written. */
  predicate HasRoom(db: Store, key: string, paymentId: string, choice: Commits.ActivationChoice)
    requires key in db.payments
  {
    && (db.payments[key].status == Success || IsFreeId(db.payments, key, Some(paymentId)))
    && choice.subscription !in db.subscriptions && Commits.IsFirstInvoice(db.invoices, key, choice.found)
    && (choice.found.Some? || choice.invoice !in db.invoices)
  }

  /**
   * `db'` is `db` with the payment paid, a new subscription that starts at `start` and
   * lasts a period of the payment's plan, its invoice paid and its event logged.
   */
  predicate HasNewSubscription(db: Store, db': Store, key: string, start: Instant, paymentId: string,
                               signature: string, choice: Commits.ActivationChoice)
    requires AwaitsActivation(db, key) && HasRoom(db, key, paymentId, choice)
  {
    var p := db.payments[key];
    var id, planId := choice.subscription, p.planId.value;
    var end := PeriodEnd(db.plans[planId].billingCycle, start);
    var paid := if p.status == Success then p
                else p.(status := Success, razorpayPaymentId := Some(paymentId), razorpaySignature := Some(signature));
    db' == db.(
      payments := db.payments[key := paid.(subscriptionId := Some(id))],
      subscriptions := db.subscriptions[id := Subscription(p.restaurantId, planId, Active, start, end)],
      invoices :=
        if choice.found.Some? then
          var found := db.invoices[choice.found.value];
          db.invoices[choice.found.value := found.(subscriptionId := Some(id), status := Paid)]
        else db.invoices[choice.invoice := Invoice(p.restaurantId, Some(id), key, p.amountPaise, p.currency, Paid)],
      outbox := db.outbox + [OutboxEvent(SubscriptionActivated, p.restaurantId,
                                         SubscriptionPayload(id, p.restaurantId, end), OutboxStatus.Pending, 0)])
  }

  predicate WebhookActivates(db: Store, r: Request)
    requires r.PaidWebhook?
  {
    && AwaitsActivation(db, r.key) && db.payments[r.key].orderId.None?
    && HasRoom(db, r.key, WebhookPaymentId(db.payments[r.key], r), r.choice)
  }

  function WebhookPaymentId(p: Payment, r: Request): string
    requires r.PaidWebhook?
  {
    if Truthy(r.gatewayPaymentId) then r.gatewayPaymentId.value
    else p.razorpayPaymentId.GetOr("")
  }

  /** What a paid webhook leaves of `db`. */
  predicate PaidWebhookLeaves(db: Store, r: Request, now: Instant, db': Store)
    requires r.PaidWebhook?
  {
    if WebhookCaptures(db, r) then
      var p := db.payments[r.key];
      IsCaptured(db, db', r.key, ReportedId(p, r), p.razorpaySignature,
                 Some(p.metadata.GetOr(map[])["method" := r.via.GetOr("ONLINE")]))
    else if WebhookActivates(db, r) then
      HasNewSubscription(db, db', r.key, now, WebhookPaymentId(db.payments[r.key], r), "", r.choice)
    else db' == db
  }

  lemma PaidWebhookEffect(db: Store, now: Instant, r: Request)
    requires r.PaidWebhook? && ValidPayments(db.payments)
    ensures PaidWebhookLeaves(db, r, now, Handle(db, now, r))
  {
    if r.key in db.payments && db.payments[r.key].orderId.Some? {
      PaidOrderEffect(db, now, r);
    } else {
      PaidPlanEffect(db, now, r);
    }
  }

  lemma PaidOrderEffect(db: Store, now: Instant, r: Request)
    requires r.PaidWebhook? && ValidPayments(db.payments) && r.key in db.payments && db.payments[r.key].orderId.Some?
    ensures PaidWebhookLeaves(db, r, now, Handle(db, now, r))
  {
    var before, via := db.payments[r.key].metadata.GetOr(map[]), r.via.GetOr("ONLINE");
    assert before + map["method" := via] == before["method" := via];
  }

  lemma PaidPlanEffect(db: Store, now: Instant, r: Request)
    requires r.PaidWebhook? && ValidPayments(db.payments)
    requires r.key in db.payments ==> db.payments[r.key].orderId.None?
    ensures PaidWebhookLeaves(db, r, now, Handle(db, now, r))
  {
    hide PeriodEnd;
  }

  /** A plan verification activates with a valid signature, for the payment's restaurant. */
  predicate VerificationActivates(db: Store, r: Request)
    requires r.VerifyPayment?
  {
    && r.signatureValid && AwaitsActivation(db, r.key)
    && (r.caller.Some? ==> r.caller.value == db.payments[r.key].restaurantId)
    && HasRoom(db, r.key, r.paymentId, r.choice)
  }

  predicate PlanVerificationLeaves(db: Store, r: Request, now: Instant, db': Store)
    requires r.VerifyPayment?
  {
    if VerificationActivates(db, r) then HasNewSubscription(db, db', r.key, now, r.paymentId, r.signature, r.choice)
    else db' == db
  }

  /** A valid verification of a payment that has led to a subscription before. */
  predicate WasActivated(db: Store, r: Request)
    requires r.VerifyPayment?
  {
    && r.signatureValid && r.key in db.payments
    && (r.caller.Some? ==> r.caller.value == db.payments[r.key].restaurantId)
    && db.payments[r.key].status == Success && db.payments[r.key].subscriptionId.Some?
  }

  /** Why an activation that has no room fails. */
  function ActivationFailure(db: Store, key: string, paymentId: string): DomainError
    requires key in db.payments
  {
    if db.payments[key].status == Success || IsFreeId(db.payments, key, Some(paymentId)) then DatabaseFailure
    else UniqueConstraint
  }

  /** What a plan verification answers: the payment's subscription, or what is wrong with the request. */
  predicate PlanVerificationAnswers(db: Store, r: Request, answer: Result<Uuid, DomainError>)
    requires r.VerifyPayment?
  {
    if VerificationActivates(db, r) then answer == Ok(r.choice.subscription)
    else if WasActivated(db, r) then answer == Ok(db.payments[r.key].subscriptionId.value)
    else if !r.signatureValid then answer == Err(InvalidPaymentSignature)
    else if r.key !in db.payments then answer == Err(PaymentOrderNotFound)
    else if r.caller.Some? && r.caller.value != db.payments[r.key].restaurantId then
      answer == Err(UnauthorizedRestaurant)
    else if !AwaitsActivation(db, r.key) then answer == Err(PlanNotFound)
    else answer == Err(ActivationFailure(db, r.key, r.paymentId))
  }

  lemma PlanVerificationEffect(db: Store, now: Instant, r: Request)
    requires r.VerifyPayment? && ValidPayments(db.payments)
    ensures PlanVerificationLeaves(db, r, now, Handle(db, now, r))
  {
    hide PeriodEnd;
  }

  predicate FailureFails(db: Store, r: Request)
    requires r.FailedWebhook?
  {
    && r.key in db.payments && db.payments[r.key].status != Success && db.payments[r.key].status != Captured
    && (db.payments[r.key].orderId.Some? ==> db.payments[r.key].status != PaymentStatus.Failed)
  }

  /** A failure marks the payment with its reason; only a food order's failure is logged, and once. */
  predicate FailureLeaves(db: Store, r: Request, db': Store)
    requires r.FailedWebhook?
  {
    if FailureFails(db, r) then
      var p := db.payments[r.key];
      db' == db.(
        payments := db.payments[r.key := p.(status := PaymentStatus.Failed, failureReason := Some(r.failure))],
        outbox := if p.orderId.Some? then db.outbox + [NewOrderEvent(OrderFailed, p)] else db.outbox)
    else db' == db
  }

  lemma FailedWebhookEffect(db: Store, now: Instant, r: Request)
    requires r.FailedWebhook? && ValidPayments(db.payments)
    ensures FailureLeaves(db, r, Handle(db, now, r))
  {
  }

  /** The notice is for a payment by its gateway payment id. */
  predicate Names(db: Store, n: Commits.RefundNotice, key: string) {
    Truthy(n.razorpayPaymentId) && key in db.payments && db.payments[key].razorpayPaymentId == n.razorpayPaymentId
  }

  /** The row with the notice's status and, where it has one, its arn. */
  function NoticedRow(row: Refund, n: Commits.RefundNotice): Refund {
    row.(status := n.status, arn := if n.arn.Some? && n.arn.value != "" then n.arn else row.arn)
  }

  /** The row for a refund that only the gateway knows of; what the notice leaves out is the payment's. */
  function ForeignRow(db: Store, n: Commits.RefundNotice, key: string): Refund
    requires key in db.payments
  {
    var p := db.payments[key];
    Refund(key, if n.amountPaise.Some? then n.amountPaise.value else p.amountPaise,
           if n.currency.Some? then n.currency.value else p.currency, n.status, n.reason, n.arn,
           Some(if p.metadata.Some? && "method" in p.metadata.value then p.metadata.value["method"] else "ONLINE"))
  }

  /** `db` with the refund row written and, once it is PROCESSED, its payment REFUNDED and its invoices void. */
  function WithRefund(db: Store, id: string, row: Refund): Store
    requires row.status == Processed ==> row.payment in db.payments
  {
    var written := db.(refunds := db.refunds[id := row]);
    if row.status != Processed then written
    else written.(
      payments := db.payments[row.payment := db.payments[row.payment].(status := Refunded)],
      invoices := map i | i in db.invoices ::
        if db.invoices[i].payment == row.payment then db.invoices[i].(status := Void) else db.invoices[i])
  }

  /** A notice updates the refund it is for, or writes one for the payment it names, or writes nothing. */
  ghost predicate NoticeLeaves(db: Store, n: Commits.RefundNotice, db': Store) {
    var id := n.razorpayRefundId;
    if id in db.refunds then
      var row := db.refunds[id];
      db' == if n.status == Processed && row.payment !in db.payments then db
             else WithRefund(db, id, NoticedRow(row, n))
    else if exists key :: Names(db, n, key) then
      exists key :: Names(db, n, key) && db' == WithRefund(db, id, ForeignRow(db, n, key))
    else db' == db
  }

  lemma WritesRefund(db: Store, id: string, row: Refund)
    requires row.status == Processed ==> row.payment in db.payments
    ensures var written := db.(refunds := db.refunds[id := row]);
            WithRefund(db, id, row) ==
            if row.status == Processed then Commits.MarkPaymentRefunded(written, row.payment) else written
  {
  }

  lemma RefundNoticeEffect(db: Store, now: Instant, n: Commits.RefundNotice)
    ensures NoticeLeaves(db, n, Handle(db, now, RefundWebhook(n)))
  {
    hide Commits.FindByPaymentId, Commits.MarkPaymentRefunded, WithRefund;
    var id := n.razorpayRefundId;
    var found := Commits.FindByPaymentId(db.payments, n.razorpayPaymentId.GetOr(""));
    if id in db.refunds {
      var row := NoticedRow(db.refunds[id], n);
      if n.status == Processed ==> row.payment in db.payments {
        WritesRefund(db, id, row);
      }
    } else if Truthy(n.razorpayPaymentId) && found.Some? {
      WritesRefund(db, id, ForeignRow(db, n, found.value));
      assert Names(db, n, found.value);
    }
  }

  /** The refund row that the gateway's answer to a request amounts to. */
  function RefundRow(p: Payment, r: Request): Refund
    requires r.ProcessOrderRefund? && r.reply.Accepted?
  {
    Refund(p.razorpayOrderId, p.amountPaise, p.currency,
           if r.reply.processed then Processed else RefundStatus.Pending, r.reason, r.reply.arn,
           if p.metadata.Some? && "method" in p.metadata.value then Some(p.metadata.value["method"])
           else if p.status == Captured then Some("ONLINE") else None)
  }

  /** A paid payment with a gateway id, for its full amount, that the gateway accepts under a new id. */
  predicate RequestRefunds(db: Store, r: Request)
    requires r.ProcessOrderRefund?
  {
    && r.latest.Some? && r.latest.value in db.payments
    && (db.payments[r.latest.value].status == Captured || db.payments[r.latest.value].status == Success)
    && Truthy(db.payments[r.latest.value].razorpayPaymentId)
    && (r.requested.Some? ==> r.requested.value == db.payments[r.latest.value].amountPaise)
    && r.reply.Accepted? && r.reply.refundId !in db.refunds
  }

  predicate RefundLeaves(db: Store, r: Request, db': Store)
    requires r.ProcessOrderRefund?
  {
    if RequestRefunds(db, r) then
      var key := r.latest.value;
      var p := db.payments[key];
      db' == db.(
        payments := db.payments[key := p.(status := Refunded)],
        refunds := db.refunds[r.reply.refundId := RefundRow(p, r)],
        invoices := map id | id in db.invoices ::
          if db.invoices[id].payment == key then db.invoices[id].(status := Void) else db.invoices[id])
    else db' == db
  }

  /** `latest` is a newest payment of the order, and there is one if the order has any. */
  predicate IsLatestOf(db: Store, orderId: Uuid, latest: Option<string>) {
    if latest.None? then forall k :: k in db.payments ==> db.payments[k].orderId != Some(orderId)
    else
      && latest.value in db.payments && db.payments[latest.value].orderId == Some(orderId)
      && forall k :: k in db.payments && db.payments[k].orderId == Some(orderId) ==>
        db.payments[k].createdAt <= db.payments[latest.value].createdAt
  }

  lemma NewestIsLatest(db: Store, orderId: Uuid, latest: Option<string>)
    ensures IsNewest(db.payments, KeysOfOrder(db.payments, orderId), latest) <==> IsLatestOf(db, orderId, latest)
  {
    var keys := KeysOfOrder(db.payments, orderId);
    forall k | k in db.payments
      ensures k in keys <==> db.payments[k].orderId == Some(orderId)
    {
    }
    assert keys != {} ==> exists k :: k in keys;
  }

  /** What a refund request answers: the row it has written, or what stands against the refund. */
  predicate RefundAnswers(db: Store, r: Request, answer: Result<Refund, DomainError>)
    requires r.ProcessOrderRefund? && (r.latest.Some? ==> r.latest.value in db.payments)
  {
    if RequestRefunds(db, r) then answer == Ok(RefundRow(db.payments[r.latest.value], r))
    else answer == Err(
      if r.latest.None? then PaymentOrderNotFound
      else
        var p := db.payments[r.latest.value];
        if p.status == Refunded then PaymentAlreadyRefunded
        else if !(p.status == Captured || p.status == Success) || !Truthy(p.razorpayPaymentId) then
          CannotRefundUncapturedPayment
        else if r.requested.Some? && r.requested.value > p.amountPaise then RefundAmountExceedsBalance
        else if r.requested.Some? && r.requested.value < p.amountPaise then RefundAmountInvalid
        else if r.reply.Declined? then PaymentGatewayFailure
        else UniqueConstraint)
  }

  lemma RefundEffect(db: Store, now: Instant, r: Request)
    requires r.ProcessOrderRefund? && ValidPayments(db.payments) && IsLatestOf(db, r.orderId, r.latest)
    ensures RefundLeaves(db, r, Handle(db, now, r))
  {
    NewestIsLatest(db, r.orderId, r.latest);
  }

  /** The latest payment of the order neither is paid nor waits for the same amount. */
  predicate OrderMayBePaid(db: Store, latest: Option<string>, amountPaise: int)
    requires latest.Some? ==> latest.value in db.payments
  {
    latest.Some? ==>
      var p := db.payments[latest.value];
      p.status != Captured && p.status != Success && !(p.status == Created && p.amountPaise == amountPaise)
  }

  function OrderRow(r: Request, now: Instant): Payment
    requires r.CreateOrderPayment?
  {
    Payment(r.gatewayOrderId, r.restaurantId, None, Some(r.orderId), Some(r.customerId), r.amountPaise, r.currency, now,
            None, None, None, Created, None, Some(map[]))
  }

  predicate OrderLeaves(db: Store, r: Request, now: Instant, db': Store)
    requires r.CreateOrderPayment? && (r.latest.Some? ==> r.latest.value in db.payments)
  {
    if OrderMayBePaid(db, r.latest, r.amountPaise) && r.gatewayOrderId !in db.payments then
      db' == db.(payments := db.payments[r.gatewayOrderId := OrderRow(r, now)])
    else db' == db
  }

  /** What an order request answers: a row that waits for this amount, or what stands in its way. */
  predicate OrderAnswers(db: Store, r: Request, now: Instant, answer: Result<Payment, DomainError>)
    requires r.CreateOrderPayment? && (r.latest.Some? ==> r.latest.value in db.payments)
  {
    if OrderMayBePaid(db, r.latest, r.amountPaise) then
      answer == if r.gatewayOrderId in db.payments then Err(UniqueConstraint) else Ok(OrderRow(r, now))
    else
      var p := db.payments[r.latest.value];
      answer == if p.status == Created then Ok(p) else Err(OrderPaymentAlreadyCaptured)
  }

  lemma OrderEffect(db: Store, now: Instant, r: Request)
    requires r.CreateOrderPayment? && IsLatestOf(db, r.orderId, r.latest)
    ensures OrderLeaves(db, r, now, Handle(db, now, r))
  {
    NewestIsLatest(db, r.orderId, r.latest);
  }

  /** No subscription of the restaurant is active. */
  predicate NoneIsActive(db: Store, restaurantId: Uuid, now: Instant) {
    forall id :: id in db.subscriptions && db.subscriptions[id].restaurantId == restaurantId ==>
      !SubscriptionExpiry.IsActive(db.subscriptions[id], now)
  }

  predicate PlanMayBeOrdered(db: Store, restaurantId: Uuid, planId: Uuid, now: Instant) {
    planId in db.plans && db.plans[planId].isActive && NoneIsActive(db, restaurantId, now)
  }

  /** The payment a new plan order is to be paid with. */
  function PlanOrderRow(db: Store, r: Request, now: Instant): Payment
    requires r.CreateSubscriptionOrder? && r.planId in db.plans
  {
    var plan := db.plans[r.planId];
    Payment(r.gatewayOrderId, r.restaurantId, Some(r.planId), None, None, plan.pricePaise, plan.currency, now,
            None, None, None, Created, None, Some(map["planCode" := plan.code]))
  }

  /** A new order's payment, and its draft where invoices are kept and the draft's id is new. */
  function WithPlanOrder(db: Store, r: Request, now: Instant): Store
    requires r.CreateSubscriptionOrder? && r.planId in db.plans
  {
    var plan := db.plans[r.planId];
    db.(payments := db.payments[r.gatewayOrderId := PlanOrderRow(db, r, now)],
        invoices :=
          if r.draft.Some? && r.draft.value !in db.invoices then
            db.invoices[r.draft.value :=
              Invoice(r.restaurantId, None, r.gatewayOrderId, plan.pricePaise, plan.currency, Draft)]
          else db.invoices)
  }

  /** The payment still waits, unlinked, and was created less than a quarter of an hour ago, or exactly that. */
  predicate MayBeReused(p: Payment, restaurantId: Uuid, planId: Uuid, now: Instant) {
    && p.restaurantId == restaurantId && p.planId == Some(planId) && p.subscriptionId.None?
    && (p.status == Created || p.status == PaymentStatus.Failed) && now - p.createdAt <= 15 * 60 * 1000
  }

  /** `pending` is a newest such payment, and there is one if any may be reused. */
  predicate IsPendingOf(db: Store, restaurantId: Uuid, planId: Uuid, now: Instant, pending: Option<string>) {
    if pending.None? then forall k :: k in db.payments ==> !MayBeReused(db.payments[k], restaurantId, planId, now)
    else
      && pending.value in db.payments && MayBeReused(db.payments[pending.value], restaurantId, planId, now)
      && forall k :: k in db.payments && MayBeReused(db.payments[k], restaurantId, planId, now) ==>
        db.payments[k].createdAt <= db.payments[pending.value].createdAt
  }

  lemma NewestIsPending(db: Store, restaurantId: Uuid, planId: Uuid, now: Instant, pending: Option<string>)
    ensures IsNewest(db.payments, ReusableKeys(db.payments, restaurantId, planId, now), pending) <==>
            IsPendingOf(db, restaurantId, planId, now, pending)
  {
    var keys := ReusableKeys(db.payments, restaurantId, planId, now);
    forall k | k in db.payments
      ensures k in keys <==> MayBeReused(db.payments[k], restaurantId, planId, now)
    {
    }
    assert keys != {} ==> exists k :: k in keys;
  }

  /** What a plan order answers: the gateway order to pay, or what stands in its way. */
  predicate PlanOrderAnswers(db: Store, r: Request, now: Instant, answer: Result<string, DomainError>)
    requires r.CreateSubscriptionOrder?
  {
    if r.planId !in db.plans || !db.plans[r.planId].isActive then answer == Err(PlanNotFound)
    else if !NoneIsActive(db, r.restaurantId, now) then answer == Err(ActiveSubscriptionAlreadyExists)
    else if r.pending.Some? then answer == Ok(r.pending.value)
    else if r.gatewayOrderId in db.payments || (r.draft.Some? && r.draft.value in db.invoices) then
      answer == Err(UniqueConstraint)
    else answer == Ok(r.gatewayOrderId)
  }

  predicate PlanOrderLeaves(db: Store, r: Request, now: Instant, db': Store)
    requires r.CreateSubscriptionOrder? && (r.pending.Some? ==> r.pending.value in db.payments)
  {
    if !PlanMayBeOrdered(db, r.restaurantId, r.planId, now) then db' == db
    else if r.pending.Some? then
      var p := db.payments[r.pending.value];
      db' == if p.status != PaymentStatus.Failed then db
             else db.(payments := db.payments[r.pending.value := p.(status := Created)])
    else db' == if r.gatewayOrderId in db.payments then db else WithPlanOrder(db, r, now)
  }

  lemma PlanOrderEffect(db: Store, now: Instant, r: Request)
    requires r.CreateSubscriptionOrder? && IsPendingOf(db, r.restaurantId, r.planId, now, r.pending)
    ensures PlanOrderLeaves(db, r, now, Handle(db, now, r))
  {
    NewestIsPending(db, r.restaurantId, r.planId, now, r.pending);
    assert NoneIsActive(db, r.restaurantId, now) <==> !HasActiveSubscription(db.subscriptions, r.restaurantId, now);
  }
}
