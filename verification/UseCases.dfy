/**
 * The use cases, run whole: each loads an entity, changes it in memory and commits
 * through the repositories. What it leaves in the database is the request handled
 * with nothing in between.
 */
module UseCases {
  import opened Prelude
  import opened Tables
  import opened PaymentEntity
  import opened Commits
  import opened Handlers
  import opened Repositories
  import opened RequestEffects
  import BillingPeriod

  /** A parsed webhook body; the gateway may leave out ids. */
  datatype WebhookEvent =
    | PaymentPaid(orderId: Option<string>, paymentId: Option<string>, via: Option<string>)
    | PaymentFailed(orderId: Option<string>, failure: string)
    | RefundReported(notice: Option<RefundNotice>)
    | Unhandled

  /** The request an event amounts to, if it names an order or a refund. */
  function RequestOf(event: WebhookEvent, choice: ActivationChoice): Option<Request> {
    match event
    case PaymentPaid(orderId, paymentId, via) =>
      if Truthy(orderId) then Some(PaidWebhook(orderId.value, paymentId, via, choice)) else None
    case PaymentFailed(orderId, failure) =>
      if Truthy(orderId) then Some(FailedWebhook(orderId.value, failure)) else None
    case RefundReported(notice) => if notice.Some? then Some(RefundWebhook(notice.value)) else None
    case Unhandled => None
  }

  /** Every non-empty set of rows has a newest one. */
  lemma {:induction false} NewestExists(payments: map<string, Payment>, keys: set<string>)
    requires keys <= payments.Keys && keys != {}
    ensures exists k :: k in keys && IsNewest(payments, keys, Some(k))
  {
    var a :| a in keys;
    var rest := keys - {a};
    if rest == {} {
      assert keys == {a};
      assert IsNewest(payments, keys, Some(a));
    } else {
      NewestExists(payments, rest);
      var b :| b in rest && IsNewest(payments, rest, Some(b));
      if payments[a].createdAt <= payments[b].createdAt {
        assert IsNewest(payments, keys, Some(b));
      } else {
        assert IsNewest(payments, keys, Some(a));
      }
    }
  }

  /** `findFirst` ordered by newest creation time. */
  method FindNewest(payments: map<string, Payment>, keys: set<string>) returns (found: Option<string>)
    requires keys <= payments.Keys
    ensures IsNewest(payments, keys, found)
  {
    if keys == {} {
      return None;
    }
    NewestExists(payments, keys);
    var k :| k in keys && IsNewest(payments, keys, Some(k));
    return Some(k);
  }

  /** The payment is paid: a food order's is CAPTURED, one for a known plan is SUCCESS and has its subscription. */
  predicate IsReflectedPaid(db: Store, key: string) {
    key in db.payments ==>
      var p := db.payments[key];
      if p.orderId.Some? then p.status == Captured
      else p.planId.Some? && p.planId.value in db.plans ==> p.status == Success && p.subscriptionId.Some?
  }

  predicate IsReflectedFailed(db: Store, key: string) {
    key in db.payments ==>
      var status := db.payments[key].status;
      status == PaymentStatus.Failed || status == Captured || status == Success
  }

  /** A known refund has the status the gateway reports, and a processed one its payment refunded. */
  predicate IsReflectedRefund(db: Store, n: RefundNotice) {
    n.razorpayRefundId in db.refunds ==>
      var row := db.refunds[n.razorpayRefundId];
      && row.status == n.status
      && (n.status == Processed ==> row.payment in db.payments && db.payments[row.payment].status == Refunded)
  }

  /** What the tables show of an event once it has been acknowledged. */
  predicate IsReflected(db: Store, event: WebhookEvent) {
    match event
    case PaymentPaid(orderId, _, _) => Truthy(orderId) ==> IsReflectedPaid(db, orderId.value)
    case PaymentFailed(orderId, _) => Truthy(orderId) ==> IsReflectedFailed(db, orderId.value)
    case RefundReported(notice) => notice.Some? ==> IsReflectedRefund(db, notice.value)
    case Unhandled => true
  }

  /** What an event leaves of `db`, row by row. */
  ghost predicate EventLeaves(db: Store, request: Option<Request>, now: Instant, db': Store) {
    match request
    case None => db' == db
    case Some(r) =>
      && (r.PaidWebhook? ==> PaidWebhookLeaves(db, r, now, db'))
      && (r.FailedWebhook? ==> FailureLeaves(db, r, db'))
      && (r.RefundWebhook? ==> NoticeLeaves(db, r.notice, db'))
  }

  lemma EventEffect(db: Store, r: Request, now: Instant)
    requires ValidPayments(db.payments)
    ensures EventLeaves(db, Some(r), now, Handle(db, now, r))
  {
    hide Handle, PaidWebhookLeaves, FailureLeaves, NoticeLeaves;
    match r
    case PaidWebhook(_, _, _, _) => PaidWebhookEffect(db, now, r);
    case FailedWebhook(_, _) => FailedWebhookEffect(db, now, r);
    case RefundWebhook(notice) => RefundNoticeEffect(db, now, notice);
    case _ =>
  }

  /**
   * The gateway is told to try again only for a payment it should have, and could not
   * be, recorded as paid, or a refund that could not be written.
   */
  predicate IsAcknowledged(db: Store, request: Option<Request>) {
    match request
    case Some(PaidWebhook(key, _, _, _)) =>
      && (key in db.payments && db.payments[key].orderId.Some? ==>
            db.payments[key].status == Captured || WebhookCaptures(db, request.value))
      && (AwaitsActivation(db, key) && db.payments[key].orderId.None? ==> WebhookActivates(db, request.value))
    case Some(RefundWebhook(notice)) =>
      notice.status == Processed && notice.razorpayRefundId in db.refunds ==>
        db.refunds[notice.razorpayRefundId].payment in db.payments
    case _ => true
  }

  lemma NoticesAreReflected(db: Store, n: RefundNotice)
    ensures SyncRefund(db, n).Committed? <==> IsAcknowledged(db, Some(RefundWebhook(n)))
    ensures SyncRefund(db, n).Committed? ==> IsReflectedRefund(SyncRefund(db, n).db, n)
  {
    hide FindByPaymentId;
  }

  lemma ActivationKeepsPlan(db: Store, a: Activation, choice: ActivationChoice)
    requires ActivateSubscription(db, a, choice).Committed? && a.razorpayOrderId in db.payments
    ensures var after := ActivateSubscription(db, a, choice).db;
            && a.razorpayOrderId in after.payments
            && SameIdentity(after.payments[a.razorpayOrderId], db.payments[a.razorpayOrderId])
                && after.plans == db.plans
  {
  }

  class HandleWebhookUseCase {
    const payments: PaymentTransactionRepository
    const subscriptions: SubscriptionRepository

    constructor (payments: PaymentTransactionRepository, subscriptions: SubscriptionRepository)
      ensures this.payments == payments && this.subscriptions == subscriptions
    {
      this.payments, this.subscriptions := payments, subscriptions;
    }

    method CaptureFoodOrder(row: Payment, paymentId: Option<string>, via: Option<string>)
        returns (r: Result<bool, DomainError>)
      requires row.orderId.Some? && ValidPayments(payments.db.payments)
      requires row.razorpayOrderId in payments.db.payments && payments.db.payments[row.razorpayOrderId] == row
      modifies payments.db
      ensures forall now, choice ::
                payments.db.Contents() ==
                    Handle(old(payments.db.Contents()), now, PaidWebhook(row.razorpayOrderId, paymentId, via, choice))
      ensures r.Ok? ==> r.value && IsReflectedPaid(payments.db.Contents(), row.razorpayOrderId)
      ensures r.Err? ==> payments.db.Contents() == old(payments.db.Contents())
      ensures forall choice ::
                var request := PaidWebhook(row.razorpayOrderId, paymentId, via, choice);
                r.Ok? <==> row.status == Captured || WebhookCaptures(old(payments.db.Contents()), request)
    {
      if row.status == Captured {
        return Ok(true);
      }
      var tx := new PaymentTransaction(row);
      var gatewayMethod := via.GetOr(DEFAULT_PAYMENT_METHOD);
      var resolved := if paymentId.Some? then paymentId else row.razorpayPaymentId;
      var captured :=
          tx.Capture(if resolved.Some? then Given(resolved.value) else Null, Null,
                     Some(map["method" := gatewayMethod]));
      if captured.Err? {
        return Err(captured.error);
      }
      var saved :=
          payments.CaptureOrderPaymentWithOutbox(tx.props, OrderEvent(OrderCaptured, row.orderId.value, tx.props));
      return if saved.Ok? then Ok(true) else Err(saved.error);
    }

    method ActivatePlanOrder(row: Payment, now: Instant, paymentId: Option<string>, choice: ActivationChoice)
      returns (r: Result<bool, DomainError>)
      requires row.orderId.None? && payments.db == subscriptions.db && ValidPayments(payments.db.payments)
      requires row.razorpayOrderId in payments.db.payments && payments.db.payments[row.razorpayOrderId] == row
      modifies payments.db
      ensures forall via ::
                payments.db.Contents() ==
                    Handle(old(payments.db.Contents()), now, PaidWebhook(row.razorpayOrderId, paymentId, via, choice))
      ensures r.Ok? ==> r.value && IsReflectedPaid(payments.db.Contents(), row.razorpayOrderId)
      ensures r.Err? ==> payments.db.Contents() == old(payments.db.Contents())
      ensures forall via ::
                var request := PaidWebhook(row.razorpayOrderId, paymentId, via, choice);
                r.Ok? <==> !AwaitsActivation(old(payments.db.Contents()), row.razorpayOrderId)
                           || WebhookActivates(old(payments.db.Contents()), request)
    {
      hide BillingPeriod.PeriodEnd, ActivateSubscription;
      if row.status == Success && row.subscriptionId.Some? {
        return Ok(true);
      }
      if row.planId.None? || row.planId.value !in payments.db.plans {
        return Ok(true);
      }
      var plan := payments.db.plans[row.planId.value];
      var start := new BillingPeriod.JsDate(now);
      var currentPeriodEnd := BillingPeriod.CalculatePeriodEnd(plan.billingCycle, start);
      var a := Activation(row.razorpayOrderId, row.restaurantId, row.planId.value, now, currentPeriodEnd.time,
                          Or(paymentId, row.razorpayPaymentId).GetOr(""), "");
      ghost var before := payments.db.Contents();
      ActivationNeedsRoom(before, a, choice);
      var activated := subscriptions.ActivateSubscriptionWithOutbox(a, choice);
      if activated.Ok? {
        ActivationLinks(before, a, choice);
        ActivationKeepsPlan(before, a, choice);
      }
      return if activated.Ok? then Ok(true) else Err(activated.error);
    }

    method RecordFailure(orderId: string, failure: string) returns (r: Result<bool, DomainError>)
      requires ValidPayments(payments.db.payments)
      modifies payments.db
      ensures forall now ::
                payments.db.Contents() == Handle(old(payments.db.Contents()), now, FailedWebhook(orderId, failure))
      ensures r == Ok(true) && IsReflectedFailed(payments.db.Contents(), orderId)
    {
      var existing := payments.FindByOrderId(orderId);
      if existing.None? || existing.value.status == Success || existing.value.status == Captured {
        return Ok(true);
      }
      if existing.value.orderId.Some? {
        var tx := new PaymentTransaction(existing.value);
        tx.MarkFailed(failure);
        var saved :=
            payments.FailOrderPaymentWithOutbox(tx.props,
                                                OrderEvent(OrderFailed, existing.value.orderId.value, tx.props));
        assert saved.Ok?;
        return Ok(true);
      } else {
        var saved := payments.MarkFailed(orderId, failure);
        assert saved.Ok?;
        return Ok(true);
      }
    }

    /** Dispatches an event; an invalid signature is answered with `received: false`. */
    method Execute(signatureValid: bool, event: WebhookEvent, now: Instant, choice: ActivationChoice)
      returns (r: Result<bool, DomainError>)
      requires payments.db == subscriptions.db && ValidPayments(payments.db.payments)
      modifies payments.db
      ensures !signatureValid ==> r == Ok(false) && payments.db.Contents() == old(payments.db.Contents())
      ensures signatureValid ==>
                payments.db.Contents() == match RequestOf(event, choice)
                                          case None => old(payments.db.Contents())
                                          case Some(request) => Handle(old(payments.db.Contents()), now, request)
      ensures signatureValid && r.Ok? ==> r.value && IsReflected(payments.db.Contents(), event)
      ensures r.Err? ==> payments.db.Contents() == old(payments.db.Contents())
      ensures signatureValid ==>
                EventLeaves(old(payments.db.Contents()), RequestOf(event, choice), now, payments.db.Contents())
                && (r.Ok? <==> IsAcknowledged(old(payments.db.Contents()), RequestOf(event, choice)))
    {
      hide Prepare, Handle, SyncRefund;
      ghost var before := payments.db.Contents();
      if RequestOf(event, choice).Some? {
        EventEffect(before, RequestOf(event, choice).value, now);
      }
      if !signatureValid {
        return Ok(false);
      }
      match event {
        case PaymentPaid(orderId, paymentId, via) =>
          if !Truthy(orderId) {
            return Ok(true);
          }
          var existing := payments.FindByOrderId(orderId.value);
          if existing.None? {
            UnknownOrdersAreAcknowledged(payments.db.Contents(), now, orderId.value, paymentId, via, choice);
            return Ok(true);
          }
          ghost var request := PaidWebhook(orderId.value, paymentId, via, choice);
          if existing.value.orderId.Some? {
            r := CaptureFoodOrder(existing.value, paymentId, via);
            assert r.Ok? <==> existing.value.status == Captured || WebhookCaptures(before, request);
          } else {
            r := ActivatePlanOrder(existing.value, now, paymentId, choice);
            assert r.Ok? <==> !AwaitsActivation(before, orderId.value) || WebhookActivates(before, request);
          }
        case PaymentFailed(orderId, failure) =>
          if Truthy(orderId) {
            r := RecordFailure(orderId.value, failure);
          } else {
            r := Ok(true);
          }
        case RefundReported(notice) =>
          if notice.None? {
            return Ok(true);
          }
          RefundNoticesAreSynced(payments.db.Contents(), now, notice.value);
          NoticesAreReflected(payments.db.Contents(), notice.value);
          var synced := payments.SyncRefundFromWebhook(notice.value);
          return if synced.Ok? then Ok(true) else Err(synced.error);
        case Unhandled =>
          return Ok(true);
      }
    }
  }

  lemma UnknownOrdersAreAcknowledged(db: Store, now: Instant, key: string, paymentId: Option<string>,
                                     via: Option<string>, choice: ActivationChoice)
    requires key !in db.payments
    ensures Handle(db, now, PaidWebhook(key, paymentId, via, choice)) == db
  {
  }

  class VerifyOrderPaymentUseCase {
    const payments: PaymentTransactionRepository

    constructor (payments: PaymentTransactionRepository)
      ensures this.payments == payments
    {
      this.payments := payments;
    }

    method Execute(razorpayOrderId: string, orderId: Uuid, customerId: Option<Uuid>, paymentId: string,
                   signature: string,
                   signatureValid: bool) returns (r: Result<Payment, DomainError>)
      requires ValidPayments(payments.db.payments)
      modifies payments.db
      ensures forall now ::
                payments.db.Contents() == Handle(old(payments.db.Contents()), now,
                  VerifyOrderPayment(razorpayOrderId, orderId, customerId, paymentId, signature, signatureValid))
      ensures r.Ok? ==> r.value.status == Captured
                        && razorpayOrderId in payments.db.payments && payments.db.payments[razorpayOrderId] == r.value
      ensures var db := old(payments.db.Contents());
              var request :=
                  VerifyOrderPayment(razorpayOrderId, orderId, customerId, paymentId, signature, signatureValid);
              VerificationLeaves(db, request, payments.db.Contents()) && VerificationAnswers(db, request, r)
    {
      VerificationEffect(payments.db.Contents(), 0,
        VerifyOrderPayment(razorpayOrderId, orderId, customerId, paymentId, signature, signatureValid));
      var found := payments.FindByOrderId(razorpayOrderId);
      if found.None? {
        return Err(PaymentOrderNotFound);
      }
      if found.value.orderId != Some(orderId) {
        return Err(PaymentOrderNotFound);
      }
      var refusal := OwnershipRefusal(found.value, customerId);
      if refusal.Some? {
        return Err(refusal.value);
      }
      if found.value.status == Captured {
        return Ok(found.value);
      }
      if !signatureValid {
        return Err(InvalidPaymentSignature);
      }
      var tx := new PaymentTransaction(found.value);
      var captured := tx.Capture(Given(paymentId), Given(signature), None);
      if captured.Err? {
        return Err(captured.error);
      }
      r := payments.CaptureOrderPaymentWithOutbox(tx.props, OrderEvent(OrderCaptured, orderId, tx.props));
    }
  }

  class VerifyPaymentUseCase {
    const payments: PaymentTransactionRepository
    const subscriptions: SubscriptionRepository

    constructor (payments: PaymentTransactionRepository, subscriptions: SubscriptionRepository)
      ensures this.payments == payments && this.subscriptions == subscriptions
    {
      this.payments, this.subscriptions := payments, subscriptions;
    }

    /** Returns the id of the subscription the payment has led to. */
    method Execute(razorpayOrderId: string, caller: Option<Uuid>, paymentId: string, signature: string,
                   signatureValid: bool,
                   now: Instant, choice: ActivationChoice) returns (r: Result<Uuid, DomainError>)
      requires payments.db == subscriptions.db && ValidPayments(payments.db.payments)
      modifies payments.db
      ensures payments.db.Contents() == Handle(old(payments.db.Contents()), now,
                VerifyPayment(razorpayOrderId, caller, paymentId, signature, signatureValid, choice))
      ensures r.Ok? ==> razorpayOrderId in payments.db.payments
                        && payments.db.payments[razorpayOrderId].status == Success
                        && payments.db.payments[razorpayOrderId].subscriptionId == Some(r.value)
      ensures var db := old(payments.db.Contents());
              var request := VerifyPayment(razorpayOrderId, caller, paymentId, signature, signatureValid, choice);
              PlanVerificationLeaves(db, request, now, payments.db.Contents())
                  && PlanVerificationAnswers(db, request, r)
    {
      hide BillingPeriod.PeriodEnd, ActivateSubscription;
      PlanVerificationEffect(payments.db.Contents(), now,
        VerifyPayment(razorpayOrderId, caller, paymentId, signature, signatureValid, choice));
      if !signatureValid {
        return Err(InvalidPaymentSignature);
      }
      var found := payments.FindByOrderId(razorpayOrderId);
      if found.None? {
        return Err(PaymentOrderNotFound);
      }
      var row := found.value;
      if caller.Some? && row.restaurantId != caller.value {
        return Err(UnauthorizedRestaurant);
      }
      if row.status == Success && row.subscriptionId.Some? {
        return Ok(row.subscriptionId.value);
      }
      if row.planId.None? || row.planId.value !in payments.db.plans {
        return Err(PlanNotFound);
      }
      var plan := payments.db.plans[row.planId.value];
      var start := new BillingPeriod.JsDate(now);
      var currentPeriodEnd := BillingPeriod.CalculatePeriodEnd(plan.billingCycle, start);
      var a := Activation(razorpayOrderId, row.restaurantId, row.planId.value, now, currentPeriodEnd.time, paymentId,
                          signature);
      ghost var before := payments.db.Contents();
      ActivationNeedsRoom(before, a, choice);
      r := subscriptions.ActivateSubscriptionWithOutbox(a, choice);
      if r.Ok? {
        ActivationLinks(before, a, choice);
      }
    }
  }

  lemma ActivationNeedsRoom(db: Store, a: Activation, choice: ActivationChoice)
    requires AwaitsActivation(db, a.razorpayOrderId)
    ensures var done := ActivateSubscription(db, a, choice);
            && (done.Committed? <==> HasRoom(db, a.razorpayOrderId, a.razorpayPaymentId, choice))
            && (if done.Committed? then done.value == choice.subscription
                else done.error == ActivationFailure(db, a.razorpayOrderId, a.razorpayPaymentId))
  {
  }

  /** A committed activation leaves the payment SUCCESS and pointing to the subscription it returns. */
  lemma ActivationLinks(db: Store, a: Activation, choice: ActivationChoice)
    requires ActivateSubscription(db, a, choice).Committed?
    ensures var done := ActivateSubscription(db, a, choice);
            && a.razorpayOrderId in done.db.payments
            && done.db.payments[a.razorpayOrderId].status == Success
            && done.db.payments[a.razorpayOrderId].subscriptionId == Some(done.value)
            && done.value in done.db.subscriptions
  {
  }

  /** A refund request comes down to the refund commit it prepares; the clock plays no part. */
  lemma RefundsRunTheirCommit(db: Store, r: Request)
    requires r.ProcessOrderRefund?
    ensures PrepareRefund(db, r).None? ==> forall now :: Handle(db, now, r) == db
    ensures PrepareRefund(db, r).Some? ==>
              var c := PrepareRefund(db, r).value;
              c.RefundOrder?
                  && forall now :: Handle(db, now, r) == After(db, Commits.ProcessOrderRefund(db, c.entity, c.request))
  {
    hide Commits.ProcessOrderRefund, IsNewest, RefundRefusal;
  }

  class ProcessOrderRefundUseCase {
    const payments: PaymentTransactionRepository

    constructor (payments: PaymentTransactionRepository)
      ensures this.payments == payments
    {
      this.payments := payments;
    }

    method Execute(orderId: Uuid, amountPaise: Option<int>, reason: Option<string>, reply: GatewayRefund)
      returns (r: Result<Refund, DomainError>, latest: Option<string>)
      requires ValidPayments(payments.db.payments)
      modifies payments.db
      ensures IsLatestOf(old(payments.db.Contents()), orderId, latest)
      ensures forall now ::
                payments.db.Contents() == Handle(old(payments.db.Contents()), now,
                  Request.ProcessOrderRefund(orderId, amountPaise, reason, latest, reply))
      ensures r.Ok? ==> latest.Some? && r.value.payment == latest.value
                        && r.value.amountPaise == payments.db.payments[latest.value].amountPaise
                        && payments.db.payments[latest.value].status == Refunded
      ensures var db := old(payments.db.Contents());
              var request := Request.ProcessOrderRefund(orderId, amountPaise, reason, latest, reply);
              RefundLeaves(db, request, payments.db.Contents()) && RefundAnswers(db, request, r)
      ensures r.Ok? ==>
                && reply.Accepted? && reply.refundId in payments.db.refunds
                    && payments.db.refunds[reply.refundId] == r.value
                && r.value.status == (if reply.processed then Processed else RefundStatus.Pending)
                && r.value.arn == reply.arn && r.value.reason == reason
    {
      hide Handle;
      ghost var before := payments.db.Contents();
      latest := FindNewest(payments.db.payments, KeysOfOrder(payments.db.payments, orderId));
      NewestIsLatest(payments.db.Contents(), orderId, latest);
      RefundsRunTheirCommit(before, Request.ProcessOrderRefund(orderId, amountPaise, reason, latest, reply));
      RefundEffect(before, 0, Request.ProcessOrderRefund(orderId, amountPaise, reason, latest, reply));
      if latest.None? {
        return Err(PaymentOrderNotFound), latest;
      }
      var tx := new PaymentTransaction(payments.db.payments[latest.value]);
      var refusal := RefundRefusal(tx.props, amountPaise);
      if refusal.Some? {
        return Err(refusal.value), latest;
      }
      var refundAmountPaise := amountPaise.GetOr(tx.props.amountPaise);
      if reply.Declined? {
        return Err(PaymentGatewayFailure), latest;
      }
      var paymentMethod := PaymentMethod(tx.props);
      var refundStatus := if reply.processed then RefundStatus.Processed else RefundStatus.Pending;
      var marked := tx.MarkRefunded();
      assert marked.Ok?;
      r := payments.ProcessOrderRefund(tx.props,
        RefundRequest(reply.refundId, refundAmountPaise, tx.props.currency, refundStatus, reason, reply.arn,
                      paymentMethod));
    }
  }

  class CreateOrderPaymentUseCase {
    const payments: PaymentTransactionRepository

    constructor (payments: PaymentTransactionRepository)
      ensures this.payments == payments
    {
      this.payments := payments;
    }

    /** `gatewayOrderId` is the id of the order the gateway creates when it is asked to. */
    method Execute(orderId: Uuid, customerId: Uuid, restaurantId: Uuid, amountPaise: int, currency: string,
                   gatewayOrderId: string, now: Instant)
      returns (r: Result<Payment, DomainError>, latest: Option<string>)
      modifies payments.db
      ensures IsLatestOf(old(payments.db.Contents()), orderId, latest)
      ensures payments.db.Contents() == Handle(old(payments.db.Contents()), now,
                CreateOrderPayment(orderId, customerId, restaurantId, amountPaise, currency, gatewayOrderId, latest))
      ensures r.Ok? ==> r.value.status == Created && r.value.amountPaise == amountPaise
      ensures var db := old(payments.db.Contents());
              var request :=
                CreateOrderPayment(orderId, customerId, restaurantId, amountPaise, currency, gatewayOrderId, latest);
              OrderLeaves(db, request, now, payments.db.Contents()) && OrderAnswers(db, request, now, r)
    {
      latest := FindNewest(payments.db.payments, KeysOfOrder(payments.db.payments, orderId));
      NewestIsLatest(payments.db.Contents(), orderId, latest);
      OrderEffect(payments.db.Contents(), now,
        CreateOrderPayment(orderId, customerId, restaurantId, amountPaise, currency, gatewayOrderId, latest));
      if latest.Some? {
        var existing := payments.db.payments[latest.value];
        if existing.status == Captured || existing.status == Success {
          return Err(OrderPaymentAlreadyCaptured), latest;
        }
        if existing.status == Created && existing.amountPaise == amountPaise {
          return Ok(existing), latest;
        }
      }
      var row := NewPayment(gatewayOrderId, restaurantId, None, Some(orderId), Some(customerId), amountPaise, currency,
                            map[]);
      r := payments.Create(row.(createdAt := now));
    }
  }

  /** A subscription order creates a payment and its draft, reopens a failed payment, or writes nothing. */
  lemma SubscriptionOrdersRunTheirCommits(db: Store, now: Instant, r: Request)
    requires r.CreateSubscriptionOrder?
    ensures PrepareSubscriptionOrder(db, now, r).None? ==> Handle(db, now, r) == db
    ensures match PrepareSubscriptionOrder(db, now, r) {
              case Some(ResetPlanPayment(key)) => Handle(db, now, r) == After(db, ResetToCreated(db, key))
              case Some(CreateTransaction(row, draft)) =>
                var done := After(db, CreatePayment(db, row.(createdAt := now)));
                Handle(db, now, r) ==
                if draft.None? || row.razorpayOrderId in db.payments then done
                else After(done, CreateInvoice(done, draft.value, DraftOf(row)))
              case _ => true
            }
  {
    hide CreatePayment, CreateInvoice, ResetToCreated, HasActiveSubscription, IsNewest;
  }

  class CreateSubscriptionOrderUseCase {
    const payments: PaymentTransactionRepository
    const db: Database

    constructor (payments: PaymentTransactionRepository)
      ensures this.payments == payments && db == payments.db
    {
      this.payments := payments;
      this.db := payments.db;
    }

    /**
     * Returns the Razorpay order to pay, and the answer of the lookup for a reusable one, which is
     * made even where a check before it fails. `draft` is the new invoice's id where invoices are kept.
     */
    method Execute(restaurantId: Uuid, planId: Uuid, gatewayOrderId: string, draft: Option<Uuid>, now: Instant)
      returns (r: Result<string, DomainError>, pending: Option<string>)
      requires db == payments.db && ValidPayments(db.payments)
      modifies db
      ensures IsPendingOf(old(db.Contents()), restaurantId, planId, now, pending)
      ensures db.Contents() == Handle(old(db.Contents()), now,
                CreateSubscriptionOrder(restaurantId, planId, gatewayOrderId, draft, pending))
      ensures r.Ok? ==> r.value in db.payments
                        && MayBeReused(db.payments[r.value], restaurantId, planId, now)
                            && db.payments[r.value].status == Created
      ensures var before := old(db.Contents());
              var request := CreateSubscriptionOrder(restaurantId, planId, gatewayOrderId, draft, pending);
              PlanOrderLeaves(before, request, now, db.Contents()) && PlanOrderAnswers(before, request, now, r)
    {
      hide Handle;
      pending := FindNewest(db.payments, ReusableKeys(db.payments, restaurantId, planId, now));
      NewestIsPending(db.Contents(), restaurantId, planId, now, pending);
      PlanOrderEffect(db.Contents(), now,
                      CreateSubscriptionOrder(restaurantId, planId, gatewayOrderId, draft, pending));
      SubscriptionOrdersRunTheirCommits(db.Contents(), now,
                                        CreateSubscriptionOrder(restaurantId, planId, gatewayOrderId, draft, pending));
      if planId !in db.plans || !db.plans[planId].isActive {
        return Err(PlanNotFound), pending;
      }
      if HasActiveSubscription(db.subscriptions, restaurantId, now) {
        return Err(ActiveSubscriptionAlreadyExists), pending;
      }
      var plan := db.plans[planId];
      if pending.Some? {
        if db.payments[pending.value].status == PaymentStatus.Failed {
          var reset := payments.ResetToCreated(pending.value);
        }
        return Ok(pending.value), pending;
      }
      var row := NewPayment(gatewayOrderId, restaurantId, Some(planId), None, None, plan.pricePaise, plan.currency,
                            map["planCode" := plan.code]);
      var created := payments.Create(row.(createdAt := now));
      if created.Err? {
        return Err(created.error), pending;
      }
      if draft.Some? {
        if draft.value in db.invoices {
          return Err(UniqueConstraint), pending;
        }
        db.invoices := db.invoices[draft.value :=
          Invoice(restaurantId, None, gatewayOrderId, plan.pricePaise, plan.currency, Draft)];
      }
      return Ok(gatewayOrderId), pending;
    }
  }
}
