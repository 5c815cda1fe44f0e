/**
 * The tables of the payment database, as values (`Store`) and as the mutable object
 * the repositories share (`Database`).
 *
 * A payment is keyed by its unique Razorpay order id, which stands for its surrogate
 * id as well; a refund row by its unique Razorpay refund id. Columns that are only
 * ever written (updatedAt, paidAt, processedAt, publishedAt, invoice numbers and PDF
 * keys) are not part of the rows.
 */
module Tables {
  import opened Prelude
  import BillingPeriod

  /** A uuid column. Unlike a gateway id it is never the empty string. */
  type Uuid = nat

  type Instant = int

  datatype PaymentStatus = Created | Captured | Success | Failed | Refunded
  datatype SubscriptionStatus = Pending | Active | Expired | Cancelled | PastDue
  datatype InvoiceStatus = Draft | Paid | Void
  datatype RefundStatus = Pending | Processed | Failed
  datatype OutboxStatus = Pending | Published | Failed

  datatype DomainError =
    | PaymentOrderNotFound
    | CustomerUnauthorized
    | UnauthorizedRestaurant
    | InvalidPaymentSignature
    | InvalidPaymentStateTransition
    | OrderPaymentAlreadyCaptured
    | PaymentAlreadyRefunded
    | CannotRefundUncapturedPayment
    | RefundAmountExceedsBalance
    | RefundAmountInvalid
    | PaymentGatewayFailure
    | PlanNotFound
    | ActiveSubscriptionAlreadyExists
    | UniqueConstraint
    | DatabaseFailure

  datatype Plan = Plan(code: string, pricePaise: int, currency: string, billingCycle: BillingPeriod.BillingCycle,
                       isActive: bool)

  /** A food-order payment has an orderId, a subscription payment a planId. */
  datatype Payment = Payment(
    razorpayOrderId: string,
    restaurantId: Uuid,
    planId: Option<Uuid>,
    orderId: Option<Uuid>,
    customerId: Option<Uuid>,
    amountPaise: int,
    currency: string,
    createdAt: Instant,
    subscriptionId: Option<Uuid>,
    razorpayPaymentId: Option<string>,
    razorpaySignature: Option<string>,
    status: PaymentStatus,
    failureReason: Option<string>,
    metadata: Option<map<string, string>>)

  datatype Subscription = Subscription(
    restaurantId: Uuid,
    planId: Uuid,
    status: SubscriptionStatus,
    currentPeriodStart: Instant,
    currentPeriodEnd: Instant)

  datatype Invoice = Invoice(
    restaurantId: Uuid,
    subscriptionId: Option<Uuid>,
    payment: string,
    amountPaise: int,
    currency: string,
    status: InvoiceStatus)

  datatype Refund = Refund(
    payment: string,
    amountPaise: int,
    currency: string,
    status: RefundStatus,
    reason: Option<string>,
    arn: Option<string>,
    paymentMethod: Option<string>)

  datatype EventType = OrderCaptured | OrderFailed | SubscriptionActivated | SubscriptionExpired | Unknown(name: string)

  datatype Payload =
    | OrderPayload(payment: string, orderId: Uuid, restaurantId: Uuid, amountPaise: int, currency: string)
    | SubscriptionPayload(subscriptionId: Uuid, restaurantId: Uuid, currentPeriodEnd: Instant)

  datatype OutboxEvent = OutboxEvent(
    eventType: EventType,
    aggregateId: Uuid,
    payload: Payload,
    status: OutboxStatus,
    retryCount: nat)

  /** The outbox is kept in the order in which its rows were committed. */
  datatype Store = Store(
    plans: map<Uuid, Plan>,
    payments: map<string, Payment>,
    subscriptions: map<Uuid, Subscription>,
    invoices: map<Uuid, Invoice>,
    refunds: map<string, Refund>,
    outbox: seq<OutboxEvent>)

  class Database {
    const plans: map<Uuid, Plan>
    var payments: map<string, Payment>
    var subscriptions: map<Uuid, Subscription>
    var invoices: map<Uuid, Invoice>
    var refunds: map<string, Refund>
    var outbox: seq<OutboxEvent>

    constructor (plans: map<Uuid, Plan>)
      ensures Contents() == Store(plans, map[], map[], map[], map[], [])
    {
      this.plans := plans;
      payments, subscriptions, invoices, refunds, outbox := map[], map[], map[], map[], [];
    }

    function Contents(): Store
      reads this
    {
      Store(plans, payments, subscriptions, invoices, refunds, outbox)
    }

    /** Rolls a failed `$transaction` back to where it began. */
    method Rollback(to: Store)
      requires to.plans == plans
      modifies this
      ensures Contents() == to
    {
      payments, subscriptions, invoices, refunds, outbox :=
        to.payments, to.subscriptions, to.invoices, to.refunds, to.outbox;
    }
  }

  /** The unique index on razorpay_payment_id. */
  ghost predicate UniquePaymentIds(payments: map<string, Payment>) {
    forall j, k :: j in payments && k in payments && j != k && payments[j].razorpayPaymentId.Some? ==>
      payments[j].razorpayPaymentId != payments[k].razorpayPaymentId
  }

  /** The constraints of the payments table: rows stand under their key, and the index holds. */
  ghost predicate ValidPayments(payments: map<string, Payment>) {
    UniquePaymentIds(payments) && forall k :: k in payments ==> payments[k].razorpayOrderId == k
  }

  /** Whether writing `paymentId` to row `key` would violate that index. */
  predicate PaymentIdTaken(payments: map<string, Payment>, key: string, paymentId: Option<string>) {
    paymentId.Some? && exists k :: k in payments && k != key && payments[k].razorpayPaymentId == paymentId
  }

  /** What no update may change: whose payment it is, for what, and how much. */
  predicate SameIdentity(a: Payment, b: Payment) {
    && a.razorpayOrderId == b.razorpayOrderId && a.restaurantId == b.restaurantId
    && a.planId == b.planId && a.orderId == b.orderId && a.customerId == b.customerId
    && a.amountPaise == b.amountPaise && a.currency == b.currency && a.createdAt == b.createdAt
  }
}
