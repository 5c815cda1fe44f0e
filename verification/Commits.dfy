/**
 * What each write of the repositories does to the store. Every function is one
 * `$transaction` (or one statement) taken as a single atomic step: it either commits
 * a new store or aborts and leaves the store as it was.
 */
module Commits {
  import opened Prelude
  import opened Tables

  datatype Txn<+T> = Committed(db: Store, value: T) | Aborted(error: DomainError)

  function OrderEvent(eventType: EventType, aggregateId: Uuid, p: Payment): OutboxEvent {
    OutboxEvent(eventType, aggregateId,
                OrderPayload(p.razorpayOrderId, aggregateId, p.restaurantId, p.amountPaise, p.currency),
                OutboxStatus.Pending, 0)
  }

  function CaptureOrderPayment(db: Store, t: Payment, event: OutboxEvent): Txn<Payment> {
    var key := t.razorpayOrderId;
    if key !in db.payments then Aborted(PaymentOrderNotFound)
    else
      var existing := db.payments[key];
      if existing.status == Captured then Committed(db, existing)
      else if PaymentIdTaken(db.payments, key, t.razorpayPaymentId) then Aborted(UniqueConstraint)
      else
        var updated := existing.(
          status := t.status,
          razorpayPaymentId := t.razorpayPaymentId,
          razorpaySignature := if Truthy(t.razorpaySignature) then t.razorpaySignature else existing.razorpaySignature,
          metadata := if t.metadata.Some? then t.metadata else existing.metadata);
        Committed(db.(payments := db.payments[key := updated], outbox := db.outbox + [event]), updated)
  }

  function FailOrderPayment(db: Store, t: Payment, event: OutboxEvent): Txn<Payment> {
    var key := t.razorpayOrderId;
    if key !in db.payments then Aborted(PaymentOrderNotFound)
    else
      var existing := db.payments[key];
      if existing.status == Captured || existing.status == Success || existing.status == PaymentStatus.Failed then
        Committed(db, existing)
      else
        var updated := existing.(status := t.status, failureReason := t.failureReason);
        Committed(db.(payments := db.payments[key := updated], outbox := db.outbox + [event]), updated)
  }

  function MarkFailed(db: Store, key: string, reason: string): Txn<Payment> {
    if key !in db.payments then Aborted(DatabaseFailure)
    else
      var updated := db.payments[key].(status := PaymentStatus.Failed, failureReason := Some(reason));
      Committed(db.(payments := db.payments[key := updated]), updated)
  }

  function ResetToCreated(db: Store, key: string): Txn<Payment> {
    if key !in db.payments then Aborted(DatabaseFailure)
    else
      var updated := db.payments[key].(status := Created);
      Committed(db.(payments := db.payments[key := updated]), updated)
  }

  function CreatePayment(db: Store, row: Payment): Txn<Payment> {
    if row.razorpayOrderId in db.payments then Aborted(UniqueConstraint)
    else Committed(db.(payments := db.payments[row.razorpayOrderId := row]), row)
  }

  function CreateInvoice(db: Store, id: Uuid, invoice: Invoice): Txn<Invoice> {
    if id in db.invoices then Aborted(UniqueConstraint)
    else Committed(db.(invoices := db.invoices[id := invoice]), invoice)
  }

  function VoidInvoices(invoices: map<Uuid, Invoice>, key: string): map<Uuid, Invoice> {
    map id | id in invoices :: if invoices[id].payment == key then invoices[id].(status := Void) else invoices[id]
  }

  /** A refund as the gateway accepted it for the refund API. */
  datatype RefundRequest = RefundRequest(
    razorpayRefundId: string,
    amountPaise: int,
    currency: string,
    status: RefundStatus,
    reason: Option<string>,
    arn: Option<string>,
    paymentMethod: Option<string>)

  function ProcessOrderRefund(db: Store, t: Payment, r: RefundRequest): Txn<Refund> {
    var key := t.razorpayOrderId;
    if key !in db.payments then Aborted(PaymentOrderNotFound)
    else if db.payments[key].status == Refunded then Aborted(PaymentAlreadyRefunded)
    else if r.razorpayRefundId in db.refunds then Aborted(UniqueConstraint)
    else
      var row := Refund(key, r.amountPaise, r.currency, r.status, r.reason, r.arn, r.paymentMethod);
      Committed(
        db.(payments := db.payments[key := db.payments[key].(status := t.status)],
            refunds := db.refunds[r.razorpayRefundId := row],
            invoices := VoidInvoices(db.invoices, key)),
        row)
  }

  /** A refund.processed or refund.failed webhook. */
  datatype RefundNotice = RefundNotice(
    razorpayRefundId: string,
    razorpayPaymentId: Option<string>,
    status: RefundStatus,
    amountPaise: Option<int>,
    currency: Option<string>,
    arn: Option<string>,
    reason: Option<string>)

  /** The unique row with a gateway payment id. */
  ghost function FindByPaymentId(payments: map<string, Payment>, paymentId: string): (key: Option<string>)
    ensures key.Some? ==> key.value in payments && payments[key.value].razorpayPaymentId == Some(paymentId)
    ensures key.None? ==> forall k :: k in payments ==> payments[k].razorpayPaymentId != Some(paymentId)
  {
    if exists k :: k in payments && payments[k].razorpayPaymentId == Some(paymentId) then
      var k :| k in payments && payments[k].razorpayPaymentId == Some(paymentId);
      Some(k)
    else None
  }

  function MarkPaymentRefunded(db: Store, key: string): Store
    requires key in db.payments
  {
    db.(payments := db.payments[key := db.payments[key].(status := Refunded)],
        invoices := VoidInvoices(db.invoices, key))
  }

  /** The refund row a webhook creates for a refund nobody asked for through the API. */
  function RowFromNotice(key: string, p: Payment, n: RefundNotice): Refund {
    var via := if p.metadata.Some? && "method" in p.metadata.value then p.metadata.value["method"] else "ONLINE";
    Refund(key, n.amountPaise.GetOr(p.amountPaise), n.currency.GetOr(p.currency), n.status, n.reason, n.arn, Some(via))
  }

  ghost function SyncRefund(db: Store, n: RefundNotice): Txn<()> {
    var id := n.razorpayRefundId;
    if id in db.refunds then
      var row := db.refunds[id].(status := n.status, arn := if Truthy(n.arn) then n.arn else db.refunds[id].arn);
      var written := db.(refunds := db.refunds[id := row]);
      if n.status != Processed then Committed(written, ())
      else if row.payment !in db.payments then Aborted(DatabaseFailure)
      else Committed(MarkPaymentRefunded(written, row.payment), ())
    else if !Truthy(n.razorpayPaymentId) then Committed(db, ())
    else
      var key := FindByPaymentId(db.payments, n.razorpayPaymentId.value);
      if key.None? then Committed(db, ())
      else
        var row := RowFromNotice(key.value, db.payments[key.value], n);
        var written := db.(refunds := db.refunds[id := row]);
        Committed(if n.status == Processed then MarkPaymentRefunded(written, key.value) else written, ())
  }

  /** The arguments of `activateSubscriptionWithOutbox`; the new subscription is ACTIVE. */
  datatype Activation = Activation(
    razorpayOrderId: string,
    restaurantId: Uuid,
    planId: Uuid,
    periodStart: Instant,
    periodEnd: Instant,
    razorpayPaymentId: string,
    razorpaySignature: string)

  /** What the database chooses during an activation: new ids, and which invoice `findFirst` returns. */
  datatype ActivationChoice = ActivationChoice(subscription: Uuid, invoice: Uuid, found: Option<Uuid>)

  predicate IsFirstInvoice(invoices: map<Uuid, Invoice>, key: string, found: Option<Uuid>) {
    if found.Some? then found.value in invoices && invoices[found.value].payment == key
    else forall id :: id in invoices ==> invoices[id].payment != key
  }

  function ActivatedEvent(a: Activation, id: Uuid): OutboxEvent {
    OutboxEvent(SubscriptionActivated, a.restaurantId, SubscriptionPayload(id, a.restaurantId, a.periodEnd),
                OutboxStatus.Pending, 0)
  }

  /** The invoice table after the new subscription `id` has been billed to payment `p`. */
  function BillActivation(invoices: map<Uuid, Invoice>, a: Activation, p: Payment, id: Uuid,
                          choice: ActivationChoice): map<Uuid, Invoice>
    requires IsFirstInvoice(invoices, a.razorpayOrderId, choice.found)
  {
    if choice.found.Some? then
      invoices[choice.found.value := invoices[choice.found.value].(subscriptionId := Some(id), status := Paid)]
    else
      invoices[choice.invoice := Invoice(a.restaurantId, Some(id), a.razorpayOrderId, p.amountPaise, p.currency, Paid)]
  }

  function ActivateSubscription(db: Store, a: Activation, choice: ActivationChoice): Txn<Uuid> {
    var key := a.razorpayOrderId;
    // The conditional update finds no row for an unknown order and the later update throws.
    if key !in db.payments then Aborted(DatabaseFailure)
    else
      var existing := db.payments[key];
      if existing.status == Success && existing.subscriptionId.Some?
          && existing.subscriptionId.value in db.subscriptions then
        Committed(db, existing.subscriptionId.value)
      else if existing.status != Success && PaymentIdTaken(db.payments, key, Some(a.razorpayPaymentId)) then
        Aborted(UniqueConstraint)
      else if choice.subscription in db.subscriptions || !IsFirstInvoice(db.invoices, key, choice.found)
              || (choice.found.None? && choice.invoice in db.invoices) then
        Aborted(DatabaseFailure)
      else
        var id := choice.subscription;
        var paid := if existing.status == Success then existing else existing.(
          status := Success,
          razorpayPaymentId := Some(a.razorpayPaymentId),
          razorpaySignature := Some(a.razorpaySignature));
        Committed(
          db.(payments := db.payments[key := paid.(subscriptionId := Some(id))],
              subscriptions :=
                  db.subscriptions[id := Subscription(a.restaurantId, a.planId, Active, a.periodStart, a.periodEnd)],
              invoices := BillActivation(db.invoices, a, existing, id, choice),
              outbox := db.outbox + [ActivatedEvent(a, id)]),
          id)
  }

  function ExpiredEvent(db: Store, id: Uuid): OutboxEvent
    requires id in db.subscriptions
  {
    var s := db.subscriptions[id];
    OutboxEvent(SubscriptionExpired, s.restaurantId, SubscriptionPayload(id, s.restaurantId, s.currentPeriodEnd),
                OutboxStatus.Pending, 0)
  }

  function ExpiredEvents(db: Store, ids: seq<Uuid>): seq<OutboxEvent>
    requires forall i :: 0 <= i < |ids| ==> ids[i] in db.subscriptions
  {
    seq(|ids|, i requires 0 <= i < |ids| => ExpiredEvent(db, ids[i]))
  }

  function SetExpired(subscriptions: map<Uuid, Subscription>, ids: seq<Uuid>): map<Uuid, Subscription> {
    map id | id in subscriptions ::
      if id in ids then subscriptions[id].(status := Expired) else subscriptions[id]
  }

  /** The sweep's transaction over the subscriptions it read before. */
  function ExpireSubscriptions(db: Store, ids: seq<Uuid>): Store
    requires forall i :: 0 <= i < |ids| ==> ids[i] in db.subscriptions
  {
    db.(subscriptions := SetExpired(db.subscriptions, ids), outbox := db.outbox + ExpiredEvents(db, ids))
  }
}
