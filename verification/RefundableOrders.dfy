/**
 * From a paid webhook to the refund: the gateway payment id that the webhook reports is
 * what a refund is asked for and found by, so the captured row has to keep it.
 */
module RefundableOrders {
  import opened Prelude
  import opened Tables
  import opened Commits
  import opened Handlers
  import opened LedgerInvariant
  import opened RequestEffects
  import opened RefundSettlement
  import RefundLedger

  /** What a paid webhook with id `id` leaves, when it captures the payment. */
  ghost function AfterPaid(db: Store, now: Instant, key: string, id: string, via: Option<string>,
                           choice: ActivationChoice): Store {
    Handle(db, now, PaidWebhook(key, Some(id), via, choice))
  }

  /** The row keeps the gateway's payment id and the payment method that it names. */
  lemma PaidOrderKeepsId(db: Store, now: Instant, key: string, id: string, via: Option<string>,
                         choice: ActivationChoice)
    requires StoreOk(db) && WebhookCaptures(db, PaidWebhook(key, Some(id), via, choice))
    ensures var db' := AfterPaid(db, now, key, id, via, choice);
            && db'.payments.Keys == db.payments.Keys && db'.refunds == db.refunds
            && db'.payments[key].status == Captured && db'.payments[key].razorpayPaymentId == Some(id)
            && db'.payments[key].metadata.Some? && "method" in db'.payments[key].metadata.value
            && db'.payments[key].metadata.value["method"] == via.GetOr("ONLINE")
            && (forall k :: k in db.payments && k != key ==>
                  db'.payments[k] == db.payments[k] && db'.payments[k].razorpayPaymentId != Some(id))
  {
    hide Handle;
    PaidWebhookEffect(db, now, PaidWebhook(key, Some(id), via, choice));
  }

  /**
   * An order that a paid webhook has captured under a non-empty id can be refunded in
   * full through the API: once the gateway accepts, the refund row is written and the
   * payment is REFUNDED.
   */
  lemma PaidOrderCanBeRefunded(db: Store, now: Instant, key: string, id: string, via: Option<string>,
                               choice: ActivationChoice, later: Instant, r: Request)
    requires StoreOk(db) && WebhookCaptures(db, PaidWebhook(key, Some(id), via, choice)) && id != ""
    requires r.ProcessOrderRefund? && r.latest == Some(key) && r.reply.Accepted? && r.reply.refundId !in db.refunds
    requires r.requested.Some? ==> r.requested.value == db.payments[key].amountPaise
    requires IsLatestOf(AfterPaid(db, now, key, id, via, choice), r.orderId, r.latest)
    ensures var db' := Handle(AfterPaid(db, now, key, id, via, choice), later, r);
            && key in db'.payments && db'.payments[key].status == Refunded
            && r.reply.refundId in db'.refunds
            && db'.refunds[r.reply.refundId] ==
               Refund(key, db.payments[key].amountPaise, db.payments[key].currency,
                      if r.reply.processed then Processed else RefundStatus.Pending, r.reason, r.reply.arn,
                      Some(via.GetOr("ONLINE")))
  {
    hide Handle;
    PaidWebhookEffect(db, now, PaidWebhook(key, Some(id), via, choice));
    PaidOrderKeepsId(db, now, key, id, via, choice);
    RefundEffect(AfterPaid(db, now, key, id, via, choice), later, r);
  }

  /** A PROCESSED notice for the id, under a refund id of its own, settles the payment. */
  lemma PaidOrderIsFoundByNotice(db: Store, now: Instant, key: string, id: string, via: Option<string>,
                                 choice: ActivationChoice, later: Instant, n: RefundNotice)
    requires StoreOk(db) && WebhookCaptures(db, PaidWebhook(key, Some(id), via, choice)) && id != ""
    requires n.status == Processed && n.razorpayPaymentId == Some(id) && n.razorpayRefundId !in db.refunds
    ensures var db' := Handle(AfterPaid(db, now, key, id, via, choice), later, RefundWebhook(n));
            && RefundLedger.Settled(db', key)
            && n.razorpayRefundId in db'.refunds && db'.refunds[n.razorpayRefundId].payment == key
            && db'.refunds[n.razorpayRefundId].status == Processed
  {
    hide Handle, MarkPaymentRefunded, RefundLedger.Settled, FindByPaymentId, StoreOk;
    var paid := AfterPaid(db, now, key, id, via, choice);
    PaidOrderKeepsId(db, now, key, id, via, choice);
    RefundNoticesAreSynced(paid, later, n);
    assert FindByPaymentId(paid.payments, id) == Some(key);
    var row := RowFromNotice(key, paid.payments[key], n);
    MarkingSettles(paid.(refunds := paid.refunds[n.razorpayRefundId := row]), key, key);
  }
}
