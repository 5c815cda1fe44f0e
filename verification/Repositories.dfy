/** The repositories: each write, made table by table on the shared database. */
module Repositories {
  import opened Prelude
  import opened Tables
  import opened Commits

  /** A transaction's result and the store it leaves behind. */
  ghost predicate Leaves<T>(before: Store, txn: Txn<T>, after: Store, r: Result<T, DomainError>) {
    match txn
    case Committed(db, value) => after == db && r == Ok(value)
    case Aborted(error) => after == before && r == Err(error)
  }

  class PaymentTransactionRepository {
    const db: Database

    constructor (db: Database)
      ensures this.db == db
    {
      this.db := db;
    }

    function FindByOrderId(razorpayOrderId: string): Option<Payment>
      reads db
    {
      if razorpayOrderId in db.payments then Some(db.payments[razorpayOrderId]) else None
    }

    method Create(row: Payment) returns (r: Result<Payment, DomainError>)
      modifies db
      ensures Leaves(old(db.Contents()), CreatePayment(old(db.Contents()), row), db.Contents(), r)
    {
      if row.razorpayOrderId in db.payments {
        return Err(UniqueConstraint);
      }
      db.payments := db.payments[row.razorpayOrderId := row];
      return Ok(row);
    }

    method CaptureOrderPaymentWithOutbox(transaction: Payment, event: OutboxEvent)
      returns (r: Result<Payment, DomainError>)
      modifies db
      ensures Leaves(old(db.Contents()), CaptureOrderPayment(old(db.Contents()), transaction, event), db.Contents(), r)
    {
      var id := transaction.razorpayOrderId;
      if id !in db.payments {
        return Err(PaymentOrderNotFound);
      }
      var existing := db.payments[id];
      if existing.status == Captured {
        return Ok(existing);
      }
      if PaymentIdTaken(db.payments, id, transaction.razorpayPaymentId) {
        return Err(UniqueConstraint);
      }
      var updated := existing.(status := transaction.status, razorpayPaymentId := transaction.razorpayPaymentId);
      if Truthy(transaction.razorpaySignature) {
        updated := updated.(razorpaySignature := transaction.razorpaySignature);
      }
      if transaction.metadata.Some? {
        updated := updated.(metadata := transaction.metadata);
      }
      db.payments := db.payments[id := updated];
      db.outbox := db.outbox + [event];
      return Ok(updated);
    }

    method FailOrderPaymentWithOutbox(transaction: Payment, event: OutboxEvent)
      returns (r: Result<Payment, DomainError>)
      modifies db
      ensures Leaves(old(db.Contents()), FailOrderPayment(old(db.Contents()), transaction, event), db.Contents(), r)
    {
      var id := transaction.razorpayOrderId;
      if id !in db.payments {
        return Err(PaymentOrderNotFound);
      }
      var existing := db.payments[id];
      if existing.status == Captured || existing.status == Success || existing.status == PaymentStatus.Failed {
        return Ok(existing);
      }
      var updated := existing.(status := transaction.status, failureReason := transaction.failureReason);
      db.payments := db.payments[id := updated];
      db.outbox := db.outbox + [event];
      return Ok(updated);
    }

    method VoidInvoicesOf(id: string)
      modifies db`invoices
      ensures db.invoices == VoidInvoices(old(db.invoices), id)
    {
      db.invoices := map i | i in db.invoices ::
        if db.invoices[i].payment == id then db.invoices[i].(status := Void) else db.invoices[i];
    }

    method ProcessOrderRefund(transaction: Payment, refund: RefundRequest) returns (r: Result<Refund, DomainError>)
      modifies db
      ensures Leaves(old(db.Contents()), Commits.ProcessOrderRefund(old(db.Contents()), transaction, refund),
                     db.Contents(), r)
    {
      var id := transaction.razorpayOrderId;
      if id !in db.payments {
        return Err(PaymentOrderNotFound);
      }
      if db.payments[id].status == Refunded {
        return Err(PaymentAlreadyRefunded);
      }
      var before := db.Contents();
      db.payments := db.payments[id := db.payments[id].(status := transaction.status)];
      if refund.razorpayRefundId in db.refunds {
        db.Rollback(before);
        return Err(UniqueConstraint);
      }
      var row := Refund(id, refund.amountPaise, refund.currency, refund.status, refund.reason, refund.arn,
                        refund.paymentMethod);
      db.refunds := db.refunds[refund.razorpayRefundId := row];
      VoidInvoicesOf(id);
      return Ok(row);
    }

    method SyncRefundFromWebhook(n: RefundNotice) returns (r: Result<(), DomainError>)
      requires UniquePaymentIds(db.payments)
      modifies db
      ensures Leaves(old(db.Contents()), SyncRefund(old(db.Contents()), n), db.Contents(), r)
    {
      var id := n.razorpayRefundId;
      if id in db.refunds {
        var existing := db.refunds[id];
        var before := db.Contents();
        var updated := existing.(status := n.status);
        if Truthy(n.arn) {
          updated := updated.(arn := n.arn);
        }
        db.refunds := db.refunds[id := updated];
        if n.status == Processed {
          if existing.payment !in db.payments {
            db.Rollback(before);
            return Err(DatabaseFailure);
          }
          db.payments := db.payments[existing.payment := db.payments[existing.payment].(status := Refunded)];
          VoidInvoicesOf(existing.payment);
        }
        return Ok(());
      }
      if Truthy(n.razorpayPaymentId) {
        if key :| key in db.payments && db.payments[key].razorpayPaymentId == n.razorpayPaymentId {
          assert FindByPaymentId(db.payments, n.razorpayPaymentId.value) == Some(key);
          db.refunds := db.refunds[id := RowFromNotice(key, db.payments[key], n)];
          if n.status == Processed {
            db.payments := db.payments[key := db.payments[key].(status := Refunded)];
            VoidInvoicesOf(key);
          }
        }
      }
      return Ok(());
    }

    method MarkFailed(razorpayOrderId: string, failureReason: string) returns (r: Result<Payment, DomainError>)
      modifies db
      ensures Leaves(old(db.Contents()), Commits.MarkFailed(old(db.Contents()), razorpayOrderId, failureReason),
                     db.Contents(), r)
    {
      if razorpayOrderId !in db.payments {
        return Err(DatabaseFailure);
      }
      var updated :=
          db.payments[razorpayOrderId].(status := PaymentStatus.Failed, failureReason := Some(failureReason));
      db.payments := db.payments[razorpayOrderId := updated];
      return Ok(updated);
    }

    method ResetToCreated(razorpayOrderId: string) returns (r: Result<Payment, DomainError>)
      modifies db
      ensures Leaves(old(db.Contents()), Commits.ResetToCreated(old(db.Contents()), razorpayOrderId), db.Contents(), r)
    {
      if razorpayOrderId !in db.payments {
        return Err(DatabaseFailure);
      }
      var updated := db.payments[razorpayOrderId].(status := Created);
      db.payments := db.payments[razorpayOrderId := updated];
      return Ok(updated);
    }
  }

  class SubscriptionRepository {
    const db: Database

    constructor (db: Database)
      ensures this.db == db
    {
      this.db := db;
    }

    /** `updateMany` where the order is not SUCCESS yet; returns the number of rows it changed. */
    method ClaimPayment(a: Activation) returns (count: nat)
      modifies db`payments
      ensures var p := old(db.payments);
              if a.razorpayOrderId in p && p[a.razorpayOrderId].status != Success then
                count == 1 && db.payments == p[a.razorpayOrderId := p[a.razorpayOrderId].(
                  status := Success,
                  razorpayPaymentId := Some(a.razorpayPaymentId),
                  razorpaySignature := Some(a.razorpaySignature))]
              else count == 0 && db.payments == p
    {
      var key := a.razorpayOrderId;
      if key !in db.payments || db.payments[key].status == Success {
        return 0;
      }
      var claimed := db.payments[key].(status := Success);
      claimed := claimed.(razorpayPaymentId := Some(a.razorpayPaymentId),
                          razorpaySignature := Some(a.razorpaySignature));
      db.payments := db.payments[key := claimed];
      return 1;
    }

    /** The existing subscription that a payment points to. */
    method LinkedSubscription(razorpayOrderId: string) returns (id: Option<Uuid>)
      ensures id == if razorpayOrderId in db.payments && db.payments[razorpayOrderId].subscriptionId.Some?
                       && db.payments[razorpayOrderId].subscriptionId.value in db.subscriptions
                    then db.payments[razorpayOrderId].subscriptionId else None
    {
      if razorpayOrderId in db.payments && db.payments[razorpayOrderId].subscriptionId.Some?
         && db.payments[razorpayOrderId].subscriptionId.value in db.subscriptions
      {
        return db.payments[razorpayOrderId].subscriptionId;
      }
      return None;
    }

    /** The invoice step: pay the one the payment has, or create a paid one. */
    method BillSubscription(existing: Payment, a: Activation, id: Uuid, choice: ActivationChoice)
      requires existing.razorpayOrderId == a.razorpayOrderId
      requires IsFirstInvoice(db.invoices, a.razorpayOrderId, choice.found)
      modifies db`invoices
      ensures db.invoices == BillActivation(old(db.invoices), a, existing, id, choice)
    {
      if choice.found.Some? {
        var invoice := db.invoices[choice.found.value].(subscriptionId := Some(id), status := Paid);
        db.invoices := db.invoices[choice.found.value := invoice];
      } else {
        var invoice :=
            Invoice(a.restaurantId, Some(id), existing.razorpayOrderId, existing.amountPaise, existing.currency, Paid);
        db.invoices := db.invoices[choice.invoice := invoice];
      }
    }

    method ActivateSubscriptionWithOutbox(a: Activation, choice: ActivationChoice)
        returns (r: Result<Uuid, DomainError>)
      requires a.razorpayOrderId in db.payments ==> db.payments[a.razorpayOrderId].razorpayOrderId == a.razorpayOrderId
      modifies db
      ensures Leaves(old(db.Contents()), ActivateSubscription(old(db.Contents()), a, choice), db.Contents(), r)
    {
      var before := db.Contents();
      var key := a.razorpayOrderId;
      var existingTx := if key in db.payments then Some(db.payments[key]) else None;
      if existingTx.Some? && existingTx.value.status == Success {
        var linked := LinkedSubscription(key);
        if linked.Some? {
          return Ok(linked.value);
        }
      }
      var count := ClaimPayment(a);
      if count == 1 && PaymentIdTaken(db.payments, key, Some(a.razorpayPaymentId)) {
        assert PaymentIdTaken(before.payments, key, Some(a.razorpayPaymentId));
        db.Rollback(before);
        return Err(UniqueConstraint);
      }
      assert count == 1 ==> !PaymentIdTaken(before.payments, key, Some(a.razorpayPaymentId)) by {
        assert forall k :: k in before.payments && k != key ==> db.payments[k] == before.payments[k];
      }
      if count == 0 {
        var linked := LinkedSubscription(key);
        if linked.Some? {
          // Only another transaction could have linked one since the read above.
          assert false;
        }
      }
      if key !in db.payments || choice.subscription in db.subscriptions
         || !IsFirstInvoice(db.invoices, key, choice.found)
         || (choice.found.None? && choice.invoice in db.invoices)
      {
        db.Rollback(before);
        return Err(DatabaseFailure);
      }
      var id := choice.subscription;
      db.subscriptions :=
          db.subscriptions[id := Subscription(a.restaurantId, a.planId, Active, a.periodStart, a.periodEnd)];
      db.payments := db.payments[key := db.payments[key].(subscriptionId := Some(id))];
      BillSubscription(existingTx.value, a, id, choice);
      db.outbox := db.outbox + [ActivatedEvent(a, id)];
      return Ok(id);
    }
  }
}
