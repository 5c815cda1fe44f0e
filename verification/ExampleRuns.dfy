/** The first steps of the concrete runs on a plan payment that the run-level theorems come with. */
module ExampleRuns {
  import opened Prelude
  import opened Tables
  import opened Commits
  import opened Handlers
  import opened LedgerMachine
  import BillingPeriod

  const PLAN := Plan("BASIC", 500, "INR", BillingPeriod.Monthly, true)

  const PLANS: map<Uuid, Plan> := map[1 := PLAN]

  /** Restaurant 3 orders plan 1; `draft` is the invoice id where invoices are kept. */
  function PlanOrder(key: string, draft: Option<Uuid>): Request {
    CreateSubscriptionOrder(3, 1, key, draft, None)
  }

  function PlanPayment(key: string): Payment {
    NewPayment(key, 3, Some(1), None, None, 500, "INR", map["planCode" := "BASIC"])
  }

  function PlanCreation(key: string, draft: Option<Uuid>): Commit {
    CreateTransaction(PlanPayment(key), draft)
  }

  lemma PlanOrderIsPrepared(db: Store, now: Instant, key: string, draft: Option<Uuid>)
    requires db.plans == PLANS && db.payments == map[] && db.subscriptions == map[]
    ensures Prepare(db, now, PlanOrder(key, draft)) == Some(PlanCreation(key, draft))
  {
    assert ReusableKeys(db.payments, 3, 1, now) == {};
  }

  /** The store with an order waiting to be paid. */
  function OrderedStore(): Store {
    Store(PLANS, map["order_1" := PlanPayment("order_1")], map[], map[], map[], [])
  }

  function PlanVerification(): Request {
    VerifyPayment("order_1", None, "pay_1", "signature", true, ActivationChoice(7, 9, None))
  }

  function PlanActivation(): Activation {
    Activation("order_1", 3, 1, 0, BillingPeriod.PeriodEnd(BillingPeriod.Monthly, 0), "pay_1", "signature")
  }

  function PaidPayment(): Payment {
    PlanPayment("order_1").(status := Success, razorpayPaymentId := Some("pay_1"),
                            razorpaySignature := Some("signature"),
                            subscriptionId := Some(7))
  }

  /** The store once it has been paid: subscription 7 is active and invoice 9 is paid. */
  function PaidStore(): Store {
    Store(PLANS, map["order_1" := PaidPayment()],
          map[7 := Subscription(3, 1, Active, 0, PlanActivation().periodEnd)],
          map[9 := Invoice(3, Some(7), "order_1", 500, "INR", InvoiceStatus.Paid)],
          map[], [ActivatedEvent(PlanActivation(), 7)])
  }

  lemma PlanVerificationActivates()
    ensures Handle(OrderedStore(), 0, PlanVerification()) == PaidStore()
  {
    hide BillingPeriod.PeriodEnd;
    var db := OrderedStore();
    assert Prepare(db, 0, PlanVerification()) == Some(ActivatePlan(PlanActivation(), ActivationChoice(7, 9, None)));
    assert db.payments["order_1" := PaidPayment()] == PaidStore().payments;
    assert db.subscriptions[7 := PaidStore().subscriptions[7]] == PaidStore().subscriptions;
    assert db.invoices[9 := PaidStore().invoices[9]] == PaidStore().invoices;
    assert db.outbox + [ActivatedEvent(PlanActivation(), 7)] == PaidStore().outbox;
    assert NextCommit(db, ActivatePlan(PlanActivation(), ActivationChoice(7, 9, None))) == None;
  }
}
