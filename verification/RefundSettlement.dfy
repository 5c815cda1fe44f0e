/**
 * Settled payments: REFUNDED, with all invoices VOID. Which commits unsettle one, and
 * when every refund that was ever PROCESSED keeps its payment settled.
 */
module RefundSettlement {
  import opened Prelude
  import opened Tables
  import opened PaymentEntity
  import opened Commits
  import opened Handlers
  import opened LedgerMachine
  import opened LedgerInvariant
  import opened OrderEvents
  import opened RefundLedger
  import opened ExampleRuns
  import Prefixes

  /** The refund rows that were PROCESSED in some state of a run. */
  ghost function EverProcessed(plans: map<Uuid, Plan>, steps: seq<Step>): set<string> {
    var refunds := Exec(Initial(plans), steps).db.refunds;
    (if steps == [] then {} else EverProcessed(plans, steps[..|steps| - 1]))
    + set id | id in refunds && refunds[id].status == Processed
  }

  /**
   * The commit takes a settled payment out of REFUNDED, or drafts an invoice for it:
   * none of these guards asks whether the payment has been refunded.
   */
  predicate Unsettles(db: Store, c: Commit, key: string) {
    match c
    case CaptureOrder(t, _) => t.razorpayOrderId == key && !PaymentIdTaken(db.payments, key, t.razorpayPaymentId)
    case FailOrder(t, _) => t.razorpayOrderId == key
    case FailPlanPayment(k, _) => k == key
    case ResetPlanPayment(k) => k == key
    case ActivatePlan(a, choice) => a.razorpayOrderId == key && CanActivate(db, a, choice)
    case DraftInvoice(id, invoice) => invoice.payment == key && id !in db.invoices
    case _ => false
  }

  /** The unique indexes let the activation's new rows in. */
  predicate CanActivate(db: Store, a: Activation, choice: ActivationChoice) {
    && !PaymentIdTaken(db.payments, a.razorpayOrderId, Some(a.razorpayPaymentId))
    && choice.subscription !in db.subscriptions && IsFirstInvoice(db.invoices, a.razorpayOrderId, choice.found)
    && (choice.found.Some? || choice.invoice !in db.invoices)
  }

  lemma SettledByRefund(db: Store, t: Payment, q: RefundRequest, key: string)
    requires CommitOk(db, RefundOrder(t, q))
    requires Settled(db, key) || (t.razorpayOrderId == key && Commits.ProcessOrderRefund(db, t, q).Committed?)
    ensures Settled(After(db, Commits.ProcessOrderRefund(db, t, q)), key)
  {
  }

  lemma MarkingSettles(db: Store, refunded: string, key: string)
    requires refunded in db.payments
    ensures MarkPaymentRefunded(db, refunded).refunds == db.refunds
    ensures Settled(MarkPaymentRefunded(db, refunded), refunded)
    ensures Settled(db, key) ==> Settled(MarkPaymentRefunded(db, refunded), key)
  {
  }

  lemma SettledByNotice(db: Store, n: RefundNotice, key: string)
    requires Settled(db, key)
    ensures Settled(After(db, SyncRefund(db, n)), key)
  {
    hide MarkPaymentRefunded, RowFromNotice, FindByPaymentId;
    var id := n.razorpayRefundId;
    var found := FindByPaymentId(db.payments, n.razorpayPaymentId.GetOr(""));
    if id in db.refunds {
      var row := db.refunds[id].(status := n.status, arn := if Truthy(n.arn) then n.arn else db.refunds[id].arn);
      if row.payment in db.payments {
        MarkingSettles(db.(refunds := db.refunds[id := row]), row.payment, key);
      }
    } else if found.Some? {
      var row := RowFromNotice(found.value, db.payments[found.value], n);
      MarkingSettles(db.(refunds := db.refunds[id := row]), found.value, key);
    }
  }

  lemma ProcessedNoticeSettles(db: Store, n: RefundNotice, id: string)
    requires var db' := After(db, SyncRefund(db, n));
             id in db'.refunds && db'.refunds[id].status == Processed
             && (id in db.refunds ==> db.refunds[id].status != Processed)
    ensures var db' := After(db, SyncRefund(db, n)); Settled(db', db'.refunds[id].payment)
  {
    hide MarkPaymentRefunded, FindByPaymentId, Settled;
    var found := FindByPaymentId(db.payments, n.razorpayPaymentId.GetOr(""));
    if n.razorpayRefundId in db.refunds {
      var known := db.refunds[n.razorpayRefundId];
      var row := known.(status := n.status, arn := if Truthy(n.arn) then n.arn else known.arn);
      if row.payment in db.payments {
        MarkingSettles(db.(refunds := db.refunds[n.razorpayRefundId := row]), row.payment, row.payment);
      }
    } else if found.Some? {
      var row := RowFromNotice(found.value, db.payments[found.value], n);
      MarkingSettles(db.(refunds := db.refunds[n.razorpayRefundId := row]), found.value, found.value);
    }
  }

  lemma CaptureOfSettled(db: Store, t: Payment, event: OutboxEvent, key: string)
    requires Settled(db, key) && t.status == Captured
    ensures Settled(After(db, CaptureOrderPayment(db, t, event)), key) <==> !Unsettles(db, CaptureOrder(t, event), key)
  {
  }

  lemma FailureOfSettled(db: Store, t: Payment, event: OutboxEvent, key: string)
    requires Settled(db, key) && t.status == PaymentStatus.Failed
    ensures Settled(After(db, FailOrderPayment(db, t, event)), key) <==> t.razorpayOrderId != key
  {
  }

  lemma ActivationOfSettled(db: Store, a: Activation, choice: ActivationChoice, key: string)
    requires Settled(db, key)
    ensures Settled(After(db, ActivateSubscription(db, a, choice)), key) <==>
            !Unsettles(db, ActivatePlan(a, choice), key)
  {
    hide PaymentIdTaken;
    var after := After(db, ActivateSubscription(db, a, choice));
    if a.razorpayOrderId == key {
      assert CanActivate(db, a, choice) <==> ActivateSubscription(db, a, choice).Committed?;
    } else {
      forall id | id in after.invoices && after.invoices[id].payment == key
        ensures after.invoices[id].status == Void
      {
      }
    }
  }

  /** An invoice drafted after the refund is never voided by it. */
  lemma DraftForSettled(db: Store, id: Uuid, invoice: Invoice, key: string)
    requires Settled(db, key) && invoice.status == Draft
    ensures Settled(After(db, CreateInvoice(db, id, invoice)), key) <==> invoice.payment != key || id in db.invoices
  {
    if invoice.payment == key && id !in db.invoices {
      assert After(db, CreateInvoice(db, id, invoice)).invoices[id] == invoice;
    }
  }

  /** A commit leaves a settled payment settled if and only if it is none of those that unsettle it. */
  lemma CommitKeepsSettled(db: Store, now: Instant, c: Commit, key: string)
    requires CommitOk(db, c) && Settled(db, key)
    ensures Settled(RunCommit(db, now, c), key) <==> !Unsettles(db, c, key)
  {
    hide SyncRefund, ActivateSubscription, CaptureOrderPayment, FailOrderPayment, CreateInvoice,
        Commits.ProcessOrderRefund;
    match c
    case CaptureOrder(t, event) => CaptureOfSettled(db, t, event, key);
    case FailOrder(t, event) => FailureOfSettled(db, t, event, key);
    case RefundOrder(t, q) => SettledByRefund(db, t, q, key);
    case RecordRefund(n) => SettledByNotice(db, n, key);
    case ActivatePlan(a, choice) => ActivationOfSettled(db, a, choice, key);
    case DraftInvoice(id, invoice) => DraftForSettled(db, id, invoice, key);
    case _ =>
  }

  /** A commit that makes a refund row PROCESSED settles its payment. */
  lemma ProcessingSettles(db: Store, now: Instant, c: Commit, id: string)
    requires CommitOk(db, c)
    requires var db' := RunCommit(db, now, c);
             id in db'.refunds && db'.refunds[id].status == Processed
             && (id in db.refunds ==> db.refunds[id].status != Processed)
    ensures var db' := RunCommit(db, now, c); Settled(db', db'.refunds[id].payment)
  {
    hide SyncRefund, Settled;
    match c
    case RefundOrder(t, q) => SettledByRefund(db, t, q, t.razorpayOrderId);
    case RecordRefund(n) => ProcessedNoticeSettles(db, n, id);
    case _ =>
  }

  /** A draft that follows a creation in one step is for the new payment. */
  lemma DraftIsForNewPayment(db: Store, now: Instant, c: Commit, key: string)
    requires Settled(RunCommit(db, now, c), key) && key in db.payments && NextCommit(db, c).Some?
    ensures Settled(RunCommit(RunCommit(db, now, c), now, NextCommit(db, c).value), key)
  {
  }

  lemma SweepKeepsSettled(db: Store, ids: seq<Uuid>, key: string)
    requires Settled(db, key) && Known(db, ids)
    ensures Settled(ExpireSubscriptions(db, ids), key)
  {
  }

  lemma StepKeepsSettled(s: State, step: Step, key: string)
    requires StateOk(s) && Settled(s.db, key)
    ensures Settled(Apply(s, step).db, key) <==> !(Runs(s, step).Some? && Unsettles(s.db, Runs(s, step).value, key))
  {
    hide StoreOk, CommitOk, Prepare, RunCommit, NextCommit, ExpireSubscriptions, IsPastDueListing;
    if Runs(s, step).Some? {
      var c := Runs(s, step).value;
      RunsOkCommit(s, step);
      CommitKeepsSettled(s.db, s.clock, c, key);
      if step.Whole? && NextCommit(s.db, c).Some? {
        OnlyCreationsGoOn(s.db, c);
        DraftIsForNewPayment(s.db, s.clock, c, key);
      }
    } else if step.SweepCommit? && step.process in s.sweeps {
      SweepKeepsSettled(s.db, s.sweeps[step.process].found, key);
    }
  }

  lemma OnlyCreationsGoOn(db: Store, c: Commit)
    requires NextCommit(db, c).Some?
    ensures c.CreateTransaction?
  {
  }

  lemma StepSettlesProcessed(s: State, step: Step, id: string)
    requires StateOk(s)
    requires id in Apply(s, step).db.refunds && Apply(s, step).db.refunds[id].status == Processed
    requires id in s.db.refunds ==> s.db.refunds[id].status != Processed
    ensures Settled(Apply(s, step).db, Apply(s, step).db.refunds[id].payment)
  {
    hide StoreOk, CommitOk, Prepare, RunCommit, ExpireSubscriptions, Settled;
    StepRefunds(s, step);
    var c := Runs(s, step).value;
    RunsOkCommit(s, step);
    ProcessingSettles(s.db, s.clock, c, id);
    if step.Whole? && NextCommit(s.db, c).Some? {
      assert false by { CreationWritesNoRefund(s.db, s.clock, c, id); }
    }
  }

  lemma CreationWritesNoRefund(db: Store, now: Instant, c: Commit, id: string)
    requires NextCommit(db, c).Some?
    ensures RunCommit(db, now, c).refunds == db.refunds
  {
  }

  /** Every refund that has ever been PROCESSED has its payment settled. */
  ghost predicate AllSettled(plans: map<Uuid, Plan>, steps: seq<Step>) {
    var db := Exec(Initial(plans), steps).db;
    forall id :: id in EverProcessed(plans, steps) ==> id in db.refunds && Settled(db, db.refunds[id].payment)
  }

  /** The step unsettles the payment of such a refund. */
  ghost predicate UnsettlesProcessed(plans: map<Uuid, Plan>, steps: seq<Step>, step: Step) {
    var s := Exec(Initial(plans), steps);
    && Runs(s, step).Some?
    && exists id ::
      id in EverProcessed(plans, steps) && id in s.db.refunds
          && Unsettles(s.db, Runs(s, step).value, s.db.refunds[id].payment)
  }

  lemma StepKeepsAllSettled(plans: map<Uuid, Plan>, steps: seq<Step>, step: Step)
    requires AllSettled(plans, steps)
    ensures AllSettled(plans, steps + [step]) <==> !UnsettlesProcessed(plans, steps, step)
  {
    hide StateOk, Apply, Settled, Unsettles, Runs, Exec;
    var s := Exec(Initial(plans), steps);
    var s' := Exec(Initial(plans), steps + [step]);
    ReachableIsOk(plans, steps);
    ExecOneMore(Initial(plans), steps, step);
    assert (steps + [step])[..|steps|] == steps;
    StepRefunds(s, step);
    forall id | id in EverProcessed(plans, steps)
      ensures id in s'.db.refunds && s'.db.refunds[id].payment == s.db.refunds[id].payment
      ensures Settled(s'.db, s'.db.refunds[id].payment) <==>
              !(Runs(s, step).Some? && Unsettles(s.db, Runs(s, step).value, s.db.refunds[id].payment))
    {
      StepKeepsSettled(s, step, s.db.refunds[id].payment);
    }
    forall id | id in EverProcessed(plans, steps + [step]) && id !in EverProcessed(plans, steps)
      ensures id in s'.db.refunds && Settled(s'.db, s'.db.refunds[id].payment)
    {
      NotYetProcessed(plans, steps, id);
      StepSettlesProcessed(s, step, id);
    }
  }

  ghost predicate SettledThroughout(plans: map<Uuid, Plan>, steps: seq<Step>) {
    forall n :: 0 <= n <= |steps| ==> AllSettled(plans, steps[..n])
  }

  ghost predicate NeverUnsettled(plans: map<Uuid, Plan>, steps: seq<Step>) {
    forall n :: 0 <= n < |steps| ==> !UnsettlesProcessed(plans, steps[..n], steps[n])
  }

  /**
   * Over all runs: every refund that was ever PROCESSED has its payment REFUNDED and
   * all its invoices VOID throughout, even if a later webhook calls the refund failed,
   * if and only if no commit of the run unsettles such a payment.
   */
  lemma ProcessedRefundsSettle(plans: map<Uuid, Plan>, steps: seq<Step>)
    ensures SettledThroughout(plans, steps) <==> NeverUnsettled(plans, steps)
  {
    hide AllSettled, UnsettlesProcessed;
    var holds := (front: seq<Step>) => AllSettled(plans, front);
    var breaks := (front: seq<Step>, step: Step) => UnsettlesProcessed(plans, front, step);
    NothingToSettle(plans);
    forall front, step | holds(front)
      ensures holds(front + [step]) <==> !breaks(front, step)
    {
      StepKeepsAllSettled(plans, front, step);
    }
    Prefixes.ThroughoutUnlessBroken(steps, holds, breaks);
    assert SettledThroughout(plans, steps) <==> Prefixes.Throughout(steps, holds);
    assert NeverUnsettled(plans, steps) <==> Prefixes.NeverBreaks(steps, breaks);
  }

  lemma NothingToSettle(plans: map<Uuid, Plan>)
    ensures AllSettled(plans, [])
  {
  }

  lemma NotYetProcessed(plans: map<Uuid, Plan>, steps: seq<Step>, id: string)
    requires id !in EverProcessed(plans, steps)
    ensures id in Exec(Initial(plans), steps).db.refunds ==>
            Exec(Initial(plans), steps).db.refunds[id].status != Processed
  {
  }

  function ExampleDraft(): Commit {
    DraftInvoice(8, DraftOf(PlanPayment("order_1")))
  }

  function ExampleNotice(): RefundNotice {
    RefundNotice("refund_1", Some("pay_1"), Processed, None, None, None, None)
  }

  /** A payment is created, paid and refunded before the draft invoice of its order is written. */
  function LateDraft(): seq<Step> {
    [Begin(PlanOrder("order_1", Some(8))), Finish(PlanCreation("order_1", Some(8))),
     Whole(PlanVerification()), Whole(RefundWebhook(ExampleNotice())), Finish(ExampleDraft())]
  }

  lemma DraftIsUnderWay()
    ensures Exec(Initial(PLANS), LateDraft()[..3]) == State(PaidStore(), 0, multiset{ExampleDraft()}, map[])
  {
    hide Apply, Prepare, Handle;
    var run := LateDraft();
    var s0, c := Initial(PLANS), PlanCreation("order_1", Some(8));
    assert run[..3] == [] + [run[0]] + [run[1]] + [run[2]];
    ExecOneMore(s0, [], run[0]);
    ExecOneMore(s0, [] + [run[0]], run[1]);
    ExecOneMore(s0, [] + [run[0]] + [run[1]], run[2]);
    PlanOrderIsPrepared(s0.db, 0, "order_1", Some(8));
    BeginPrepares(s0, run[0].request, c);
    var s1 := Apply(s0, run[0]);
    assert s1.ready == multiset{} + multiset{c};
    FinishRuns(s1, c, multiset{});
    assert RunCommit(s1.db, 0, c) == OrderedStore() by { ExampleIsOrdered(Some(8)); }
    var s2 := Apply(s1, run[1]);
    assert s2 == State(OrderedStore(), 0, multiset{ExampleDraft()}, map[]);
    PlanVerificationActivates();
    WholeHandles(s2, PlanVerification());
  }

  lemma ExampleIsOrdered(draft: Option<Uuid>)
    ensures RunCommit(Initial(PLANS).db, 0, PlanCreation("order_1", draft)) == OrderedStore()
  {
    assert Initial(PLANS).db.payments["order_1" := PlanPayment("order_1")] == OrderedStore().payments;
  }

  lemma NoticeIsSynced()
    ensures var db := PaidStore(); var row := RowFromNotice("order_1", PaidPayment(), ExampleNotice());
            After(db, SyncRefund(db, ExampleNotice())) ==
            MarkPaymentRefunded(db.(refunds := db.refunds["refund_1" := row]), "order_1")
  {
    hide MarkPaymentRefunded, RowFromNotice, PlanActivation;
    assert PaidStore().payments["order_1"].razorpayPaymentId == Some("pay_1");
    assert FindByPaymentId(PaidStore().payments, "pay_1") == Some("order_1");
  }

  lemma NoticeSettlesPaid()
    ensures var db := Handle(PaidStore(), 0, RefundWebhook(ExampleNotice()));
            Settled(db, "order_1") && 8 !in db.invoices
  {
    hide Handle, SyncRefund, RowFromNotice, PlanActivation;
    RefundNoticesAreSynced(PaidStore(), 0, ExampleNotice());
    NoticeIsSynced();
    var row := RowFromNotice("order_1", PaidPayment(), ExampleNotice());
    MarkingSettles(PaidStore().(refunds := PaidStore().refunds["refund_1" := row]), "order_1", "order_1");
  }

  /** A run in which a payment is settled, and then gets an invoice that is not VOID. */
  lemma LateDraftIsNotVoid()
    ensures Settled(Exec(Initial(PLANS), LateDraft()[..4]).db, "order_1")
    ensures !Settled(Exec(Initial(PLANS), LateDraft()).db, "order_1")
  {
    hide Apply, Handle, Settled, PaidStore, ExampleDraft;
    var run := LateDraft();
    assert run[..4] == run[..3] + [run[3]] && run == run[..4] + [run[4]];
    ExecOneMore(Initial(PLANS), run[..3], run[3]);
    ExecOneMore(Initial(PLANS), run[..4], run[4]);
    DraftIsUnderWay();
    var s := Exec(Initial(PLANS), run[..3]);
    WholeHandles(s, run[3].request);
    NoticeSettlesPaid();
    var s' := Exec(Initial(PLANS), run[..4]);
    assert s'.ready == multiset{} + multiset{ExampleDraft()};
    FinishRuns(s', ExampleDraft(), multiset{});
    DraftForSettled(s'.db, 8, DraftOf(PlanPayment("order_1")), "order_1");
    assert RunCommit(s'.db, 0, ExampleDraft()) ==
           After(s'.db, CreateInvoice(s'.db, 8, DraftOf(PlanPayment("order_1")))) by { DraftIsCreated(s'.db); }
  }

  lemma DraftIsCreated(db: Store)
    ensures RunCommit(db, 0, ExampleDraft()) == After(db, CreateInvoice(db, 8, DraftOf(PlanPayment("order_1"))))
  {
  }
}
