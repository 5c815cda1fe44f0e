/**
 * Refunds: how the refund API and the gateway's webhooks combine, what a replayed
 * webhook does, and how often a payment can be refunded.
 */
module RefundLedger {
  import opened Prelude
  import opened Tables
  import opened PaymentEntity
  import opened Commits
  import opened Handlers
  import opened LedgerMachine
  import opened LedgerInvariant
  import opened OrderEvents

  /** The payment is refunded and none of its invoices can be collected. */
  ghost predicate Settled(db: Store, key: string) {
    && key in db.payments && db.payments[key].status == Refunded
    && forall id :: id in db.invoices && db.invoices[id].payment == key ==> db.invoices[id].status == Void
  }

  lemma VoidingTwice(invoices: map<Uuid, Invoice>, key: string)
    ensures VoidInvoices(VoidInvoices(invoices, key), key) == VoidInvoices(invoices, key)
  {
  }

  lemma MarkingTwice(db: Store, key: string)
    requires key in db.payments
    ensures var once := MarkPaymentRefunded(db, key);
            once.refunds == db.refunds && key in once.payments && MarkPaymentRefunded(once, key) == once
  {
    VoidingTwice(db.invoices, key);
    assert MarkPaymentRefunded(MarkPaymentRefunded(db, key), key).payments == MarkPaymentRefunded(db, key).payments;
  }

  /** A notice says nothing new to a store that already reflects it. */
  lemma KnownNoticeChangesNothing(db: Store, n: RefundNotice)
    requires n.razorpayRefundId in db.refunds
    requires var row := db.refunds[n.razorpayRefundId];
             row.status == n.status && (Truthy(n.arn) ==> row.arn == n.arn)
             && (n.status == Processed && row.payment in db.payments ==> MarkPaymentRefunded(db, row.payment) == db)
    ensures After(db, SyncRefund(db, n)) == db
  {
    var id := n.razorpayRefundId;
    assert db.refunds[id := db.refunds[id]] == db.refunds;
  }

  /** Receiving a refund webhook again changes nothing. */
  lemma ReplayedNoticeChangesNothing(db: Store, n: RefundNotice)
    ensures var once := After(db, SyncRefund(db, n));
            After(once, SyncRefund(once, n)) == once
  {
    hide MarkPaymentRefunded, FindByPaymentId;
    var id := n.razorpayRefundId;
    var found := FindByPaymentId(db.payments, n.razorpayPaymentId.GetOr(""));
    if id in db.refunds {
      var row := db.refunds[id].(status := n.status, arn := if Truthy(n.arn) then n.arn else db.refunds[id].arn);
      if row.payment in db.payments {
        MarkingTwice(db.(refunds := db.refunds[id := row]), row.payment);
        KnownNoticeChangesNothing(After(db, SyncRefund(db, n)), n);
      }
    } else if Truthy(n.razorpayPaymentId) && found.Some? {
      MarkingTwice(db.(refunds := db.refunds[id := RowFromNotice(found.value, db.payments[found.value], n)]),
                   found.value);
      KnownNoticeChangesNothing(After(db, SyncRefund(db, n)), n);
    }
  }

  /** Where the gateway's two accounts of a refund have to agree. */
  predicate SameAccount(p: Payment, q: RefundRequest, n: RefundNotice) {
    && n.amountPaise.GetOr(p.amountPaise) == q.amountPaise
    && n.currency.GetOr(p.currency) == q.currency
    && n.reason == q.reason
    && (Truthy(n.arn) || n.arn == q.arn)
  }

  /** The refund API's commit, then the webhook. */
  ghost function ApiThenNotice(db: Store, t: Payment, q: RefundRequest, n: RefundNotice): Store {
    var first := After(db, Commits.ProcessOrderRefund(db, t, q));
    After(first, SyncRefund(first, n))
  }

  /** The webhook, then the refund API's commit. */
  ghost function NoticeThenApi(db: Store, t: Payment, q: RefundRequest, n: RefundNotice): Store {
    var first := After(db, SyncRefund(db, n));
    After(first, Commits.ProcessOrderRefund(first, t, q))
  }

  /** The store with the payment refunded and `row` as its refund. */
  function RefundedWith(db: Store, key: string, id: string, row: Refund): Store
    requires key in db.payments
  {
    MarkPaymentRefunded(db.(refunds := db.refunds[id := row]), key)
  }

  lemma ApiThenNoticeIs(db: Store, key: string, t: Payment, q: RefundRequest, n: RefundNotice)
    requires key in db.payments && t.razorpayOrderId == key && t.status == Refunded
    requires db.payments[key].status != Refunded && q.razorpayRefundId !in db.refunds
    requires n.razorpayRefundId == q.razorpayRefundId && n.status == Processed
    ensures ApiThenNotice(db, t, q, n) ==
            RefundedWith(db, key, q.razorpayRefundId,
              Refund(key, q.amountPaise, q.currency, Processed, q.reason,
                     if Truthy(n.arn) then n.arn else q.arn, q.paymentMethod))
  {
    VoidingTwice(db.invoices, key);
    var row := Refund(key, q.amountPaise, q.currency, Processed, q.reason,
                      if Truthy(n.arn) then n.arn else q.arn, q.paymentMethod);
    assert ApiThenNotice(db, t, q, n).refunds == db.refunds[q.razorpayRefundId := row];
  }

  lemma NoticeThenApiIs(db: Store, key: string, t: Payment, q: RefundRequest, n: RefundNotice)
    requires UniquePaymentIds(db.payments) && key in db.payments && t.razorpayOrderId == key
    requires n.razorpayRefundId !in db.refunds && n.status == Processed
    requires Truthy(n.razorpayPaymentId) && db.payments[key].razorpayPaymentId == n.razorpayPaymentId
    ensures var first := After(db, SyncRefund(db, n));
            Commits.ProcessOrderRefund(first, t, q) == Aborted(PaymentAlreadyRefunded)
    ensures NoticeThenApi(db, t, q, n) ==
            RefundedWith(db, key, n.razorpayRefundId, RowFromNotice(key, db.payments[key], n))
  {
    assert FindByPaymentId(db.payments, n.razorpayPaymentId.value) == Some(key);
  }

  /**
   * For a refund that the API has prepared and the gateway reports as processed, the
   * two commits may come in either order: both end with the payment settled and one
   * PROCESSED refund row, although in one order the API call fails. The stores are
   * equal exactly when the two accounts of the refund agree.
   */
  lemma RefundAndNoticeCommute(db: Store, now: Instant, r: Request, t: Payment, q: RefundRequest, n: RefundNotice)
    requires StoreOk(db) && r.ProcessOrderRefund? && Prepare(db, now, r) == Some(RefundOrder(t, q))
    requires n.status == Processed && n.razorpayRefundId == q.razorpayRefundId && q.razorpayRefundId !in db.refunds
    requires n.razorpayPaymentId == t.razorpayPaymentId
    ensures var first := After(db, SyncRefund(db, n));
            Commits.ProcessOrderRefund(first, t, q) == Aborted(PaymentAlreadyRefunded)
    ensures Settled(ApiThenNotice(db, t, q, n), t.razorpayOrderId)
            && Settled(NoticeThenApi(db, t, q, n), t.razorpayOrderId)
    ensures var id := q.razorpayRefundId;
            var a, b := ApiThenNotice(db, t, q, n).refunds, NoticeThenApi(db, t, q, n).refunds;
            && id in a && a == db.refunds[id := a[id]] && a[id].status == Processed
            && id in b && b == db.refunds[id := b[id]] && b[id].status == Processed
            && a[id].paymentMethod == b[id].paymentMethod
    ensures ApiThenNotice(db, t, q, n) == NoticeThenApi(db, t, q, n) <==> SameAccount(t, q, n)
  {
    hide ApiThenNotice, NoticeThenApi, SyncRefund, Commits.ProcessOrderRefund;
    var key := r.latest.value;
    var p := db.payments[key];
    assert PaymentOk(db, key, p);
    assert t == p.(status := Refunded) && p.status == Captured;
    ApiThenNoticeIs(db, key, t, q, n);
    NoticeThenApiIs(db, key, t, q, n);
    var a := Refund(key, q.amountPaise, q.currency, Processed, q.reason,
                    if Truthy(n.arn) then n.arn else q.arn, q.paymentMethod);
    var b := RowFromNotice(key, p, n);
    assert a.paymentMethod == b.paymentMethod;
    assert a == b <==> SameAccount(t, q, n);
    assert db.refunds[q.razorpayRefundId := a][q.razorpayRefundId] == a;
    assert db.refunds[q.razorpayRefundId := b][q.razorpayRefundId] == b;
  }

  /** The id of the refund row that a step writes for the refund API, if it writes one. */
  ghost function ApiRefund(s: State, step: Step): Option<string> {
    match Runs(s, step)
    case Some(RefundOrder(t, q)) =>
      if Commits.ProcessOrderRefund(s.db, t, q).Committed? then Some(q.razorpayRefundId) else None
    case _ => None
  }

  /** Refund rows are never removed, and keep their payment and amount. */
  ghost predicate RefundsPersist(a: Store, b: Store) {
    forall id :: id in a.refunds ==>
      && id in b.refunds
      && b.refunds[id].payment == a.refunds[id].payment
      && b.refunds[id].amountPaise == a.refunds[id].amountPaise
      && b.refunds[id].currency == a.refunds[id].currency
  }

  lemma NoticeKeepsRefunds(db: Store, n: RefundNotice)
    ensures RefundsPersist(db, After(db, SyncRefund(db, n)))
  {
    hide RowFromNotice, FindByPaymentId, VoidInvoices;
  }

  lemma CommitKeepsRefunds(db: Store, now: Instant, c: Commit)
    ensures RefundsPersist(db, RunCommit(db, now, c))
  {
    hide SyncRefund;
    if c.RecordRefund? {
      NoticeKeepsRefunds(db, c.notice);
    }
  }

  lemma StepRefunds(s: State, step: Step)
    ensures Runs(s, step).None? ==> Apply(s, step).db.refunds == s.db.refunds
    ensures Runs(s, step).Some? ==> Apply(s, step).db.refunds == RunCommit(s.db, s.clock, Runs(s, step).value).refunds
    ensures RefundsPersist(s.db, Apply(s, step).db)
  {
    hide Prepare, RunCommit, NextCommit, IsPastDueListing;
    if Runs(s, step).Some? {
      StepHandlesCommit(s, step);
      CommitKeepsRefunds(s.db, s.clock, Runs(s, step).value);
    }
  }

  /** The refund rows that a run has written for the refund API. */
  ghost function ApiRefunds(plans: map<Uuid, Plan>, steps: seq<Step>): set<string> {
    if steps == [] then {}
    else
      var n := |steps| - 1;
      var written := ApiRefund(Exec(Initial(plans), steps[..n]), steps[n]);
      ApiRefunds(plans, steps[..n]) + if written.Some? then {written.value} else {}
  }

  predicate IsFullRefund(db: Store, id: string) {
    && id in db.refunds && db.refunds[id].payment in db.payments
    && db.refunds[id].amountPaise == db.payments[db.refunds[id].payment].amountPaise
    && db.refunds[id].currency == db.payments[db.refunds[id].payment].currency
  }

  /** A step that writes an API refund row writes it for the full amount of its payment, which it leaves REFUNDED. */
  lemma ApiRefundIsFull(s: State, step: Step)
    requires StateOk(s) && ApiRefund(s, step).Some?
    ensures var s' := Apply(s, step); var id := ApiRefund(s, step).value;
            && id !in s.db.refunds && IsFullRefund(s'.db, id)
            && s'.db.payments[s'.db.refunds[id].payment].status == Refunded
            && s'.db.refunds[id].payment in s.db.payments
            && s.db.payments[s'.db.refunds[id].payment].status != Refunded
  {
    hide StoreOk, Prepare, CommitOk;
    RunsOkCommit(s, step);
    var c := Runs(s, step).value;
    assert SamePayment(s.db, c.entity) && c.request.amountPaise == c.entity.amountPaise
           && c.request.currency == c.entity.currency && c.entity.status == Refunded by { RefundCommitOk(s.db, c); }
    StepWritesOnce(s, step);
    StepRefunds(s, step);
  }

  lemma RefundCommitOk(db: Store, c: Commit)
    requires c.RefundOrder? && CommitOk(db, c)
    ensures SamePayment(db, c.entity) && IsFood(c.entity) && c.entity.status == Refunded
    ensures c.request.amountPaise == c.entity.amountPaise && c.request.currency == c.entity.currency
  {
  }

  /** Every refund the API has ever written is for its payment's full amount, whatever webhooks follow. */
  lemma {:induction false} ApiRefundsAreFull(plans: map<Uuid, Plan>, steps: seq<Step>, id: string)
    requires id in ApiRefunds(plans, steps)
    ensures IsFullRefund(Exec(Initial(plans), steps).db, id)
  {
    hide StateOk, Apply, ApiRefund;
    var n := |steps| - 1;
    var s := Exec(Initial(plans), steps[..n]);
    ReachableIsOk(plans, steps[..n]);
    if id in ApiRefunds(plans, steps[..n]) {
      ApiRefundsAreFull(plans, steps[..n], id);
      StepRefunds(s, steps[n]);
      StepKeepsState(s, steps[n]);
      assert SameIdentity(s.db.payments[s.db.refunds[id].payment],
                          Apply(s, steps[n]).db.payments[s.db.refunds[id].payment]);
    } else {
      ApiRefundIsFull(s, steps[n]);
    }
  }

  /** The step takes the payment out of REFUNDED: a late capture, or a failure on a refunded payment. */
  ghost predicate Reopens(s: State, step: Step, key: string) {
    && key in s.db.payments && s.db.payments[key].status == Refunded
    && Runs(s, step).Some?
    && (Runs(s, step).value.CaptureOrder? || Runs(s, step).value.FailOrder?)
    && Runs(s, step).value.entity.razorpayOrderId == key
  }

  /** The step writes an API refund row for the payment. */
  ghost predicate RefundsThroughApi(s: State, step: Step, key: string) {
    ApiRefund(s, step).Some? && Runs(s, step).value.entity.razorpayOrderId == key
  }

  /**
   * Between two API refunds of one payment there is always a late capture or a
   * failure recorded on the refunded payment. Where no failure lands on a refunded
   * payment, a payment is therefore refunded at most once between two captures.
   */
  lemma {:induction false} RefundedAgainOnlyAfterReopening(plans: map<Uuid, Plan>, steps: seq<Step>, key: string,
                                                           i: nat)
    requires i + 1 < |steps|
    requires RefundsThroughApi(Exec(Initial(plans), steps[..i]), steps[i], key)
    requires RefundsThroughApi(Exec(Initial(plans), steps[..|steps| - 1]), steps[|steps| - 1], key)
    ensures exists m :: i < m < |steps| - 1 && Reopens(Exec(Initial(plans), steps[..m]), steps[m], key)
  {
    hide StateOk, Apply, ApiRefund, Reopens;
    var j := |steps| - 1;
    RefundLeavesRefunded(plans, steps, key, i);
    RefundFindsNotRefunded(plans, steps, key, j);
    var m := i + 1;
    while !Reopens(Exec(Initial(plans), steps[..m]), steps[m], key) && m < j
      invariant i < m <= j
      invariant key in Exec(Initial(plans), steps[..m]).db.payments
                && IsFood(Exec(Initial(plans), steps[..m]).db.payments[key])
      invariant Exec(Initial(plans), steps[..m]).db.payments[key].status == Refunded
    {
      StaysRefunded(plans, steps, key, m);
      m := m + 1;
    }
  }

  lemma RefundLeavesRefunded(plans: map<Uuid, Plan>, steps: seq<Step>, key: string, i: nat)
    requires i < |steps| && RefundsThroughApi(Exec(Initial(plans), steps[..i]), steps[i], key)
    ensures var db := Exec(Initial(plans), steps[..i + 1]).db;
            key in db.payments && IsFood(db.payments[key]) && db.payments[key].status == Refunded
  {
    hide StateOk, Apply;
    var s := Exec(Initial(plans), steps[..i]);
    ReachableIsOk(plans, steps[..i]);
    assert steps[..i + 1][..i] == steps[..i];
    RunsOkCommit(s, steps[i]);
    RefundCommitOk(s.db, Runs(s, steps[i]).value);
    StepWritesOnce(s, steps[i]);
  }

  lemma RefundFindsNotRefunded(plans: map<Uuid, Plan>, steps: seq<Step>, key: string, j: nat)
    requires j < |steps| && RefundsThroughApi(Exec(Initial(plans), steps[..j]), steps[j], key)
    ensures var db := Exec(Initial(plans), steps[..j]).db;
            key in db.payments && db.payments[key].status != Refunded
  {
  }

  /** A refunded payment stays refunded over a step that does not reopen it. */
  lemma StaysRefunded(plans: map<Uuid, Plan>, steps: seq<Step>, key: string, m: nat)
    requires m < |steps| && !Reopens(Exec(Initial(plans), steps[..m]), steps[m], key)
    requires var db := Exec(Initial(plans), steps[..m]).db;
             key in db.payments && IsFood(db.payments[key]) && db.payments[key].status == Refunded
    ensures var db := Exec(Initial(plans), steps[..m + 1]).db;
            key in db.payments && IsFood(db.payments[key]) && db.payments[key].status == Refunded
  {
    hide StateOk, Apply, OrderLog;
    var s := Exec(Initial(plans), steps[..m]);
    ReachableIsOk(plans, steps[..m]);
    assert steps[..m + 1][..m] == steps[..m];
    StepMoves(s, steps[m], key);
    StepKeepsState(s, steps[m]);
    assert SameIdentity(s.db.payments[key], Apply(s, steps[m]).db.payments[key]);
  }

  /** A payment.failed webhook recorded on a refunded payment. */
  ghost predicate FailsRefunded(s: State, step: Step, key: string) {
    Reopens(s, step, key) && Runs(s, step).value.FailOrder?
  }

  /** Where no failure lands on a refunded payment, only a new capture lets it be refunded again. */
  lemma RefundedOncePerCapture(plans: map<Uuid, Plan>, steps: seq<Step>, key: string, i: nat)
    requires i + 1 < |steps|
    requires RefundsThroughApi(Exec(Initial(plans), steps[..i]), steps[i], key)
    requires RefundsThroughApi(Exec(Initial(plans), steps[..|steps| - 1]), steps[|steps| - 1], key)
    requires forall m :: i < m < |steps| - 1 ==> !FailsRefunded(Exec(Initial(plans), steps[..m]), steps[m], key)
    ensures exists m :: i < m < |steps| - 1
              && Reopens(Exec(Initial(plans), steps[..m]), steps[m], key)
              && Runs(Exec(Initial(plans), steps[..m]), steps[m]).value.CaptureOrder?
  {
    hide Apply, ApiRefund;
    RefundedAgainOnlyAfterReopening(plans, steps, key, i);
    var m :| i < m < |steps| - 1 && Reopens(Exec(Initial(plans), steps[..m]), steps[m], key);
    assert !FailsRefunded(Exec(Initial(plans), steps[..m]), steps[m], key);
  }

  /** The step commits a capture of the payment. */
  ghost predicate CommitsCapture(s: State, step: Step, key: string) {
    && Runs(s, step).Some? && Runs(s, step).value.CaptureOrder?
    && Runs(s, step).value.entity.razorpayOrderId == key
  }

  ghost predicate NoCaptureSince(plans: map<Uuid, Plan>, steps: seq<Step>, key: string, i: nat) {
    forall m :: i < m < |steps| ==> !CommitsCapture(Exec(Initial(plans), steps[..m]), steps[m], key)
  }

  /** After an API refund, and until a capture, a payment is REFUNDED or FAILED. */
  lemma {:induction false} RefundedOrFailedSince(plans: map<Uuid, Plan>, steps: seq<Step>, key: string, i: nat)
    requires i < |steps| && RefundsThroughApi(Exec(Initial(plans), steps[..i]), steps[i], key)
    requires NoCaptureSince(plans, steps, key, i)
    ensures var db := Exec(Initial(plans), steps).db;
            && key in db.payments && IsFood(db.payments[key])
            && (db.payments[key].status == Refunded || db.payments[key].status == PaymentStatus.Failed)
    decreases |steps|
  {
    hide StateOk, Apply, ApiRefund, OrderLog;
    var n := |steps| - 1;
    if i == n {
      RefundLeavesRefunded(plans, steps, key, i);
      assert steps[..i + 1] == steps;
    } else {
      var front := steps[..n];
      assert front[..i] == steps[..i];
      forall m | i < m < n
        ensures !CommitsCapture(Exec(Initial(plans), front[..m]), front[m], key)
      {
        assert front[..m] == steps[..m];
        assert !CommitsCapture(Exec(Initial(plans), steps[..m]), steps[m], key);
      }
      RefundedOrFailedSince(plans, front, key, i);
      assert !CommitsCapture(Exec(Initial(plans), steps[..n]), steps[n], key);
      StaysRefundedOrFailed(plans, front, steps[n], key);
    }
  }

  lemma StaysRefundedOrFailed(plans: map<Uuid, Plan>, steps: seq<Step>, step: Step, key: string)
    requires var s := Exec(Initial(plans), steps);
             && key in s.db.payments && IsFood(s.db.payments[key]) && !CommitsCapture(s, step, key)
             && (s.db.payments[key].status == Refunded || s.db.payments[key].status == PaymentStatus.Failed)
    ensures var p := Apply(Exec(Initial(plans), steps), step).db.payments;
            && key in p && IsFood(p[key]) && (p[key].status == Refunded || p[key].status == PaymentStatus.Failed)
  {
    hide StateOk, Apply, OrderLog;
    var s := Exec(Initial(plans), steps);
    ReachableIsOk(plans, steps);
    StepMoves(s, step, key);
    StepKeepsState(s, step);
    assert SameIdentity(s.db.payments[key], Apply(s, step).db.payments[key]);
  }

  /** A refund request for the payment that was under way, and finds it FAILED and its refund id new. */
  predicate FinishesOnFailed(s: State, step: Step, key: string) {
    && step.Finish? && step.commit in s.ready && step.commit.RefundOrder? && step.commit.entity.razorpayOrderId == key
    && key in s.db.payments && s.db.payments[key].status == PaymentStatus.Failed
    && step.commit.request.razorpayRefundId !in s.db.refunds
  }

  lemma RefundOfUnpaid(s: State, step: Step, key: string)
    requires StateOk(s) && key in s.db.payments
    requires s.db.payments[key].status == Refunded || s.db.payments[key].status == PaymentStatus.Failed
    ensures RefundsThroughApi(s, step, key) <==> FinishesOnFailed(s, step, key)
  {
    hide StateOk, CommitOk, Prepare;
    if step.Whole? && RefundsThroughApi(s, step, key) {
      WholeRefundsFindPaid(s, step.request, key);
    }
  }

  /**
   * In every run: when the API has refunded a payment and no capture of it has been
   * committed since, a step writes a second row if and only if it finishes a refund
   * request that was under way and finds the payment FAILED and its refund id new.
   */
  lemma SecondRefundFindsFailure(plans: map<Uuid, Plan>, steps: seq<Step>, key: string, i: nat, step: Step)
    requires i < |steps| && RefundsThroughApi(Exec(Initial(plans), steps[..i]), steps[i], key)
    requires NoCaptureSince(plans, steps, key, i)
    ensures var s := Exec(Initial(plans), steps); RefundsThroughApi(s, step, key) <==> FinishesOnFailed(s, step, key)
  {
    hide StateOk, Apply, RefundsThroughApi, FinishesOnFailed;
    RefundedOrFailedSince(plans, steps, key, i);
    ReachableIsOk(plans, steps);
    RefundOfUnpaid(Exec(Initial(plans), steps), step, key);
  }

  lemma WholeRefundsFindPaid(s: State, request: Request, key: string)
    requires StateOk(s) && RefundsThroughApi(s, Whole(request), key)
    ensures key in s.db.payments && (s.db.payments[key].status == Captured || s.db.payments[key].status == Success)
  {
    hide CommitOk;
    match request
    case ProcessOrderRefund(_, _, _, latest, _) => assert PaymentOk(s.db, latest.value, s.db.payments[latest.value]);
    case _ =>
  }

  /**
   * That can happen: when two refund requests of a captured
   * payment are under way and a payment.failed webhook comes between their commits,
   * both write a refund row with no capture in between.
   */
  lemma FailureLetsRefundRepeat(s: State, t: Payment, q: RefundRequest, t': Payment, q': RefundRequest, reason: string)
    requires StateOk(s) && RefundOrder(t, q) in s.ready && RefundOrder(t', q') in s.ready
    requires t.razorpayOrderId == t'.razorpayOrderId && s.db.payments[t.razorpayOrderId].status == Captured
    requires q.razorpayRefundId != q'.razorpayRefundId
    requires q.razorpayRefundId !in s.db.refunds && q'.razorpayRefundId !in s.db.refunds
    ensures var key := t.razorpayOrderId;
            var s1 := Apply(s, Finish(RefundOrder(t, q)));
            var s2 := Apply(s1, Whole(FailedWebhook(key, reason)));
            var s3 := Apply(s2, Finish(RefundOrder(t', q')));
            && RefundsThroughApi(s, Finish(RefundOrder(t, q)), key)
            && RefundsThroughApi(s2, Finish(RefundOrder(t', q')), key)
            && Captures(OrderLog(s3.db.outbox, key)) == Captures(OrderLog(s.db.outbox, key))
  {
    hide OrderLog, StoreOk, CommitOk;
    var key := t.razorpayOrderId;
    assert CommitOk(s.db, RefundOrder(t, q)) && CommitOk(s.db, RefundOrder(t', q'));
    RefundCommitOk(s.db, RefundOrder(t, q));
    RefundCommitOk(s.db, RefundOrder(t', q'));
    StoreOkPayment(s.db, key);
    var s1 := Apply(s, Finish(RefundOrder(t, q)));
    var s2 := Apply(s1, Whole(FailedWebhook(key, reason)));
    RefundOfCapturedIsWritten(s, t, q);
    FailureLandsOnRefunded(s1, key, reason);
    assert RefundOrder(t', q') in s1.ready;
    RefundOfCapturedIsWritten(s2, t', q');
  }

  /** A prepared API refund is written unless its payment is REFUNDED or its row is already there. */
  lemma RefundOfCapturedIsWritten(s: State, t: Payment, q: RefundRequest)
    requires RefundOrder(t, q) in s.ready && t.razorpayOrderId in s.db.payments
    requires s.db.payments[t.razorpayOrderId].status != Refunded && q.razorpayRefundId !in s.db.refunds
    requires t.status == Refunded
    ensures var s' := Apply(s, Finish(RefundOrder(t, q)));
            && ApiRefund(s, Finish(RefundOrder(t, q))) == Some(q.razorpayRefundId)
            && t.razorpayOrderId in s'.db.payments
            && s'.db.payments[t.razorpayOrderId] == s.db.payments[t.razorpayOrderId].(status := Refunded)
            && s'.db.outbox == s.db.outbox
            && (forall id :: id in s'.db.refunds <==> id in s.db.refunds || id == q.razorpayRefundId)
            && s'.ready == s.ready - multiset{RefundOrder(t, q)}
  {
  }

  lemma RefundedCanFail(db: Store, now: Instant, key: string, reason: string)
    requires key in db.payments && IsFood(db.payments[key]) && db.payments[key].status == Refunded
    ensures var p := db.payments[key];
            Prepare(db, now, FailedWebhook(key, reason)) ==
            Some(FailOrder(AfterFailure(p, reason), OrderEvent(OrderFailed, p.orderId.value, AfterFailure(p, reason))))
  {
  }

  lemma FailureOfRefundedCommits(db: Store, now: Instant, t: Payment, event: OutboxEvent)
    requires t.razorpayOrderId in db.payments && db.payments[t.razorpayOrderId].status == Refunded
    ensures var db' := RunCommit(db, now, FailOrder(t, event));
            && t.razorpayOrderId in db'.payments && db'.payments[t.razorpayOrderId].status == t.status
            && db'.refunds == db.refunds && db'.outbox == db.outbox + [event]
  {
  }

  /** A payment.failed webhook marks a REFUNDED food-order payment as FAILED and logs no capture. */
  lemma FailureLandsOnRefunded(s: State, key: string, reason: string)
    requires key in s.db.payments && s.db.payments[key].razorpayOrderId == key
    requires IsFood(s.db.payments[key]) && s.db.payments[key].status == Refunded
    ensures var s' := Apply(s, Whole(FailedWebhook(key, reason)));
            && key in s'.db.payments && s'.db.payments[key].status == PaymentStatus.Failed
            && s'.db.refunds == s.db.refunds && s'.ready == s.ready
            && OrderLog(s'.db.outbox, key) == OrderLog(s.db.outbox, key) + [OrderFailed]
  {
    hide OrderLog, RunCommit, IsPastDueListing, Prepare;
    var p := s.db.payments[key];
    var event := OrderEvent(OrderFailed, p.orderId.value, AfterFailure(p, reason));
    RefundedCanFail(s.db, s.clock, key, reason);
    FailureOfRefundedCommits(s.db, s.clock, AfterFailure(p, reason), event);
    OrderLogGrows(s.db.outbox, event, key);
  }

  function ExampleRefund(id: string): Request {
    Request.ProcessOrderRefund(1, None, None, Some("order_1"), Accepted(id, true, None))
  }

  function ExampleRefundCommit(id: string): Commit {
    RefundOrder(ExampleCapture().entity.(status := Refunded),
                RefundRequest(id, 500, "INR", RefundStatus.Processed, None, None, Some("ONLINE")))
  }

  /** Two refund requests that both read the payment while it is captured. */
  function TwoRefundsUnderWay(): seq<Step> {
    [Whole(CreateOrderPayment(1, 2, 3, 500, "INR", "order_1", None)), Whole(ExampleVerify()),
     Begin(ExampleRefund("refund_1")), Begin(ExampleRefund("refund_2"))]
  }

  lemma ExampleIsPaid()
    ensures Handle(ExampleStore(ExamplePayment(), []), 0, ExampleVerify()) ==
            ExampleStore(ExampleCapture().entity, [ExampleCapture().event])
  {
    var paid := ExampleCapture().entity;
    assert map["order_1" := ExamplePayment()]["order_1" := paid] == map["order_1" := paid];
    assert [] + [ExampleCapture().event] == [ExampleCapture().event];
    assert ExamplePayment().(status := Captured, razorpayPaymentId := Some("pay_1"),
                             razorpaySignature := Some("signature")) == paid;
  }

  lemma ExampleRefundIsPrepared(id: string)
    ensures Prepare(ExampleStore(ExampleCapture().entity, [ExampleCapture().event]), 0, ExampleRefund(id)) ==
            Some(ExampleRefundCommit(id))
  {
    var payments := map["order_1" := ExampleCapture().entity];
    assert KeysOfOrder(payments, 1) == {"order_1"};
  }

  /** Such a state is reachable. */
  lemma TwoRefundsCanBeUnderWay()
    ensures var s := Exec(Initial(map[]), TwoRefundsUnderWay());
            && ExampleRefundCommit("refund_1") in s.ready && ExampleRefundCommit("refund_2") in s.ready
            && s.db == ExampleStore(ExampleCapture().entity, [ExampleCapture().event])
  {
    hide Prepare, Handle, ExampleCapture, ExamplePayment, ExampleRefundCommit;
    var run := TwoRefundsUnderWay();
    ExecFour(Initial(map[]), run[0], run[1], run[2], run[3]);
    ExampleIsCreated();
    ExampleIsPaid();
    ExampleRefundIsPrepared("refund_1");
    ExampleRefundIsPrepared("refund_2");
  }

  /** A run that writes two API refund rows for one payment, with one capture before both. */
  lemma RefundsRepeatInARun()
    ensures var key := "order_1";
            var first, second := Finish(ExampleRefundCommit("refund_1")), Finish(ExampleRefundCommit("refund_2"));
            var s := Exec(Initial(map[]), TwoRefundsUnderWay());
            var failed := Apply(Apply(s, first), Whole(FailedWebhook(key, "declined")));
            && RefundsThroughApi(s, first, key) && RefundsThroughApi(failed, second, key)
            && OrderLog(s.db.outbox, key) == [OrderCaptured]
            && Captures(OrderLog(Apply(failed, second).db.outbox, key)) == 1
  {
    hide Apply, RefundsThroughApi, Exec, TwoRefundsUnderWay;
    ReachableIsOk(map[], TwoRefundsUnderWay());
    TwoRefundsCanBeUnderWay();
    ExampleLogsCapture();
    BothExamplesRefund(Exec(Initial(map[]), TwoRefundsUnderWay()));
  }

  lemma ExampleLogsCapture()
    ensures OrderLog([ExampleCapture().event], "order_1") == [OrderCaptured]
  {
    OrderLogGrows([], ExampleCapture().event, "order_1");
    assert [] + [ExampleCapture().event] == [ExampleCapture().event];
  }

  lemma BothExamplesRefund(s: State)
    requires StateOk(s) && ExampleRefundCommit("refund_1") in s.ready && ExampleRefundCommit("refund_2") in s.ready
    requires s.db == ExampleStore(ExampleCapture().entity, [ExampleCapture().event])
    ensures var first, second := Finish(ExampleRefundCommit("refund_1")), Finish(ExampleRefundCommit("refund_2"));
            var failed := Apply(Apply(s, first), Whole(FailedWebhook("order_1", "declined")));
            && RefundsThroughApi(s, first, "order_1") && RefundsThroughApi(failed, second, "order_1")
            && Captures(OrderLog(Apply(failed, second).db.outbox, "order_1")) ==
                Captures(OrderLog(s.db.outbox, "order_1"))
  {
    hide Apply, RefundsThroughApi, StateOk, OrderLog, Captures;
    var c, d := ExampleRefundCommit("refund_1"), ExampleRefundCommit("refund_2");
    FailureLetsRefundRepeat(s, c.entity, c.request, d.entity, d.request, "declined");
  }

  /** The guards that are missing: a refunded food order can be captured again, with a second event. */
  lemma RefundedCanBeCapturedAgain(db: Store, now: Instant, key: string, choice: ActivationChoice)
    requires StoreOk(db) && key in db.payments && IsFood(db.payments[key]) && db.payments[key].status == Refunded
    ensures var db' := Handle(db, now, PaidWebhook(key, None, None, choice));
            && db'.payments[key].status == Captured
            && OrderLog(db'.outbox, key) == OrderLog(db.outbox, key) + [OrderCaptured]
  {
    var p := db.payments[key];
    assert PaymentOk(db, key, p);
    var c := Prepare(db, now, PaidWebhook(key, None, None, choice)).value;
    OrderLogGrows(db.outbox, c.event, key);
  }

  /** The example payment, refunded by one of its two requests and then reported as paid. */
  function CapturedTwice(): seq<Step> {
    TwoRefundsUnderWay() + [Finish(ExampleRefundCommit("refund_1"))]
    + [Whole(PaidWebhook("order_1", None, None, ActivationChoice(0, 0, None)))]
  }

  /** A run in which a payment is captured, refunded and captured again. */
  lemma CapturedTwiceInARun()
    ensures var db := Exec(Initial(map[]), CapturedTwice()).db;
            && OrderLog(db.outbox, "order_1") == [OrderCaptured, OrderCaptured]
            && "order_1" in db.payments && db.payments["order_1"].status == Captured
  {
    hide Apply, Handle, Exec, OrderLog, StateOk, TwoRefundsUnderWay;
    var front, c := TwoRefundsUnderWay(), ExampleRefundCommit("refund_1");
    var request := PaidWebhook("order_1", None, None, ActivationChoice(0, 0, None));
    TwoRefundsCanBeUnderWay();
    ExampleLogsCapture();
    ExecOneMore(Initial(map[]), front, Finish(c));
    ExecOneMore(Initial(map[]), front + [Finish(c)], Whole(request));
    RefundOfCapturedIsWritten(Exec(Initial(map[]), front), c.entity, c.request);
    var s := Exec(Initial(map[]), front + [Finish(c)]);
    ReachableIsOk(map[], front + [Finish(c)]);
    assert StoreOk(s.db) by { StateOkHasStore(s); }
    RefundedCanBeCapturedAgain(s.db, s.clock, "order_1", request.choice);
    WholeHandles(s, request);
    HandleKeepsStore(s.db, s.clock, request);
  }
}
