/** What every run keeps: the integrity of the tables and of the prepared commits. */
module LedgerInvariant {
  import opened Prelude
  import opened Tables
  import opened PaymentEntity
  import opened Commits
  import opened Handlers
  import opened LedgerMachine

  predicate IsFood(p: Payment) { p.orderId.Some? }

  /** A payment belongs to a food order or to a plan, and its columns fit its kind. */
  predicate PaymentOk(db: Store, key: string, p: Payment) {
    && p.razorpayOrderId == key
    && (p.orderId.Some? <==> p.planId.None?)
    && (IsFood(p) ==> p.status != Success && p.subscriptionId.None?)
    && (!IsFood(p) ==> p.status != Captured)
    && (p.status == Success ==> p.subscriptionId.Some?)
    && (p.subscriptionId.Some? ==>
          && p.subscriptionId.value in db.subscriptions
          && db.subscriptions[p.subscriptionId.value].restaurantId == p.restaurantId
          && Some(db.subscriptions[p.subscriptionId.value].planId) == p.planId)
    && (!IsFood(p) && p.subscriptionId.None? ==>
          (p.status == Created || p.status == PaymentStatus.Failed) && p.razorpayPaymentId.None?)
  }

  /** An event tells of an existing row, with that row's identity. */
  predicate EventOk(db: Store, e: OutboxEvent) {
    match e.payload
    case OrderPayload(key, orderId, restaurantId, amountPaise, currency) =>
      && (e.eventType == OrderCaptured || e.eventType == OrderFailed)
      && key in db.payments
      && var p := db.payments[key];
      && p.orderId == Some(orderId) && e.aggregateId == orderId
      && p.restaurantId == restaurantId && p.amountPaise == amountPaise && p.currency == currency
    case SubscriptionPayload(id, restaurantId, periodEnd) =>
      && (e.eventType == SubscriptionActivated || e.eventType == SubscriptionExpired)
      && id in db.subscriptions
      && e.aggregateId == restaurantId && db.subscriptions[id].restaurantId == restaurantId
      && db.subscriptions[id].currentPeriodEnd == periodEnd
  }

  /** A refund row names a payment that has been paid for: a food order's, or one with a subscription. */
  predicate RefundOk(db: Store, r: Refund) {
    r.payment in db.payments && (IsFood(db.payments[r.payment]) || db.payments[r.payment].subscriptionId.Some?)
  }

  ghost predicate StoreOk(db: Store) {
    && (forall k :: k in db.payments ==> PaymentOk(db, k, db.payments[k]))
    && UniquePaymentIds(db.payments)
    && (forall r :: r in db.refunds ==> RefundOk(db, db.refunds[r]))
    && (forall i :: 0 <= i < |db.outbox| ==> EventOk(db, db.outbox[i]))
  }

  predicate SamePayment(db: Store, t: Payment) {
    t.razorpayOrderId in db.payments && SameIdentity(db.payments[t.razorpayOrderId], t)
  }

  predicate IsNewRow(row: Payment) {
    && (row.orderId.Some? <==> row.planId.None?)
    && row.status == Created && row.subscriptionId.None? && row.razorpayPaymentId.None?
  }

  /** A prepared commit still describes the payment it was prepared for. */
  predicate CommitOk(db: Store, c: Commit) {
    match c
    case CaptureOrder(t, event) =>
      SamePayment(db, t) && IsFood(t) && t.status == Captured && event == OrderEvent(OrderCaptured, t.orderId.value, t)
    case FailOrder(t, event) =>
      SamePayment(db, t) && IsFood(t) && t.status == PaymentStatus.Failed
          && event == OrderEvent(OrderFailed, t.orderId.value, t)
    case FailPlanPayment(key, _) => key in db.payments && !IsFood(db.payments[key])
    case ResetPlanPayment(key) => key in db.payments && !IsFood(db.payments[key])
    case ActivatePlan(a, _) =>
      && a.razorpayOrderId in db.payments
      && db.payments[a.razorpayOrderId].restaurantId == a.restaurantId
      && db.payments[a.razorpayOrderId].planId == Some(a.planId)
    case RefundOrder(t, request) =>
      SamePayment(db, t) && IsFood(t) && t.status == Refunded
      && request.amountPaise == t.amountPaise && request.currency == t.currency
    case RecordRefund(_) => true
    case CreateTransaction(row, _) => IsNewRow(row)
    case DraftInvoice(_, invoice) => invoice.payment in db.payments && invoice.status == Draft
  }

  /** `b` has everything `a` has, with nothing renamed: rows keep their identity, the log only grows. */
  ghost predicate Extends(a: Store, b: Store) {
    && b.plans == a.plans
    && (forall k :: k in a.payments ==> k in b.payments && SameIdentity(a.payments[k], b.payments[k]))
    && (forall id ::
        id in a.subscriptions ==> id in b.subscriptions && SameTerms(a.subscriptions[id], b.subscriptions[id]))
    && a.outbox <= b.outbox
  }

  predicate SameTerms(a: Subscription, b: Subscription) {
    a.(status := Active) == b.(status := Active)
  }

  lemma ExtendsIsReflexive(a: Store)
    ensures Extends(a, a)
  {
  }

  lemma ExtendsIsTransitive(a: Store, b: Store, c: Store)
    requires Extends(a, b) && Extends(b, c)
    ensures Extends(a, c)
  {
    forall k | k in a.payments
      ensures k in c.payments && SameIdentity(a.payments[k], c.payments[k])
    {
      assert SameIdentity(a.payments[k], b.payments[k]);
    }
    forall id | id in a.subscriptions
      ensures id in c.subscriptions && SameTerms(a.subscriptions[id], c.subscriptions[id])
    {
      assert SameTerms(a.subscriptions[id], b.subscriptions[id]);
    }
  }

  /** A prepared commit outlives whatever commits before it. */
  lemma CommitOkExtends(a: Store, b: Store, c: Commit)
    requires Extends(a, b) && CommitOk(a, c)
    ensures CommitOk(b, c)
  {
    match c
    case CaptureOrder(t, _) => assert SameIdentity(a.payments[t.razorpayOrderId], b.payments[t.razorpayOrderId]);
    case FailOrder(t, _) => assert SameIdentity(a.payments[t.razorpayOrderId], b.payments[t.razorpayOrderId]);
    case RefundOrder(t, _) => assert SameIdentity(a.payments[t.razorpayOrderId], b.payments[t.razorpayOrderId]);
    case ActivatePlan(x, _) => assert SameIdentity(a.payments[x.razorpayOrderId], b.payments[x.razorpayOrderId]);
    case FailPlanPayment(key, _) => assert SameIdentity(a.payments[key], b.payments[key]);
    case ResetPlanPayment(key) => assert SameIdentity(a.payments[key], b.payments[key]);
    case _ =>
  }

  /** Events stay true when the store is extended. */
  lemma EventsExtend(a: Store, b: Store)
    requires Extends(a, b) && forall i :: 0 <= i < |a.outbox| ==> EventOk(a, a.outbox[i])
    ensures forall i :: 0 <= i < |a.outbox| ==> EventOk(b, a.outbox[i])
  {
    forall i | 0 <= i < |a.outbox|
      ensures EventOk(b, a.outbox[i])
    {
      assert EventOk(a, a.outbox[i]);
      match a.outbox[i].payload
      case OrderPayload(key, _, _, _, _) => assert SameIdentity(a.payments[key], b.payments[key]);
      case SubscriptionPayload(id, _, _) => assert SameTerms(a.subscriptions[id], b.subscriptions[id]);
    }
  }

  /** Writing one payment row back, with its identity kept, and logging events. */
  lemma RowWritten(db: Store, db': Store, key: string)
    requires StoreOk(db) && key in db.payments && key in db'.payments
    requires db'.plans == db.plans && db'.payments == db.payments[key := db'.payments[key]]
    requires SameIdentity(db.payments[key], db'.payments[key]) && PaymentOk(db', key, db'.payments[key])
    requires !PaymentIdTaken(db.payments, key, db'.payments[key].razorpayPaymentId)
    requires forall id :: id in db.subscriptions ==>
               id in db'.subscriptions && SameTerms(db.subscriptions[id], db'.subscriptions[id])
    requires db.outbox <= db'.outbox && forall i :: |db.outbox| <= i < |db'.outbox| ==> EventOk(db', db'.outbox[i])
    requires forall r :: r in db'.refunds ==> RefundOk(db', db'.refunds[r])
    ensures StoreOk(db') && Extends(db, db')
  {
    forall k | k in db'.payments
      ensures PaymentOk(db', k, db'.payments[k])
    {
      if k != key {
        assert PaymentOk(db, k, db.payments[k]);
        if db.payments[k].subscriptionId.Some? {
          assert SameTerms(db.subscriptions[db.payments[k].subscriptionId.value],
                           db'.subscriptions[db.payments[k].subscriptionId.value]);
        }
      }
    }
    forall j, k | j in db'.payments && k in db'.payments && j != k && db'.payments[j].razorpayPaymentId.Some?
      ensures db'.payments[j].razorpayPaymentId != db'.payments[k].razorpayPaymentId
    {
    }
    assert Extends(db, db');
    EventsExtend(db, db');
  }

  lemma CaptureKeepsStore(db: Store, t: Payment, event: OutboxEvent)
    requires StoreOk(db) && CommitOk(db, CaptureOrder(t, event))
    ensures var db' := After(db, CaptureOrderPayment(db, t, event));
            StoreOk(db') && Extends(db, db')
  {
    var key := t.razorpayOrderId;
    var db' := After(db, CaptureOrderPayment(db, t, event));
    assert PaymentOk(db, key, db.payments[key]);
    if db' != db {
      assert EventOk(db', event);
      RefundsExtend(db, db', key);
      RowWritten(db, db', key);
    }
  }

  lemma FailureKeepsStore(db: Store, t: Payment, event: OutboxEvent)
    requires StoreOk(db) && CommitOk(db, FailOrder(t, event))
    ensures var db' := After(db, FailOrderPayment(db, t, event));
            StoreOk(db') && Extends(db, db')
  {
    var key := t.razorpayOrderId;
    var db' := After(db, FailOrderPayment(db, t, event));
    assert PaymentOk(db, key, db.payments[key]);
    if db' != db {
      assert EventOk(db', event);
      RefundsExtend(db, db', key);
      RowWritten(db, db', key);
    }
  }

  /** Refund rows stay sound when no refund row is written and no payment loses its subscription. */
  lemma RefundsExtend(db: Store, db': Store, key: string)
    requires StoreOk(db) && key in db.payments && key in db'.payments
    requires db'.refunds == db.refunds && db'.payments == db.payments[key := db'.payments[key]]
    requires db'.payments[key].orderId == db.payments[key].orderId
    requires db.payments[key].subscriptionId.Some? ==> db'.payments[key].subscriptionId.Some?
    ensures forall r :: r in db'.refunds ==> RefundOk(db', db'.refunds[r])
  {
    forall r | r in db'.refunds
      ensures RefundOk(db', db'.refunds[r])
    {
      assert RefundOk(db, db.refunds[r]);
    }
  }

  /** The unconditional status writes touch plan payments only, which stay in their kind. */
  lemma PlanStatusKeepsStore(db: Store, db': Store, key: string)
    requires StoreOk(db) && key in db.payments && key in db'.payments && !IsFood(db.payments[key])
    requires db' == db.(payments := db'.payments) && db'.payments == db.payments[key := db'.payments[key]]
    requires var s := db'.payments[key].status; s == Created || s == PaymentStatus.Failed
    requires db'.payments[key] ==
             db.payments[key].(status := db'.payments[key].status, failureReason := db'.payments[key].failureReason)
    ensures StoreOk(db') && Extends(db, db')
  {
    assert PaymentOk(db, key, db.payments[key]);
    RefundsExtend(db, db', key);
    RowWritten(db, db', key);
  }

  lemma ActivationKeepsStore(db: Store, a: Activation, choice: ActivationChoice)
    requires StoreOk(db) && CommitOk(db, ActivatePlan(a, choice))
    ensures var db' := After(db, ActivateSubscription(db, a, choice));
            StoreOk(db') && Extends(db, db')
  {
    var key := a.razorpayOrderId;
    var db' := After(db, ActivateSubscription(db, a, choice));
    assert PaymentOk(db, key, db.payments[key]);
    if db' != db {
      assert EventOk(db', ActivatedEvent(a, choice.subscription));
      RefundsExtend(db, db', key);
      RowWritten(db, db', key);
    }
  }

  lemma RefundKeepsStore(db: Store, t: Payment, request: RefundRequest)
    requires StoreOk(db) && CommitOk(db, RefundOrder(t, request))
    ensures var db' := After(db, Commits.ProcessOrderRefund(db, t, request));
            StoreOk(db') && Extends(db, db')
  {
    var key := t.razorpayOrderId;
    var db' := After(db, Commits.ProcessOrderRefund(db, t, request));
    assert PaymentOk(db, key, db.payments[key]);
    if db' != db {
      forall r | r in db'.refunds
        ensures RefundOk(db', db'.refunds[r])
      {
        assert r in db.refunds ==> RefundOk(db, db.refunds[r]);
      }
      RowWritten(db, db', key);
    }
  }

  /** Marking a payment refunded, after a refund row of it has been written. */
  lemma MarkRefundedKeepsStore(db: Store, written: Store, id: string, row: Refund)
    requires StoreOk(db) && written == db.(refunds := db.refunds[id := row]) && RefundOk(db, row)
    ensures StoreOk(written) && Extends(db, written)
    ensures var db' := MarkPaymentRefunded(written, row.payment); StoreOk(db') && Extends(db, db')
  {
    var key := row.payment;
    var db' := MarkPaymentRefunded(written, key);
    assert PaymentOk(db, key, db.payments[key]);
    forall r | r in db'.refunds
      ensures RefundOk(written, written.refunds[r]) && RefundOk(db', db'.refunds[r])
    {
      assert r in db.refunds ==> RefundOk(db, db.refunds[r]);
    }
    assert db.payments == db.payments[key := db.payments[key]];
    RowWritten(db, written, key);
    RowWritten(db, db', key);
  }

  predicate NoticeWrote(db: Store, db': Store, processed: bool, key: string) {
    && db'.plans == db.plans && db'.subscriptions == db.subscriptions && db'.outbox == db.outbox
    && (key in db'.payments <==> key in db.payments)
    && (key in db.payments ==>
          db'.payments[key] == db.payments[key]
          || (processed && db'.payments[key] == db.payments[key].(status := Refunded)))
  }

  lemma MarkingWrites(db: Store, refunds: map<string, Refund>, refunded: string, key: string)
    requires refunded in db.payments
    ensures NoticeWrote(db, MarkPaymentRefunded(db.(refunds := refunds), refunded), true, key)
  {
  }

  /** A refund webhook writes refund rows and, once processed, the status and invoices of their payment. */
  lemma NoticeWritesRefunds(db: Store, n: RefundNotice, key: string)
    ensures NoticeWrote(db, After(db, SyncRefund(db, n)), n.status == Processed, key)
  {
    hide MarkPaymentRefunded, RowFromNotice, FindByPaymentId;
    var id := n.razorpayRefundId;
    var found := FindByPaymentId(db.payments, n.razorpayPaymentId.GetOr(""));
    if id in db.refunds {
      var row := db.refunds[id].(status := n.status, arn := if Truthy(n.arn) then n.arn else db.refunds[id].arn);
      if row.payment in db.payments {
        MarkingWrites(db, db.refunds[id := row], row.payment, key);
      }
    } else if found.Some? {
      MarkingWrites(db, db.refunds[id := RowFromNotice(found.value, db.payments[found.value], n)], found.value, key);
    }
  }

  lemma StoreOkPayment(db: Store, key: string)
    requires StoreOk(db) && key in db.payments
    ensures PaymentOk(db, key, db.payments[key])
  {
  }

  lemma StoreOkRefund(db: Store, id: string)
    requires StoreOk(db) && id in db.refunds
    ensures RefundOk(db, db.refunds[id])
  {
  }

  lemma NoticeKeepsStore(db: Store, n: RefundNotice)
    requires StoreOk(db)
    ensures var db' := After(db, SyncRefund(db, n));
            StoreOk(db') && Extends(db, db')
  {
    hide StoreOk, PaymentOk, EventOk;
    var id := n.razorpayRefundId;
    if id in db.refunds {
      assert RefundOk(db, db.refunds[id]) by { StoreOkRefund(db, id); }
      var row := db.refunds[id].(status := n.status, arn := if Truthy(n.arn) then n.arn else db.refunds[id].arn);
      MarkRefundedKeepsStore(db, db.(refunds := db.refunds[id := row]), id, row);
    } else if Truthy(n.razorpayPaymentId) {
      var key := FindByPaymentId(db.payments, n.razorpayPaymentId.value);
      if key.Some? {
        assert RefundOk(db, RowFromNotice(key.value, db.payments[key.value], n)) by {
          StoreOkPayment(db, key.value);
          assert PaymentOk(db, key.value, db.payments[key.value]);
        }
        var row := RowFromNotice(key.value, db.payments[key.value], n);
        MarkRefundedKeepsStore(db, db.(refunds := db.refunds[id := row]), id, row);
      }
    }
  }

  lemma CreationKeepsStore(db: Store, row: Payment)
    requires StoreOk(db) && IsNewRow(row)
    ensures var db' := After(db, CreatePayment(db, row));
            StoreOk(db') && Extends(db, db')
  {
    hide EventOk;
    var db' := After(db, CreatePayment(db, row));
    if db' != db {
      forall k | k in db'.payments
        ensures PaymentOk(db', k, db'.payments[k])
      {
        assert k in db.payments ==> PaymentOk(db, k, db.payments[k]);
      }
      forall r | r in db'.refunds
        ensures RefundOk(db', db'.refunds[r])
      {
        assert RefundOk(db, db.refunds[r]);
      }
      EventsExtend(db, db');
    }
  }

  lemma InvoicesAreFree(db: Store, db': Store)
    requires StoreOk(db) && db' == db.(invoices := db'.invoices)
    ensures StoreOk(db') && Extends(db, db')
  {
    forall k | k in db'.payments
      ensures PaymentOk(db', k, db'.payments[k])
    {
      assert PaymentOk(db, k, db.payments[k]);
    }
    forall r | r in db'.refunds
      ensures RefundOk(db', db'.refunds[r])
    {
      assert RefundOk(db, db.refunds[r]);
    }
    EventsExtend(db, db');
  }

  /** Committing what a handler prepared keeps the tables sound. */
  lemma CommitKeepsStore(db: Store, now: Instant, c: Commit)
    requires StoreOk(db) && CommitOk(db, c)
    ensures StoreOk(RunCommit(db, now, c)) && Extends(db, RunCommit(db, now, c))
  {
    hide StoreOk, Extends;
    match c
    case CaptureOrder(t, event) => CaptureKeepsStore(db, t, event);
    case FailOrder(t, event) => FailureKeepsStore(db, t, event);
    case FailPlanPayment(key, _) => PlanStatusKeepsStore(db, RunCommit(db, now, c), key);
    case ResetPlanPayment(key) => PlanStatusKeepsStore(db, RunCommit(db, now, c), key);
    case ActivatePlan(a, choice) => ActivationKeepsStore(db, a, choice);
    case RefundOrder(t, request) => RefundKeepsStore(db, t, request);
    case RecordRefund(notice) => NoticeKeepsStore(db, notice);
    case CreateTransaction(row, _) => CreationKeepsStore(db, row.(createdAt := now));
    case DraftInvoice(_, _) => InvoicesAreFree(db, RunCommit(db, now, c));
  }

  /** What a handler prepares is about the row it read. */
  lemma PreparedIsOk(db: Store, now: Instant, r: Request)
    requires StoreOk(db) && Prepare(db, now, r).Some?
    ensures CommitOk(db, Prepare(db, now, r).value)
  {
    match r
    case VerifyOrderPayment(key, _, _, _, _, _) => assert PaymentOk(db, key, db.payments[key]);
    case PaidWebhook(key, _, _, _) => assert PaymentOk(db, key, db.payments[key]);
    case FailedWebhook(key, _) => assert PaymentOk(db, key, db.payments[key]);
    case VerifyPayment(key, _, _, _, _, _) => assert PaymentOk(db, key, db.payments[key]);
    case ProcessOrderRefund(_, _, _, latest, _) => assert PaymentOk(db, latest.value, db.payments[latest.value]);
    case CreateSubscriptionOrder(_, _, _, _, pending) =>
      if pending.Some? {
        assert PaymentOk(db, pending.value, db.payments[pending.value]);
      }
    case _ =>
  }

  lemma NextIsOk(db: Store, now: Instant, c: Commit)
    requires NextCommit(db, c).Some?
    ensures CommitOk(RunCommit(db, now, c), NextCommit(db, c).value)
  {
  }

  lemma SweepKeepsStore(db: Store, ids: seq<Uuid>)
    requires StoreOk(db) && Known(db, ids)
    ensures StoreOk(ExpireSubscriptions(db, ids)) && Extends(db, ExpireSubscriptions(db, ids))
  {
    var db' := ExpireSubscriptions(db, ids);
    assert Extends(db, db');
    EventsExtend(db, db');
    forall i | |db.outbox| <= i < |db'.outbox|
      ensures EventOk(db', db'.outbox[i])
    {
      assert db'.outbox[i] == ExpiredEvent(db, ids[i - |db.outbox|]);
    }
    forall k | k in db'.payments
      ensures PaymentOk(db', k, db'.payments[k])
    {
      assert PaymentOk(db, k, db.payments[k]);
    }
    forall r | r in db'.refunds
      ensures RefundOk(db', db'.refunds[r])
    {
      assert RefundOk(db, db.refunds[r]);
    }
  }

  ghost predicate StateOk(s: State) {
    && StoreOk(s.db)
    && (forall c :: c in s.ready ==> CommitOk(s.db, c))
    && (forall p :: p in s.sweeps ==> Known(s.db, s.sweeps[p].found))
  }

  lemma StateOkHasStore(s: State)
    requires StateOk(s)
    ensures StoreOk(s.db)
  {
  }

  lemma KnownExtends(a: Store, b: Store, ids: seq<Uuid>)
    requires Extends(a, b) && Known(a, ids)
    ensures Known(b, ids)
  {
  }

  lemma HandleKeepsStore(db: Store, now: Instant, r: Request)
    requires StoreOk(db)
    ensures StoreOk(Handle(db, now, r)) && Extends(db, Handle(db, now, r))
  {
    hide StoreOk, Extends, CommitOk, Prepare, RunCommit, NextCommit;
    ExtendsIsReflexive(db);
    if Prepare(db, now, r).Some? {
      var c := Prepare(db, now, r).value;
      PreparedIsOk(db, now, r);
      CommitKeepsStore(db, now, c);
      if NextCommit(db, c).Some? {
        NextIsOk(db, now, c);
        CommitKeepsStore(RunCommit(db, now, c), now, NextCommit(db, c).value);
        ExtendsIsTransitive(db, RunCommit(db, now, c), RunCommit(RunCommit(db, now, c), now, NextCommit(db, c).value));
      }
    }
  }

  /** The store of one step's result is sound and extends the store before. */
  lemma StepKeepsStore(s: State, step: Step)
    requires StateOk(s)
    ensures StoreOk(Apply(s, step).db) && Extends(s.db, Apply(s, step).db)
  {
    hide StoreOk, Extends, CommitOk, Handle, RunCommit, ExpireSubscriptions;
    ExtendsIsReflexive(s.db);
    match step
    case Finish(c) =>
      if c in s.ready {
        CommitKeepsStore(s.db, s.clock, c);
      }
    case Whole(r) => HandleKeepsStore(s.db, s.clock, r);
    case SweepCommit(p) =>
      if p in s.sweeps {
        SweepKeepsStore(s.db, s.sweeps[p].found);
      }
    case _ =>
  }

  lemma StepKeepsState(s: State, step: Step)
    requires StateOk(s)
    ensures StateOk(Apply(s, step)) && Extends(s.db, Apply(s, step).db)
  {
    hide StoreOk, Extends, CommitOk, RunCommit, Prepare, NextCommit, Apply;
    var s' := Apply(s, step);
    StepKeepsStore(s, step);
    forall c | c in s'.ready
      ensures CommitOk(s'.db, c)
    {
      ReadyComesFrom(s, step, c);
      if c in s.ready {
        CommitOkExtends(s.db, s'.db, c);
      } else if step.Begin? {
        PreparedIsOk(s.db, s.clock, step.request);
        CommitOkExtends(s.db, s'.db, c);
      } else {
        NextIsOk(s.db, s.clock, step.commit);
      }
    }
    forall p | p in s'.sweeps
      ensures Known(s'.db, s'.sweeps[p].found)
    {
      SweepsComeFrom(s, step, p);
      KnownExtends(s.db, s'.db, s'.sweeps[p].found);
    }
  }

  /** Every reachable state is sound. */
  lemma {:induction false} ReachableIsOk(plans: map<Uuid, Plan>, steps: seq<Step>)
    ensures StateOk(Exec(Initial(plans), steps))
  {
    if steps != [] {
      var n := |steps| - 1;
      ReachableIsOk(plans, steps[..n]);
      StepKeepsState(Exec(Initial(plans), steps[..n]), steps[n]);
    }
  }

  /**
   * In every reachable state a plan payment is not CAPTURED, a food-order payment is
   * not SUCCESS and has no subscription, and a SUCCESS payment points to an existing
   * subscription of its restaurant and plan.
   */
  lemma KindsStaySeparate(plans: map<Uuid, Plan>, steps: seq<Step>, key: string)
    requires key in Exec(Initial(plans), steps).db.payments
    ensures var db := Exec(Initial(plans), steps).db;
            var p := db.payments[key];
            && (p.planId.Some? ==> p.status != Captured)
            && (p.orderId.Some? ==> p.status != Success && p.subscriptionId.None?)
            && (p.status == Success ==>
                  p.subscriptionId.Some? && p.subscriptionId.value in db.subscriptions
                  && db.subscriptions[p.subscriptionId.value].restaurantId == p.restaurantId
                  && Some(db.subscriptions[p.subscriptionId.value].planId) == p.planId)
  {
    ReachableIsOk(plans, steps);
    var db := Exec(Initial(plans), steps).db;
    assert PaymentOk(db, key, db.payments[key]);
  }

  /** From any point of a run on, no payment changes amount, currency, owner or creation time, and no event is lost. */
  lemma {:induction false} RunsOnlyExtend(plans: map<Uuid, Plan>, steps: seq<Step>, n: nat)
    requires n <= |steps|
    ensures Extends(Exec(Initial(plans), steps[..n]).db, Exec(Initial(plans), steps).db)
  {
    hide Extends, StateOk, Apply;
    var last := |steps| - 1;
    if n == |steps| {
      assert steps[..n] == steps;
      ExtendsIsReflexive(Exec(Initial(plans), steps).db);
    } else {
      assert steps[..last][..n] == steps[..n];
      RunsOnlyExtend(plans, steps[..last], n);
      ReachableIsOk(plans, steps[..last]);
      StepKeepsState(Exec(Initial(plans), steps[..last]), steps[last]);
      ExtendsIsTransitive(Exec(Initial(plans), steps[..n]).db, Exec(Initial(plans), steps[..last]).db,
                          Exec(Initial(plans), steps).db);
    }
  }
}
