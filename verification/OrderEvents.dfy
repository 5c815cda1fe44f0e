/**
 * The ORDER_* events of food-order payments: which logs a run can write, what the log
 * says about the committed status, and how often a payment can be captured.
 */
module OrderEvents {
  import opened Prelude
  import opened Tables
  import opened PaymentEntity
  import opened Commits
  import opened Handlers
  import opened LedgerMachine
  import opened LedgerInvariant
  import Prefixes

  predicate IsOrderEventOf(e: OutboxEvent, key: string) {
    e.payload.OrderPayload? && e.payload.payment == key
  }

  /** The types of the order events of one payment, oldest first. */
  function OrderLog(outbox: seq<OutboxEvent>, key: string): seq<EventType> {
    if outbox == [] then []
    else
      var n := |outbox| - 1;
      OrderLog(outbox[..n], key) + if IsOrderEventOf(outbox[n], key) then [outbox[n].eventType] else []
  }

  lemma OrderLogGrows(outbox: seq<OutboxEvent>, e: OutboxEvent, key: string)
    ensures OrderLog(outbox + [e], key) == OrderLog(outbox, key) + if IsOrderEventOf(e, key) then [e.eventType] else []
  {
    assert (outbox + [e])[..|outbox|] == outbox;
  }

  lemma {:induction false} OtherEventsAreInvisible(outbox: seq<OutboxEvent>, more: seq<OutboxEvent>, key: string)
    requires forall i :: 0 <= i < |more| ==> !IsOrderEventOf(more[i], key)
    ensures OrderLog(outbox + more, key) == OrderLog(outbox, key)
  {
    if more == [] {
      assert outbox + more == outbox;
    } else {
      var n := |more| - 1;
      OtherEventsAreInvisible(outbox, more[..n], key);
      assert outbox + more == (outbox + more[..n]) + [more[n]];
      OrderLogGrows(outbox + more[..n], more[n], key);
    }
  }

  /** No order event is logged but for a food order's payment. */
  lemma {:induction false} OnlyFoodIsLogged(db: Store, outbox: seq<OutboxEvent>, key: string)
    requires !(key in db.payments && IsFood(db.payments[key]))
             && forall i :: 0 <= i < |outbox| ==> EventOk(db, outbox[i])
    ensures OrderLog(outbox, key) == []
  {
    if outbox != [] {
      assert EventOk(db, outbox[|outbox| - 1]);
      OnlyFoodIsLogged(db, outbox[..|outbox| - 1], key);
    }
  }

  predicate IsRefundCommit(c: Commit) {
    c.RefundOrder? || (c.RecordRefund? && c.notice.status == Processed)
  }

  /** The four things a commit can do to a food-order payment and its log. */
  predicate Moves(c: Commit, key: string, s: PaymentStatus, log: seq<EventType>, s': PaymentStatus,
                  log': seq<EventType>) {
    || (s' == s && log' == log)
    || (c.CaptureOrder? && c.entity.razorpayOrderId == key && s != Captured && s' == Captured
        && log' == log + [OrderCaptured])
    || (c.FailOrder? && c.entity.razorpayOrderId == key && (s == Created || s == Refunded)
        && s' == PaymentStatus.Failed && log' == log + [OrderFailed])
    || (IsRefundCommit(c) && s' == Refunded && log' == log)
  }

  ghost predicate MovesTo(c: Commit, key: string, db: Store, db': Store) {
    key in db.payments && key in db'.payments &&
    Moves(c, key, db.payments[key].status, OrderLog(db.outbox, key), db'.payments[key].status,
          OrderLog(db'.outbox, key))
  }

  lemma CaptureMoves(db: Store, t: Payment, event: OutboxEvent, key: string)
    requires CommitOk(db, CaptureOrder(t, event)) && key in db.payments
    ensures MovesTo(CaptureOrder(t, event), key, db, After(db, CaptureOrderPayment(db, t, event)))
  {
    OrderLogGrows(db.outbox, event, key);
  }

  lemma FailureMoves(db: Store, t: Payment, event: OutboxEvent, key: string)
    requires CommitOk(db, FailOrder(t, event)) && key in db.payments && db.payments[key].status != Success
    ensures MovesTo(FailOrder(t, event), key, db, After(db, FailOrderPayment(db, t, event)))
  {
    OrderLogGrows(db.outbox, event, key);
  }

  lemma ActivationMoves(db: Store, a: Activation, choice: ActivationChoice, key: string)
    requires CommitOk(db, ActivatePlan(a, choice)) && key in db.payments && db.payments[key].planId.None?
    ensures MovesTo(ActivatePlan(a, choice), key, db, After(db, ActivateSubscription(db, a, choice)))
  {
    OrderLogGrows(db.outbox, ActivatedEvent(a, choice.subscription), key);
  }

  lemma RefundMoves(db: Store, t: Payment, request: RefundRequest, key: string)
    requires CommitOk(db, RefundOrder(t, request)) && key in db.payments
    ensures MovesTo(RefundOrder(t, request), key, db, After(db, Commits.ProcessOrderRefund(db, t, request)))
  {
  }

  lemma NoticeMoves(db: Store, n: RefundNotice, key: string)
    requires key in db.payments
    ensures MovesTo(RecordRefund(n), key, db, After(db, SyncRefund(db, n)))
  {
    hide SyncRefund;
    NoticeWritesRefunds(db, n, key);
  }

  lemma CommitMoves(db: Store, now: Instant, c: Commit, key: string)
    requires StoreOk(db) && CommitOk(db, c) && key in db.payments && IsFood(db.payments[key])
    ensures MovesTo(c, key, db, RunCommit(db, now, c))
  {
    hide StoreOk, OrderLog, CaptureOrderPayment, FailOrderPayment, ActivateSubscription, Commits.ProcessOrderRefund,
        SyncRefund;
    assert PaymentOk(db, key, db.payments[key]) by { StoreOkPayment(db, key); }
    match c
    case CaptureOrder(t, event) => CaptureMoves(db, t, event, key);
    case FailOrder(t, event) => FailureMoves(db, t, event, key);
    case ActivatePlan(a, choice) => ActivationMoves(db, a, choice, key);
    case RefundOrder(t, request) => RefundMoves(db, t, request, key);
    case RecordRefund(n) => NoticeMoves(db, n, key);
    case _ =>
  }

  lemma OnlyCreationAddsPayments(db: Store, now: Instant, c: Commit, key: string)
    requires StoreOk(db) && CommitOk(db, c) && !c.CreateTransaction?
    ensures key in RunCommit(db, now, c).payments <==> key in db.payments
  {
    hide StoreOk, SyncRefund;
    if c.RecordRefund? {
      NoticeWritesRefunds(db, c.notice, key);
    }
  }

  /** A payment that a commit creates starts as CREATED with an empty log. */
  lemma NewPaymentsStartSilent(db: Store, now: Instant, c: Commit, key: string)
    requires StoreOk(db) && CommitOk(db, c) && key !in db.payments && key in RunCommit(db, now, c).payments
    ensures var db' := RunCommit(db, now, c);
            db'.payments[key].status == Created && OrderLog(db'.outbox, key) == []
  {
    hide OrderLog, SyncRefund, ActivateSubscription, CaptureOrderPayment, FailOrderPayment, Commits.ProcessOrderRefund;
    if !c.CreateTransaction? {
      OnlyCreationAddsPayments(db, now, c, key);
    }
    OnlyFoodIsLogged(db, db.outbox, key);
  }

  lemma FollowUpsOnlyDraft(db: Store, done: Store, now: Instant, c: Commit)
    requires NextCommit(db, c).Some?
    ensures var after := RunCommit(done, now, NextCommit(db, c).value);
            && after.payments == done.payments && after.outbox == done.outbox && after.refunds == done.refunds
            && after.subscriptions == done.subscriptions
  {
  }

  /** The commit a step runs that may write payments; a draft invoice that follows it does not. */
  lemma StepWritesOnce(s: State, step: Step)
    ensures Runs(s, step).None? ==> Apply(s, step).db.payments == s.db.payments
    ensures Runs(s, step).None? ==> Apply(s, step).db.outbox == s.db.outbox || step.SweepCommit?
    ensures Runs(s, step).Some? ==>
              var done := RunCommit(s.db, s.clock, Runs(s, step).value);
              Apply(s, step).db.payments == done.payments && Apply(s, step).db.outbox == done.outbox
  {
    hide Prepare, RunCommit, NextCommit, IsPastDueListing;
    if Runs(s, step).Some? {
      StepHandlesCommit(s, step);
    }
  }

  /** A step's effect on the rows that only the commit itself writes. */
  lemma StepHandlesCommit(s: State, step: Step)
    requires Runs(s, step).Some?
    ensures var done := RunCommit(s.db, s.clock, Runs(s, step).value);
            var db' := Apply(s, step).db;
            && db'.payments == done.payments && db'.outbox == done.outbox && db'.refunds == done.refunds
            && db'.subscriptions == done.subscriptions
  {
    hide Prepare, RunCommit, NextCommit;
    var c := Runs(s, step).value;
    if NextCommit(s.db, c).Some? {
      FollowUpsOnlyDraft(s.db, RunCommit(s.db, s.clock, c), s.clock, c);
    }
  }

  lemma SweepsAreInvisible(db: Store, ids: seq<Uuid>, key: string)
    requires Known(db, ids)
    ensures OrderLog(ExpireSubscriptions(db, ids).outbox, key) == OrderLog(db.outbox, key)
  {
    OtherEventsAreInvisible(db.outbox, ExpiredEvents(db, ids), key);
  }

  /** What one step of a run does to a food-order payment. */
  lemma StepMoves(s: State, step: Step, key: string)
    requires StateOk(s) && key in s.db.payments && IsFood(s.db.payments[key])
    ensures var s' := Apply(s, step);
            && key in s'.db.payments
            && (Runs(s, step).None? ==>
                  s'.db.payments[key].status == s.db.payments[key].status
                  && OrderLog(s'.db.outbox, key) == OrderLog(s.db.outbox, key))
            && (Runs(s, step).Some? ==> MovesTo(Runs(s, step).value, key, s.db, s'.db))
  {
    hide StoreOk, CommitOk, RunCommit, Prepare, NextCommit, Moves, OrderLog;
    StepWritesOnce(s, step);
    if Runs(s, step).Some? {
      RunsOkCommit(s, step);
      CommitMoves(s.db, s.clock, Runs(s, step).value, key);
    } else if step.SweepCommit? && step.process in s.sweeps {
      SweepsAreInvisible(s.db, s.sweeps[step.process].found, key);
    }
  }

  lemma RunsOkCommit(s: State, step: Step)
    requires StateOk(s) && Runs(s, step).Some?
    ensures CommitOk(s.db, Runs(s, step).value)
  {
    hide StoreOk, CommitOk, Prepare;
    if step.Whole? {
      PreparedIsOk(s.db, s.clock, step.request);
    }
  }

  lemma StepCreatesSilently(s: State, step: Step, key: string)
    requires StateOk(s) && key !in s.db.payments && key in Apply(s, step).db.payments
    ensures Apply(s, step).db.payments[key].status == Created && OrderLog(Apply(s, step).db.outbox, key) == []
  {
    hide StoreOk, CommitOk, RunCommit, Prepare, OrderLog, Apply;
    StepWritesOnce(s, step);
    if Runs(s, step).Some? {
      RunsOkCommit(s, step);
      NewPaymentsStartSilent(s.db, s.clock, Runs(s, step).value, key);
    }
  }

  /** A step that commits a refund, through the API or a refund.processed webhook. */
  predicate IsRefundStep(step: Step) {
    match step
    case Finish(c) => IsRefundCommit(c)
    case Whole(ProcessOrderRefund(_, _, _, _, _)) => true
    case Whole(RefundWebhook(notice)) => notice.status == Processed
    case _ => false
  }

  lemma RefundStepsRunRefunds(s: State, step: Step)
    requires Runs(s, step).Some? && IsRefundCommit(Runs(s, step).value)
    ensures IsRefundStep(step)
  {
  }

  predicate LogTellsStatus(log: seq<EventType>, status: PaymentStatus) {
    || (log == [] && status == Created)
    || (log == [OrderFailed] && status == PaymentStatus.Failed)
    || (log == [OrderCaptured] && status == Captured)
    || (log == [OrderFailed, OrderCaptured] && status == Captured)
  }

  /**
   * However requests interleave, as long as no refund commits the log of a food-order
   * payment is one of four, and its last event tells the committed status.
   */
  lemma {:induction false} LogTellsCommittedStatus(plans: map<Uuid, Plan>, steps: seq<Step>, key: string)
    requires forall i :: 0 <= i < |steps| ==> !IsRefundStep(steps[i])
    requires key in Exec(Initial(plans), steps).db.payments && IsFood(Exec(Initial(plans), steps).db.payments[key])
    ensures var db := Exec(Initial(plans), steps).db;
            LogTellsStatus(OrderLog(db.outbox, key), db.payments[key].status)
  {
    hide StateOk, Apply, OrderLog, IsRefundStep;
    var n := |steps| - 1;
    var s := Exec(Initial(plans), steps[..n]);
    ReachableIsOk(plans, steps[..n]);
    StepKeepsState(s, steps[n]);
    if key in s.db.payments {
      assert SameIdentity(s.db.payments[key], Apply(s, steps[n]).db.payments[key]);
      LogTellsCommittedStatus(plans, steps[..n], key);
      StepMoves(s, steps[n], key);
      if Runs(s, steps[n]).Some? && IsRefundCommit(Runs(s, steps[n]).value) {
        RefundStepsRunRefunds(s, steps[n]);
      }
    } else {
      StepCreatesSilently(s, steps[n], key);
    }
  }

  /** The number of commits of a run that moved a payment out of CAPTURED. */
  ghost function Departures(plans: map<Uuid, Plan>, steps: seq<Step>, key: string): nat {
    if steps == [] then 0
    else
      var n := |steps| - 1;
      var s := Exec(Initial(plans), steps[..n]);
      Departures(plans, steps[..n], key) + if LeavesCaptured(s, steps[n], key) then 1 else 0
  }

  ghost predicate LeavesCaptured(s: State, step: Step, key: string) {
    key in s.db.payments && s.db.payments[key].status == Captured
    && (key in Apply(s, step).db.payments ==> Apply(s, step).db.payments[key].status != Captured)
  }

  function Captures(log: seq<EventType>): nat {
    multiset(log)[OrderCaptured]
  }

  lemma {:induction false} NoDeparturesBeforeCreation(plans: map<Uuid, Plan>, steps: seq<Step>, key: string)
    requires key !in Exec(Initial(plans), steps).db.payments
    ensures Departures(plans, steps, key) == 0
  {
    hide StateOk, Apply;
    if steps != [] {
      var n := |steps| - 1;
      var s := Exec(Initial(plans), steps[..n]);
      ReachableIsOk(plans, steps[..n]);
      StepKeepsState(s, steps[n]);
      assert key !in s.db.payments;
      NoDeparturesBeforeCreation(plans, steps[..n], key);
    }
  }

  /**
   * Conservation over every run, refunds and captures after refunds included: a
   * food-order payment has as many CAPTURED events as commits that took it out of
   * CAPTURED, and one more if it is CAPTURED now.
   */
  lemma {:induction false} CapturesAreConserved(plans: map<Uuid, Plan>, steps: seq<Step>, key: string)
    requires key in Exec(Initial(plans), steps).db.payments && IsFood(Exec(Initial(plans), steps).db.payments[key])
    ensures var db := Exec(Initial(plans), steps).db;
            Captures(OrderLog(db.outbox, key)) ==
            Departures(plans, steps, key) + if db.payments[key].status == Captured then 1 else 0
  {
    hide StateOk, Apply, OrderLog;
    var n := |steps| - 1;
    var s := Exec(Initial(plans), steps[..n]);
    ReachableIsOk(plans, steps[..n]);
    StepKeepsState(s, steps[n]);
    if key in s.db.payments {
      assert SameIdentity(s.db.payments[key], Apply(s, steps[n]).db.payments[key]);
      CapturesAreConserved(plans, steps[..n], key);
      StepMoves(s, steps[n], key);
    } else {
      StepCreatesSilently(s, steps[n], key);
      NoDeparturesBeforeCreation(plans, steps[..n], key);
    }
  }

  /** Only refund commits take a food-order payment out of CAPTURED, and they take it to REFUNDED. */
  lemma OnlyRefundsLeaveCaptured(plans: map<Uuid, Plan>, steps: seq<Step>, step: Step, key: string)
    requires var s := Exec(Initial(plans), steps);
             LeavesCaptured(s, step, key) && IsFood(s.db.payments[key])
    ensures IsRefundStep(step)
    ensures var db' := Apply(Exec(Initial(plans), steps), step).db;
            key in db'.payments && db'.payments[key].status == Refunded
  {
    hide StateOk, Apply, OrderLog, IsRefundStep;
    var s := Exec(Initial(plans), steps);
    ReachableIsOk(plans, steps);
    StepMoves(s, step, key);
    RefundStepsRunRefunds(s, step);
  }

  /** Requests that run without interruption never capture a payment that has failed. */
  lemma NoLateCapture(db: Store, now: Instant, r: Request)
    requires StoreOk(db) && Prepare(db, now, r).Some? && Prepare(db, now, r).value.CaptureOrder?
    ensures var key := Prepare(db, now, r).value.entity.razorpayOrderId;
            key in db.payments && db.payments[key].status != PaymentStatus.Failed
  {
    match r
    case VerifyOrderPayment(key, _, _, _, _, _) => assert PaymentOk(db, key, db.payments[key]);
    case PaidWebhook(key, _, _, _) => assert PaymentOk(db, key, db.payments[key]);
    case _ =>
  }

  lemma {:induction false} NothingIsPrepared(plans: map<Uuid, Plan>, steps: seq<Step>)
    requires forall i :: 0 <= i < |steps| ==> !steps[i].Begin?
    ensures Exec(Initial(plans), steps).ready == multiset{}
  {
    hide Prepare, RunCommit, Handle, NextCommit, ExpireSubscriptions;
    if steps != [] {
      NothingIsPrepared(plans, steps[..|steps| - 1]);
    }
  }

  /** The step commits a capture of the payment that finds it FAILED, with a gateway payment id of its own. */
  predicate CapturesFailed(s: State, step: Step, key: string) {
    && Runs(s, step).Some? && Runs(s, step).value.CaptureOrder?
    && var t := Runs(s, step).value.entity;
    && t.razorpayOrderId == key && key in s.db.payments && s.db.payments[key].status == PaymentStatus.Failed
    && !PaymentIdTaken(s.db.payments, key, t.razorpayPaymentId)
  }

  lemma CaptureLogs(db: Store, now: Instant, t: Payment, event: OutboxEvent, key: string)
    requires CommitOk(db, CaptureOrder(t, event)) && t.razorpayOrderId == key
    requires key in db.payments && db.payments[key].status == PaymentStatus.Failed
    ensures OrderLog(RunCommit(db, now, CaptureOrder(t, event)).outbox, key) ==
            OrderLog(db.outbox, key)
            + if PaymentIdTaken(db.payments, key, t.razorpayPaymentId) then [] else [OrderCaptured]
  {
    OrderLogGrows(db.outbox, event, key);
  }

  /** On a food-order payment whose one event tells its status, only such a capture logs a second one. */
  lemma FoodStepLogsOnce(s: State, step: Step, key: string)
    requires StateOk(s) && !IsRefundStep(step) && key in s.db.payments && IsFood(s.db.payments[key])
    requires LogTellsStatus(OrderLog(s.db.outbox, key), s.db.payments[key].status) && |OrderLog(s.db.outbox, key)| <= 1
    ensures |OrderLog(Apply(s, step).db.outbox, key)| <= 1 <==> !CapturesFailed(s, step, key)
  {
    hide StateOk, StoreOk, CommitOk, Apply, OrderLog, RunCommit, Prepare, IsRefundStep, PaymentIdTaken;
    StepMoves(s, step, key);
    if Runs(s, step).Some? {
      var c := Runs(s, step).value;
      RunsOkCommit(s, step);
      StepWritesOnce(s, step);
      if IsRefundCommit(c) {
        RefundStepsRunRefunds(s, step);
      }
      if c.CaptureOrder? && c.entity.razorpayOrderId == key && s.db.payments[key].status == PaymentStatus.Failed {
        CaptureLogs(s.db, s.clock, c.entity, c.event, key);
      }
    }
  }

  lemma OthersStaySilent(s: State, step: Step, key: string)
    requires StateOk(s) && !(key in s.db.payments && IsFood(s.db.payments[key]))
    ensures OrderLog(Apply(s, step).db.outbox, key) == [] && !CapturesFailed(s, step, key)
  {
    hide CommitOk, Apply, OrderLog, RunCommit, Prepare;
    StepKeepsState(s, step);
    var db' := Apply(s, step).db;
    if key in s.db.payments {
      assert SameIdentity(s.db.payments[key], db'.payments[key]);
      OnlyFoodIsLogged(db', db'.outbox, key);
    } else if key in db'.payments {
      StepCreatesSilently(s, step, key);
    } else {
      OnlyFoodIsLogged(db', db'.outbox, key);
    }
    if Runs(s, step).Some? && Runs(s, step).value.CaptureOrder? {
      RunsOkCommit(s, step);
      CapturesAreFood(s.db, Runs(s, step).value);
    }
  }

  lemma CapturesAreFood(db: Store, c: Commit)
    requires CommitOk(db, c) && c.CaptureOrder?
    ensures c.entity.razorpayOrderId in db.payments && IsFood(db.payments[c.entity.razorpayOrderId])
  {
  }

  ghost predicate LogsOnce(plans: map<Uuid, Plan>, steps: seq<Step>, key: string) {
    |OrderLog(Exec(Initial(plans), steps).db.outbox, key)| <= 1
  }

  lemma StepLogsOnce(plans: map<Uuid, Plan>, steps: seq<Step>, step: Step, key: string)
    requires LogsOnce(plans, steps, key) && !IsRefundStep(step)
    requires forall i :: 0 <= i < |steps| ==> !IsRefundStep(steps[i])
    ensures LogsOnce(plans, steps + [step], key) <==> !CapturesFailed(Exec(Initial(plans), steps), step, key)
  {
    hide StateOk, Apply, OrderLog, CapturesFailed, IsRefundStep;
    var s := Exec(Initial(plans), steps);
    ReachableIsOk(plans, steps);
    ExecOneMore(Initial(plans), steps, step);
    if key in s.db.payments && IsFood(s.db.payments[key]) {
      LogTellsCommittedStatus(plans, steps, key);
      FoodStepLogsOnce(s, step, key);
    } else {
      OthersStaySilent(s, step, key);
    }
  }

  ghost predicate LogsOnceThroughout(plans: map<Uuid, Plan>, steps: seq<Step>, key: string) {
    forall n :: 0 <= n <= |steps| ==> LogsOnce(plans, steps[..n], key)
  }

  ghost predicate NeverCapturesFailed(plans: map<Uuid, Plan>, steps: seq<Step>, key: string) {
    forall n :: 0 <= n < |steps| ==> !CapturesFailed(Exec(Initial(plans), steps[..n]), steps[n], key)
  }

  /**
   * Over all runs without refund commits: a payment's log has at most one event
   * throughout if and only if no commit captures the payment when it has FAILED.
   */
  lemma LogsOnceUnlessCapturedLate(plans: map<Uuid, Plan>, steps: seq<Step>, key: string)
    requires forall i :: 0 <= i < |steps| ==> !IsRefundStep(steps[i])
    ensures LogsOnceThroughout(plans, steps, key) <==> NeverCapturesFailed(plans, steps, key)
  {
    hide LogsOnce, CapturesFailed, Exec, IsRefundStep;
    var holds := (front: seq<Step>) =>
      LogsOnce(plans, front, key) && forall i :: 0 <= i < |front| ==> !IsRefundStep(front[i]);
    var breaks := (front: seq<Step>, step: Step) =>
      IsRefundStep(step) || CapturesFailed(Exec(Initial(plans), front), step, key);
    EmptyLogsOnce(plans, key);
    forall front, step | holds(front)
      ensures holds(front + [step]) <==> !breaks(front, step)
    {
      assert (front + [step])[|front|] == step;
      if !IsRefundStep(step) {
        StepLogsOnce(plans, front, step, key);
      }
    }
    Prefixes.ThroughoutUnlessBroken(steps, holds, breaks);
    assert LogsOnceThroughout(plans, steps, key) <==> Prefixes.Throughout(steps, holds);
    assert NeverCapturesFailed(plans, steps, key) <==> Prefixes.NeverBreaks(steps, breaks);
  }

  lemma EmptyLogsOnce(plans: map<Uuid, Plan>, key: string)
    ensures LogsOnce(plans, [], key)
  {
  }

  /** With use cases that run whole and no refund, no log has two events. */
  lemma WholeRequestsLogOnce(plans: map<Uuid, Plan>, steps: seq<Step>, key: string)
    requires forall i :: 0 <= i < |steps| ==> !IsRefundStep(steps[i]) && !steps[i].Begin?
    ensures LogsOnceThroughout(plans, steps, key)
  {
    hide StateOk, Apply, Exec, LogsOnce, IsRefundStep, Prepare;
    LogsOnceUnlessCapturedLate(plans, steps, key);
    forall n | 0 <= n < |steps|
      ensures !CapturesFailed(Exec(Initial(plans), steps[..n]), steps[n], key)
    {
      var s := Exec(Initial(plans), steps[..n]);
      NothingIsPrepared(plans, steps[..n]);
      ReachableIsOk(plans, steps[..n]);
      if steps[n].Whole? && Runs(s, steps[n]).Some? && Runs(s, steps[n]).value.CaptureOrder? {
        assert StoreOk(s.db) by { StateOkHasStore(s); }
        NoLateCapture(s.db, s.clock, steps[n].request);
      }
    }
  }

  function ExamplePayment(): Payment {
    NewPayment("order_1", 3, None, Some(1), Some(2), 500, "INR", map[])
  }

  function ExampleVerify(): Request {
    VerifyOrderPayment("order_1", 1, Some(2), "pay_1", "signature", true)
  }

  /** The commit a verification of a CREATED example payment prepares. */
  function ExampleCapture(): Commit {
    var captured :=
        ExamplePayment().(status := Captured, razorpayPaymentId := Some("pay_1"),
                          razorpaySignature := Some("signature"));
    CaptureOrder(captured, OrderEvent(OrderCaptured, 1, captured))
  }

  /** A verification that reads before a failure webhook and commits after it. */
  function LateCapture(): seq<Step> {
    [Whole(CreateOrderPayment(1, 2, 3, 500, "INR", "order_1", None)),
     Begin(ExampleVerify()),
     Whole(FailedWebhook("order_1", "declined")),
     Finish(ExampleCapture())]
  }

  function ExampleFailure(): Payment {
    ExamplePayment().(status := PaymentStatus.Failed, failureReason := Some("declined"))
  }

  function ExampleStore(p: Payment, outbox: seq<OutboxEvent>): Store {
    Store(map[], map["order_1" := p], map[], map[], map[], outbox)
  }

  lemma ExampleIsCreated()
    ensures Apply(Initial(map[]), LateCapture()[0]) == State(ExampleStore(ExamplePayment(), []), 0, multiset{}, map[])
  {
    assert KeysOfOrder(Initial(map[]).db.payments, 1) == {};
    assert map[]["order_1" := ExamplePayment()] == map["order_1" := ExamplePayment()];
  }

  lemma ExampleIsRead()
    ensures Prepare(ExampleStore(ExamplePayment(), []), 0, ExampleVerify()) == Some(ExampleCapture())
  {
  }

  lemma ExampleFails()
    ensures Handle(ExampleStore(ExamplePayment(), []), 0, FailedWebhook("order_1", "declined")) ==
            ExampleStore(ExampleFailure(), [OrderEvent(OrderFailed, 1, ExampleFailure())])
  {
    assert map["order_1" := ExamplePayment()]["order_1" := ExampleFailure()] == map["order_1" := ExampleFailure()];
    assert [] + [OrderEvent(OrderFailed, 1, ExampleFailure())] == [OrderEvent(OrderFailed, 1, ExampleFailure())];
  }

  lemma ExampleIsCaptured(db: Store)
    requires db == ExampleStore(ExampleFailure(), [OrderEvent(OrderFailed, 1, ExampleFailure())])
    ensures RunCommit(db, 0, ExampleCapture()).outbox == db.outbox + [ExampleCapture().event]
  {
  }

  /** Read and commit apart, the two-event log is reachable. */
  lemma TwoEventLogIsReachable()
    ensures forall i :: 0 <= i < |LateCapture()| ==> !IsRefundStep(LateCapture()[i])
    ensures OrderLog(Exec(Initial(map[]), LateCapture()).db.outbox, "order_1") == [OrderFailed, OrderCaptured]
  {
    hide Prepare, Handle, RunCommit, NextCommit, OrderLog, ExampleCapture, ExamplePayment, ExampleFailure, OrderEvent,
         Apply, IsRefundStep;
    ExampleHasNoRefund();
    var run := LateCapture();
    ExecFour(Initial(map[]), run[0], run[1], run[2], run[3]);
    ExampleIsCreated();
    ExampleReadsFailsAndCommits();
    ExampleLog();
  }

  lemma ExampleHasNoRefund()
    ensures forall i :: 0 <= i < |LateCapture()| ==> !IsRefundStep(LateCapture()[i])
  {
  }

  lemma ExampleReadsFailsAndCommits()
    ensures var run := LateCapture();
            var s1 := State(ExampleStore(ExamplePayment(), []), 0, multiset{}, map[]);
            Apply(Apply(Apply(s1, run[1]), run[2]), run[3]).db.outbox ==
            [OrderEvent(OrderFailed, 1, ExampleFailure())] + [ExampleCapture().event]
  {
    hide Prepare, Handle, RunCommit, OrderLog, ExampleCapture, ExamplePayment, ExampleFailure, OrderEvent;
    var run := LateCapture();
    var s1 := State(ExampleStore(ExamplePayment(), []), 0, multiset{}, map[]);
    ExampleIsRead();
    ExampleFails();
    var failed := ExampleStore(ExampleFailure(), [OrderEvent(OrderFailed, 1, ExampleFailure())]);
    ExampleIsCaptured(failed);
    var s2 := s1.(ready := multiset{ExampleCapture()});
    assert Apply(s1, run[1]) == s2;
    assert Apply(s2, run[2]) == s2.(db := failed);
  }

  lemma ExampleLog()
    ensures OrderLog([OrderEvent(OrderFailed, 1, ExampleFailure())] + [ExampleCapture().event], "order_1") ==
            [OrderFailed, OrderCaptured]
  {
    OrderLogGrows([OrderEvent(OrderFailed, 1, ExampleFailure())], ExampleCapture().event, "order_1");
    OrderLogGrows([], OrderEvent(OrderFailed, 1, ExampleFailure()), "order_1");
    assert [] + [OrderEvent(OrderFailed, 1, ExampleFailure())] == [OrderEvent(OrderFailed, 1, ExampleFailure())];
  }
}
