/**
 * `activateSubscriptionWithOutbox` statement by statement, run by any number of
 * handlers of one Razorpay order at once. Statements see committed rows; a handler's
 * own writes become visible when it commits. The conditional update locks the payment
 * row until then: on a row that is SUCCESS already it matches nothing, on a row that
 * another handler has locked it waits. Any handler may abort before it commits.
 */
module ActivationRace {
  import opened Prelude
  import opened Tables
  import opened Commits
  import opened Handlers

  /** Where a handler stands; `existing` is the row it read first. */
  datatype Stage =
    | Reading
    | LookingUp(existing: Payment, linked: Uuid)
    | Claiming(existing: Payment)
    | Rereading(existing: Payment)
    | LookingUpAgain(existing: Payment, linked: Uuid)
    | CreatingSubscription(existing: Payment, count: nat)
    | LinkingPayment(existing: Payment, count: nat, created: Uuid)
    | FindingInvoice(existing: Payment, count: nat, created: Uuid)
    | WritingInvoice(existing: Payment, count: nat, created: Uuid)
    | LoggingEvent(existing: Payment, count: nat, created: Uuid)
    | Committing(existing: Payment, count: nat, created: Uuid)
    | Returned(subscription: Uuid)
    | GaveUp

  datatype Handler = Handler(a: Activation, choice: ActivationChoice, stage: Stage)

  datatype Race = Race(db: Store, lock: Option<nat>, handlers: map<nat, Handler>)

  datatype Turn = Statement(handler: nat) | Abort(handler: nat)

  function To(s: Race, h: nat, stage: Stage): Race
    requires h in s.handlers
  {
    s.(handlers := s.handlers[h := s.handlers[h].(stage := stage)])
  }

  function Release(s: Race, h: nat): Race {
    if s.lock == Some(h) then s.(lock := None) else s
  }

  function Fail(s: Race, h: nat): Race
    requires h in s.handlers
  {
    Release(To(s, h, GaveUp), h)
  }

  predicate CanBill(db: Store, key: string, choice: ActivationChoice) {
    IsFirstInvoice(db.invoices, key, choice.found) && (choice.found.Some? || choice.invoice !in db.invoices)
  }

  /** All writes of a handler, made visible at once. */
  function Publish(db: Store, a: Activation, existing: Payment, count: nat, id: Uuid, choice: ActivationChoice): Store
    requires a.razorpayOrderId in db.payments && IsFirstInvoice(db.invoices, a.razorpayOrderId, choice.found)
  {
    var row := db.payments[a.razorpayOrderId];
    var claimed := if count == 0 then row else row.(
      status := Success,
      razorpayPaymentId := Some(a.razorpayPaymentId),
      razorpaySignature := Some(a.razorpaySignature));
    db.(payments := db.payments[a.razorpayOrderId := claimed.(subscriptionId := Some(id))],
        subscriptions :=
            db.subscriptions[id := Subscription(a.restaurantId, a.planId, Active, a.periodStart, a.periodEnd)],
        invoices := BillActivation(db.invoices, a, existing, id, choice),
        outbox := db.outbox + [ActivatedEvent(a, id)])
  }

  /** The next statement of a handler; a handler that has to wait for the lock stays where it is. */
  function RunStatement(s: Race, h: nat): Race
    requires h in s.handlers && s.handlers[h].a.razorpayOrderId in s.db.payments
  {
    var Handler(a, choice, stage) := s.handlers[h];
    var row := s.db.payments[a.razorpayOrderId];
    match stage
    case Reading =>
      if row.status == Success && row.subscriptionId.Some? then To(s, h, LookingUp(row, row.subscriptionId.value))
      else To(s, h, Claiming(row))
    case LookingUp(existing, linked) =>
      if linked in s.db.subscriptions then To(s, h, Returned(linked)) else To(s, h, Claiming(existing))
    case Claiming(existing) =>
      if row.status == Success then To(s, h, Rereading(existing))
      else if s.lock.Some? && s.lock != Some(h) then s
      else if PaymentIdTaken(s.db.payments, a.razorpayOrderId, Some(a.razorpayPaymentId)) then Fail(s, h)
      else To(s, h, CreatingSubscription(existing, 1)).(lock := Some(h))
    case Rereading(existing) =>
      if row.subscriptionId.Some? then To(s, h, LookingUpAgain(existing, row.subscriptionId.value))
      else To(s, h, CreatingSubscription(existing, 0))
    case LookingUpAgain(existing, linked) =>
      if linked in s.db.subscriptions then To(s, h, Returned(linked)) else To(s, h, CreatingSubscription(existing, 0))
    case CreatingSubscription(existing, count) =>
      if choice.subscription in s.db.subscriptions then Fail(s, h)
      else To(s, h, LinkingPayment(existing, count, choice.subscription))
    case LinkingPayment(existing, count, id) =>
      if s.lock.Some? && s.lock != Some(h) then s
      else To(s, h, FindingInvoice(existing, count, id)).(lock := Some(h))
    case FindingInvoice(existing, count, id) =>
      if CanBill(s.db, a.razorpayOrderId, choice) then To(s, h, WritingInvoice(existing, count, id)) else Fail(s, h)
    case WritingInvoice(existing, count, id) => To(s, h, LoggingEvent(existing, count, id))
    case LoggingEvent(existing, count, id) => To(s, h, Committing(existing, count, id))
    case Committing(existing, count, id) =>
      if !CanBill(s.db, a.razorpayOrderId, choice) then Fail(s, h)
      else Release(To(s, h, Returned(id)), h).(db := Publish(s.db, a, existing, count, id, choice))
    case Returned(_) => s
    case GaveUp => s
  }

  function Play(s: Race, turn: Turn): Race {
    match turn
    case Statement(h) =>
      if h in s.handlers && s.handlers[h].a.razorpayOrderId in s.db.payments then RunStatement(s, h) else s
    case Abort(h) =>
      if h in s.handlers && !s.handlers[h].stage.Returned? then Fail(s, h) else s
  }

  function PlayAll(s: Race, turns: seq<Turn>): Race {
    if turns == [] then s else Play(PlayAll(s, turns[..|turns| - 1]), turns[|turns| - 1])
  }

  /** The requests are for one order that exists, and describe it as it is. */
  predicate IsStart(s: Race, key: string) {
    && key in s.db.payments && s.db.payments[key].razorpayOrderId == key && s.lock.None?
    && forall h :: h in s.handlers ==> s.handlers[h].stage == Reading && s.handlers[h].a.razorpayOrderId == key
  }

  predicate IsActivated(db: Store, key: string, id: Uuid) {
    && key in db.payments && db.payments[key].status == Success && db.payments[key].subscriptionId == Some(id)
    && id in db.subscriptions
  }

  /** The stages between the claim and the commit. */
  predicate IsWriting(stage: Stage) {
    stage.CreatingSubscription? || stage.LinkingPayment? || stage.FindingInvoice?
    || stage.WritingInvoice? || stage.LoggingEvent? || stage.Committing?
  }

  /** Before the first commit: only the lock holder writes, and it claimed the row. */
  predicate BeforeCommit(s: Race, key: string, h: nat)
    requires h in s.handlers && key in s.db.payments
  {
    var Handler(a, choice, stage) := s.handlers[h];
    && a.razorpayOrderId == key
    && (IsWriting(stage) <==> s.lock == Some(h))
    && (IsWriting(stage) ==>
          (stage.existing == s.db.payments[key] && stage.count == 1
           && !PaymentIdTaken(s.db.payments, key, Some(a.razorpayPaymentId))))
    && (stage.Claiming? ==> stage.existing == s.db.payments[key])
    && !stage.LookingUp? && !stage.Rereading? && !stage.LookingUpAgain? && !stage.Returned?
    && (IsWriting(stage) && !stage.CreatingSubscription? ==>
          stage.created == choice.subscription && stage.created !in s.db.subscriptions)
    && ((stage.WritingInvoice? || stage.LoggingEvent? || stage.Committing?) ==> CanBill(s.db, key, choice))
  }

  /** After it: nobody writes, and everybody who knows a subscription knows the same one. */
  predicate AfterCommit(s: Race, key: string, id: Uuid, h: nat)
    requires h in s.handlers
  {
    var Handler(a, choice, stage) := s.handlers[h];
    && a.razorpayOrderId == key
    && !IsWriting(stage)
    && (stage.LookingUp? || stage.LookingUpAgain? ==> stage.linked == id)
    && (stage.Returned? ==> stage.subscription == id)
  }

  /** The store is the initial one, or what one handler's activation makes of it as a single step. */
  ghost predicate IsOneActivation(db0: Store, s: Race, id: Uuid) {
    s.db == db0 ||
    exists w :: w in s.handlers && s.handlers[w].stage == Returned(id)
      && ActivateSubscription(db0, s.handlers[w].a, s.handlers[w].choice) == Committed(s.db, id)
  }

  ghost predicate IsSettled(db0: Store, s: Race, key: string, id: Uuid) {
    IsActivated(s.db, key, id) && IsOneActivation(db0, s, id)
        && forall h :: h in s.handlers ==> AfterCommit(s, key, id, h)
  }

  ghost predicate RaceOk(db0: Store, s: Race, key: string) {
    && key in s.db.payments
    && (s.lock.Some? ==> s.lock.value in s.handlers)
    && ((s.db == db0 && s.db.payments[key].status != Success && forall h :: h in s.handlers ==> BeforeCommit(s, key, h))
        || (s.lock.None? && exists id :: IsSettled(db0, s, key, id)))
  }

  /** Publishing a claimed row is the atomic activation. */
  lemma PublishIsActivation(db: Store, a: Activation, choice: ActivationChoice)
    requires a.razorpayOrderId in db.payments && db.payments[a.razorpayOrderId].status != Success
    requires !PaymentIdTaken(db.payments, a.razorpayOrderId, Some(a.razorpayPaymentId))
    requires choice.subscription !in db.subscriptions && CanBill(db, a.razorpayOrderId, choice)
    ensures ActivateSubscription(db, a, choice) ==
            Committed(Publish(db, a, db.payments[a.razorpayOrderId], 1, choice.subscription, choice),
                      choice.subscription)
    ensures IsActivated(Publish(db, a, db.payments[a.razorpayOrderId], 1, choice.subscription, choice),
                        a.razorpayOrderId, choice.subscription)
  {
  }

  lemma TurnBeforeCommit(db0: Store, s: Race, key: string, turn: Turn)
    requires key in s.db.payments && (s.lock.Some? ==> s.lock.value in s.handlers)
    requires s.db == db0 && s.db.payments[key].status != Success
             && forall h :: h in s.handlers ==> BeforeCommit(s, key, h)
    ensures RaceOk(db0, Play(s, turn), key)
  {
    hide Publish, ActivateSubscription, PaymentIdTaken, CanBill, IsSettled;
    var h := turn.handler;
    if h in s.handlers {
      assert BeforeCommit(s, key, h);
      if turn.Statement? && s.handlers[h].stage.Committing? {
        FirstCommitSettles(s, key, h);
      } else {
        forall k | k in Play(s, turn).handlers
          ensures BeforeCommit(Play(s, turn), key, k)
        {
          WaitersStayBefore(s, key, turn, k);
        }
      }
    }
  }

  lemma WaitersStayBefore(s: Race, key: string, turn: Turn, k: nat)
    requires key in s.db.payments && s.db.payments[key].status != Success
    requires k in s.handlers && turn.handler in s.handlers && BeforeCommit(s, key, k)
             && BeforeCommit(s, key, turn.handler)
    requires !(turn.Statement? && s.handlers[turn.handler].stage.Committing?)
    ensures Play(s, turn).db == s.db && k in Play(s, turn).handlers && BeforeCommit(Play(s, turn), key, k)
  {
    hide PaymentIdTaken, CanBill;
  }

  lemma FirstCommitSettles(s: Race, key: string, h: nat)
    requires key in s.db.payments && s.db.payments[key].status != Success
    requires forall k :: k in s.handlers ==> BeforeCommit(s, key, k)
    requires h in s.handlers && s.handlers[h].stage.Committing?
    ensures var s' := Play(s, Statement(h));
            key in s'.db.payments && s'.lock.None? && IsSettled(s.db, s', key, s.handlers[h].choice.subscription)
  {
    hide Publish, ActivateSubscription, PaymentIdTaken, CanBill;
    assert BeforeCommit(s, key, h);
    var Handler(a, choice, stage) := s.handlers[h];
    var s' := Play(s, Statement(h));
    PublishIsActivation(s.db, a, choice);
    assert s'.handlers[h].stage == Returned(choice.subscription);
    forall k | k in s'.handlers
      ensures AfterCommit(s', key, choice.subscription, k)
    {
      assert BeforeCommit(s, key, k);
    }
  }

  lemma TurnAfterCommit(db0: Store, s: Race, key: string, id: Uuid, turn: Turn)
    requires key in s.db.payments && s.lock.None? && IsActivated(s.db, key, id) && IsOneActivation(db0, s, id)
    requires forall h :: h in s.handlers ==> AfterCommit(s, key, id, h)
    ensures RaceOk(db0, Play(s, turn), key)
  {
    hide ActivateSubscription, AfterCommit, Play, IsActivated;
    var s' := Play(s, turn);
    if turn.handler in s.handlers {
      forall k | k in s.handlers
        ensures SettledTurn(s, s', key, id, k)
      {
        OthersFollow(s, key, id, turn, k);
      }
      if s.db != db0 {
        var w :| w in s.handlers && s.handlers[w].stage == Returned(id)
                 && ActivateSubscription(db0, s.handlers[w].a, s.handlers[w].choice) == Committed(s.db, id);
        assert SettledTurn(s, s', key, id, w);
      }
      assert IsOneActivation(db0, s', id);
    } else {
      StrangersDoNothing(s, turn);
    }
    assert IsSettled(db0, s', key, id);
  }

  lemma StrangersDoNothing(s: Race, turn: Turn)
    requires turn.handler !in s.handlers
    ensures Play(s, turn) == s
  {
  }

  /** A turn after the first commit changes no table and takes nobody to another subscription. */
  predicate SettledTurn(s: Race, s': Race, key: string, id: Uuid, k: nat)
    requires k in s.handlers
  {
    && s'.db == s.db && s'.lock.None? && s'.handlers.Keys == s.handlers.Keys
    && k in s'.handlers && AfterCommit(s', key, id, k)
    && (s.handlers[k].stage.Returned? ==> s'.handlers[k] == s.handlers[k])
  }

  lemma OthersFollow(s: Race, key: string, id: Uuid, turn: Turn, k: nat)
    requires key in s.db.payments && s.lock.None? && IsActivated(s.db, key, id)
    requires k in s.handlers && turn.handler in s.handlers && AfterCommit(s, key, id, k)
             && AfterCommit(s, key, id, turn.handler)
    ensures SettledTurn(s, Play(s, turn), key, id, k)
  {
    hide Publish, PaymentIdTaken, CanBill;
  }

  lemma {:induction false} EveryRaceIsOk(s: Race, turns: seq<Turn>, key: string)
    requires IsStart(s, key)
    requires s.db.payments[key].status == Success ==> exists id :: IsActivated(s.db, key, id)
    ensures RaceOk(s.db, PlayAll(s, turns), key)
  {
    hide Play;
    if turns == [] {
      if s.db.payments[key].status == Success {
        var id :| IsActivated(s.db, key, id);
        assert IsSettled(s.db, s, key, id);
      }
    } else {
      var front := turns[..|turns| - 1];
      EveryRaceIsOk(s, front, key);
      var now := PlayAll(s, front);
      if now.db == s.db && now.db.payments[key].status != Success
          && forall h :: h in now.handlers ==> BeforeCommit(now, key, h) {
        TurnBeforeCommit(s.db, now, key, turns[|turns| - 1]);
      } else {
        var id :| IsSettled(s.db, now, key, id);
        TurnAfterCommit(s.db, now, key, id, turns[|turns| - 1]);
      }
    }
  }

  /**
   * However any number of activations of one order interleave, the store is the
   * initial one or what a single activation makes of it, every handler that returns
   * returns the subscription the payment then points to, and no handler whose update
   * matched no row goes on to create a subscription.
   */
  lemma RacesActivateOnce(s: Race, turns: seq<Turn>, key: string, h: nat)
    requires IsStart(s, key) && h in s.handlers
    requires s.db.payments[key].status == Success ==> exists id :: IsActivated(s.db, key, id)
    ensures var s' := PlayAll(s, turns);
            && h in s'.handlers
            && (s'.db == s.db ||
                exists w, id ::
                    w in s'.handlers
                        && ActivateSubscription(s.db, s'.handlers[w].a, s'.handlers[w].choice) == Committed(s'.db, id))
            && (s'.handlers[h].stage.Returned? ==> IsActivated(s'.db, key, s'.handlers[h].stage.subscription))
            && !(IsWriting(s'.handlers[h].stage) && s'.handlers[h].stage.count == 0)
  {
    hide Play, ActivateSubscription, IsStart;
    EveryRaceIsOk(s, turns, key);
    HandlersStay(s, turns);
    var s' := PlayAll(s, turns);
    if s'.db == s.db && s'.db.payments[key].status != Success
        && forall k :: k in s'.handlers ==> BeforeCommit(s', key, k) {
      assert BeforeCommit(s', key, h);
    } else {
      var id :| IsSettled(s.db, s', key, id);
      assert AfterCommit(s', key, id, h);
    }
  }

  lemma TurnKeepsHandlers(s: Race, turn: Turn)
    ensures Play(s, turn).handlers.Keys == s.handlers.Keys
  {
  }

  lemma {:induction false} HandlersStay(s: Race, turns: seq<Turn>)
    ensures PlayAll(s, turns).handlers.Keys == s.handlers.Keys
  {
    hide Play;
    if turns != [] {
      HandlersStay(s, turns[..|turns| - 1]);
      TurnKeepsHandlers(PlayAll(s, turns[..|turns| - 1]), turns[|turns| - 1]);
    }
  }

  function PaidInvoices(db: Store, key: string): set<Uuid> {
    set id | id in db.invoices && db.invoices[id].payment == key && db.invoices[id].status == Paid
  }

  /** One activation of an open order adds one subscription, one ACTIVATED event and one PAID invoice. */
  lemma ActivationAddsOneOfEach(db: Store, a: Activation, choice: ActivationChoice, id: Uuid)
    requires ActivateSubscription(db, a, choice).Committed? && ActivateSubscription(db, a, choice).value == id
    requires db.payments[a.razorpayOrderId].status != Success && PaidInvoices(db, a.razorpayOrderId) == {}
    ensures var after := ActivateSubscription(db, a, choice).db;
            && id !in db.subscriptions && after.subscriptions.Keys == db.subscriptions.Keys + {id}
            && after.outbox == db.outbox + [ActivatedEvent(a, id)]
            && |PaidInvoices(after, a.razorpayOrderId)| == 1
            && forall i :: i in PaidInvoices(after, a.razorpayOrderId) ==> after.invoices[i].subscriptionId == Some(id)
  {
    var after := ActivateSubscription(db, a, choice).db;
    var billed := if choice.found.Some? then choice.found.value else choice.invoice;
    forall i | i in after.invoices
      ensures i in PaidInvoices(after, a.razorpayOrderId) <==> i == billed
    {
      if i != billed {
        assert i !in PaidInvoices(db, a.razorpayOrderId);
      }
    }
    assert PaidInvoices(after, a.razorpayOrderId) == {billed};
  }

  /** As soon as one handler of an open order has returned, there is exactly one of each, for good. */
  lemma RacesLeaveOneOfEach(s: Race, turns: seq<Turn>, key: string, h: nat)
    requires IsStart(s, key) && s.db.payments[key].status != Success && PaidInvoices(s.db, key) == {}
    requires h in PlayAll(s, turns).handlers && PlayAll(s, turns).handlers[h].stage.Returned?
    ensures var s' := PlayAll(s, turns);
            var id := s'.handlers[h].stage.subscription;
            && id !in s.db.subscriptions && s'.db.subscriptions.Keys == s.db.subscriptions.Keys + {id}
            && |PaidInvoices(s'.db, key)| == 1
            && exists w :: w in s'.handlers && s'.db.outbox == s.db.outbox + [ActivatedEvent(s'.handlers[w].a, id)]
  {
    hide Play, ActivateSubscription, IsStart, PaidInvoices;
    HandlersStay(s, turns);
    RacesActivateOnce(s, turns, key, h);
    var s' := PlayAll(s, turns);
    var w, id :| w in s'.handlers
        && ActivateSubscription(s.db, s'.handlers[w].a, s'.handlers[w].choice) == Committed(s'.db, id);
    RequestsKeepOrder(s, turns, key, w);
    ActivationAddsOneOfEach(s.db, s'.handlers[w].a, s'.handlers[w].choice, id);
    assert id == s'.handlers[h].stage.subscription by {
      NewSubscriptionIsLinked(s.db, s'.handlers[w].a, s'.handlers[w].choice);
    }
  }

  lemma NewSubscriptionIsLinked(db: Store, a: Activation, choice: ActivationChoice)
    requires ActivateSubscription(db, a, choice).Committed?
    ensures var done := ActivateSubscription(db, a, choice);
            a.razorpayOrderId in done.db.payments
                && done.db.payments[a.razorpayOrderId].subscriptionId == Some(done.value)
  {
  }

  lemma TurnKeepsRequest(s: Race, turn: Turn, h: nat)
    requires h in s.handlers
    ensures h in Play(s, turn).handlers && Play(s, turn).handlers[h].a == s.handlers[h].a
  {
  }

  lemma {:induction false} RequestsKeepOrder(s: Race, turns: seq<Turn>, key: string, h: nat)
    requires IsStart(s, key) && h in PlayAll(s, turns).handlers
    ensures PlayAll(s, turns).handlers[h].a.razorpayOrderId == key
  {
    hide Play;
    HandlersStay(s, turns);
    if turns != [] {
      HandlersStay(s, turns[..|turns| - 1]);
      RequestsKeepOrder(s, turns[..|turns| - 1], key, h);
      TurnKeepsRequest(PlayAll(s, turns[..|turns| - 1]), turns[|turns| - 1], h);
    }
  }

  predicate IsFinished(stage: Stage) { stage.Returned? || stage.GaveUp? }

  /** Statements a handler still has ahead of it at most. */
  function Remaining(stage: Stage): nat {
    match stage
    case Reading => 12
    case LookingUp(_, _) => 11
    case Claiming(_) => 10
    case Rereading(_) => 9
    case LookingUpAgain(_, _) => 8
    case CreatingSubscription(_, _) => 7
    case LinkingPayment(_, _, _) => 6
    case FindingInvoice(_, _, _) => 5
    case WritingInvoice(_, _, _) => 4
    case LoggingEvent(_, _, _) => 3
    case Committing(_, _, _) => 2
    case _ => 0
  }

  lemma StatementsAdvance(s: Race, h: nat)
    requires h in s.handlers && s.handlers[h].a.razorpayOrderId in s.db.payments && !IsFinished(s.handlers[h].stage)
    requires s.lock.None? || s.lock == Some(h)
    ensures Remaining(RunStatement(s, h).handlers[h].stage) < Remaining(s.handlers[h].stage)
    ensures forall k :: k in s.handlers && k != h ==> RunStatement(s, h).handlers[k] == s.handlers[k]
  {
    hide Publish, PaymentIdTaken, CanBill;
  }

  /**
   * No deadlock: as long as a handler is not finished, one of them can run a statement
   * that takes it closer to its end while the others stay where they are.
   */
  lemma SomeHandlerAdvances(s: Race, turns: seq<Turn>, key: string, h: nat)
    requires IsStart(s, key) && h in s.handlers
    requires s.db.payments[key].status == Success ==> exists id :: IsActivated(s.db, key, id)
    requires h in PlayAll(s, turns).handlers && !IsFinished(PlayAll(s, turns).handlers[h].stage)
    ensures var s' := PlayAll(s, turns);
            exists k :: k in s'.handlers && k in Play(s', Statement(k)).handlers
              && Remaining(Play(s', Statement(k)).handlers[k].stage) < Remaining(s'.handlers[k].stage)
              && forall i :: i in s'.handlers && i != k ==> Play(s', Statement(k)).handlers[i] == s'.handlers[i]
  {
    hide ActivateSubscription, IsStart, RunStatement;
    EveryRaceIsOk(s, turns, key);
    HandlersStay(s, turns);
    var s' := PlayAll(s, turns);
    var k := if s'.lock.Some? then s'.lock.value else h;
    if s'.lock.Some? {
      assert BeforeCommit(s', key, k);
    } else if s'.db == s.db && s'.db.payments[key].status != Success
        && forall i :: i in s'.handlers ==> BeforeCommit(s', key, i) {
      assert BeforeCommit(s', key, k);
    } else {
      var id :| IsSettled(s.db, s', key, id);
      assert AfterCommit(s', key, id, k);
    }
    StatementsAdvance(s', k);
    assert Play(s', Statement(k)) == RunStatement(s', k);
    TurnKeepsHandlers(s', Statement(k));
  }

  /** `n` statements of one handler in a row. */
  function RunAlone(s: Race, h: nat, n: nat): Race
    decreases n
  {
    if n == 0 then s else RunAlone(Play(s, Statement(h)), h, n - 1)
  }

  lemma {:induction false} FinishedStays(s: Race, h: nat, n: nat)
    requires h in s.handlers && IsFinished(s.handlers[h].stage)
    ensures RunAlone(s, h, n) == s
    decreases n
  {
    if n > 0 {
      FinishedStays(s, h, n - 1);
    }
  }

  /** One handler at a stage, with nobody beside it. */
  function Alone(db: Store, lock: Option<nat>, a: Activation, choice: ActivationChoice, stage: Stage): Race {
    Race(db, lock, map[0 := Handler(a, choice, stage)])
  }

  lemma AloneMoves(db: Store, lock: Option<nat>, a: Activation, choice: ActivationChoice, stage: Stage, next: Stage)
    ensures To(Alone(db, lock, a, choice, stage), 0, next) == Alone(db, lock, a, choice, next)
  {
    assert map[0 := Handler(a, choice, stage)][0 := Handler(a, choice, next)] == map[0 := Handler(a, choice, next)];
  }

  /** From the claim on, a lone handler commits what the atomic activation commits. */
  lemma ClaimedAloneCommits(db: Store, a: Activation, choice: ActivationChoice)
    requires a.razorpayOrderId in db.payments && db.payments[a.razorpayOrderId].status != Success
    requires !PaymentIdTaken(db.payments, a.razorpayOrderId, Some(a.razorpayPaymentId))
    requires choice.subscription !in db.subscriptions && CanBill(db, a.razorpayOrderId, choice)
    ensures var existing := db.payments[a.razorpayOrderId];
            RunAlone(Alone(db, Some(0), a, choice, LinkingPayment(existing, 1, choice.subscription)), 0, 5) ==
            Alone(ActivateSubscription(db, a, choice).db, None, a, choice, Returned(choice.subscription))
  {
    hide Publish, ActivateSubscription, PaymentIdTaken, CanBill, Play;
    var p, id := db.payments[a.razorpayOrderId], choice.subscription;
    ClaimedAloneMoves(db, a, choice, p, id);
    LastStatementPublishes(db, a, choice);
    OneMore(Alone(db, Some(0), a, choice, Committing(p, 1, id)), 0, 0);
    OneMore(Alone(db, Some(0), a, choice, LoggingEvent(p, 1, id)), 0, 1);
    OneMore(Alone(db, Some(0), a, choice, WritingInvoice(p, 1, id)), 0, 2);
    OneMore(Alone(db, Some(0), a, choice, FindingInvoice(p, 1, id)), 0, 3);
    OneMore(Alone(db, Some(0), a, choice, LinkingPayment(p, 1, id)), 0, 4);
  }

  lemma ClaimedAloneMoves(db: Store, a: Activation, choice: ActivationChoice, p: Payment, id: Uuid)
    requires a.razorpayOrderId in db.payments && CanBill(db, a.razorpayOrderId, choice)
    ensures Play(Alone(db, Some(0), a, choice, LinkingPayment(p, 1, id)), Statement(0)) ==
            Alone(db, Some(0), a, choice, FindingInvoice(p, 1, id))
    ensures Play(Alone(db, Some(0), a, choice, FindingInvoice(p, 1, id)), Statement(0)) ==
            Alone(db, Some(0), a, choice, WritingInvoice(p, 1, id))
    ensures Play(Alone(db, Some(0), a, choice, WritingInvoice(p, 1, id)), Statement(0)) ==
            Alone(db, Some(0), a, choice, LoggingEvent(p, 1, id))
    ensures Play(Alone(db, Some(0), a, choice, LoggingEvent(p, 1, id)), Statement(0)) ==
            Alone(db, Some(0), a, choice, Committing(p, 1, id))
  {
    hide Publish, PaymentIdTaken, CanBill;
    AloneMoves(db, Some(0), a, choice, LinkingPayment(p, 1, id), FindingInvoice(p, 1, id));
    AloneMoves(db, Some(0), a, choice, FindingInvoice(p, 1, id), WritingInvoice(p, 1, id));
    AloneMoves(db, Some(0), a, choice, WritingInvoice(p, 1, id), LoggingEvent(p, 1, id));
    AloneMoves(db, Some(0), a, choice, LoggingEvent(p, 1, id), Committing(p, 1, id));
  }

  lemma LastStatementPublishes(db: Store, a: Activation, choice: ActivationChoice)
    requires a.razorpayOrderId in db.payments && db.payments[a.razorpayOrderId].status != Success
    requires !PaymentIdTaken(db.payments, a.razorpayOrderId, Some(a.razorpayPaymentId))
    requires choice.subscription !in db.subscriptions && CanBill(db, a.razorpayOrderId, choice)
    ensures var p, id := db.payments[a.razorpayOrderId], choice.subscription;
            Play(Alone(db, Some(0), a, choice, Committing(p, 1, id)), Statement(0)) ==
            Alone(ActivateSubscription(db, a, choice).db, None, a, choice, Returned(id))
  {
    hide Publish, ActivateSubscription, PaymentIdTaken;
    var p, id := db.payments[a.razorpayOrderId], choice.subscription;
    PublishIsActivation(db, a, choice);
    AloneMoves(db, Some(0), a, choice, Committing(p, 1, id), Returned(id));
  }

  /** What an activation answers, as the stage its handler ends in. */
  function Ends(txn: Txn<Uuid>): Stage {
    match txn
    case Committed(_, id) => Returned(id)
    case Aborted(_) => GaveUp
  }

  /** A handler with nobody beside it does what the atomic step of the ledger does. */
  lemma AloneIsAtomic(db: Store, a: Activation, choice: ActivationChoice)
    requires a.razorpayOrderId in db.payments
    requires db.payments[a.razorpayOrderId].status == Success ==> exists id :: IsActivated(db, a.razorpayOrderId, id)
    ensures RunAlone(Alone(db, None, a, choice, Reading), 0, 8) ==
            Alone(After(db, ActivateSubscription(db, a, choice)), None, a, choice,
                  Ends(ActivateSubscription(db, a, choice)))
  {
    hide Publish, PaymentIdTaken, RunAlone;
    var key := a.razorpayOrderId;
    var p := db.payments[key];
    var s0 := Alone(db, None, a, choice, Reading);
    OneMore(s0, 0, 7);
    if p.status == Success {
      var id :| IsActivated(db, key, id);
      var s1 := Alone(db, None, a, choice, LookingUp(p, id));
      AloneMoves(db, None, a, choice, Reading, LookingUp(p, id));
      AloneMoves(db, None, a, choice, LookingUp(p, id), Returned(id));
      OneMore(s1, 0, 6);
      FinishedStays(Alone(db, None, a, choice, Returned(id)), 0, 6);
    } else {
      var s1 := Alone(db, None, a, choice, Claiming(p));
      AloneMoves(db, None, a, choice, Reading, Claiming(p));
      OneMore(s1, 0, 6);
      ClaimAlone(db, a, choice);
    }
  }

  lemma OneMore(s: Race, h: nat, n: nat)
    ensures RunAlone(s, h, n + 1) == RunAlone(Play(s, Statement(h)), h, n)
  {
  }

  /** A claimed row whose invoice cannot be written: the handler gives up and its lock is gone. */
  lemma UnbillableGivesUp(db: Store, a: Activation, choice: ActivationChoice)
    requires a.razorpayOrderId in db.payments && !CanBill(db, a.razorpayOrderId, choice)
    ensures var p := db.payments[a.razorpayOrderId];
            RunAlone(Alone(db, Some(0), a, choice, LinkingPayment(p, 1, choice.subscription)), 0, 5) ==
            Alone(db, None, a, choice, GaveUp)
  {
    hide RunAlone, CanBill;
    var p := db.payments[a.razorpayOrderId];
    var s3 := Alone(db, Some(0), a, choice, LinkingPayment(p, 1, choice.subscription));
    var s4 := Alone(db, Some(0), a, choice, FindingInvoice(p, 1, choice.subscription));
    AloneMoves(db, Some(0), a, choice, LinkingPayment(p, 1, choice.subscription),
               FindingInvoice(p, 1, choice.subscription));
    AloneMoves(db, Some(0), a, choice, FindingInvoice(p, 1, choice.subscription), GaveUp);
    OneMore(s3, 0, 4);
    OneMore(s4, 0, 3);
    FinishedStays(Alone(db, None, a, choice, GaveUp), 0, 3);
  }

  lemma ClaimAlone(db: Store, a: Activation, choice: ActivationChoice)
    requires a.razorpayOrderId in db.payments && db.payments[a.razorpayOrderId].status != Success
    ensures var p := db.payments[a.razorpayOrderId];
            RunAlone(Play(Alone(db, None, a, choice, Claiming(p)), Statement(0)), 0, 6) ==
            Alone(After(db, ActivateSubscription(db, a, choice)), None, a, choice,
                  Ends(ActivateSubscription(db, a, choice)))
  {
    hide Publish, PaymentIdTaken, RunAlone;
    var key := a.razorpayOrderId;
    var p := db.payments[key];
    var gaveUp := Alone(db, None, a, choice, GaveUp);
    FinishedStays(gaveUp, 0, 6);
    FinishedStays(gaveUp, 0, 5);
    AloneMoves(db, None, a, choice, Claiming(p), GaveUp);
    AloneMoves(db, None, a, choice, Claiming(p), CreatingSubscription(p, 1));
    if !PaymentIdTaken(db.payments, key, Some(a.razorpayPaymentId)) {
      var s2 := Alone(db, Some(0), a, choice, CreatingSubscription(p, 1));
      OneMore(s2, 0, 5);
      AloneMoves(db, Some(0), a, choice, CreatingSubscription(p, 1), GaveUp);
      AloneMoves(db, Some(0), a, choice, CreatingSubscription(p, 1), LinkingPayment(p, 1, choice.subscription));
      if choice.subscription !in db.subscriptions {
        if CanBill(db, key, choice) {
          ClaimedAloneCommits(db, a, choice);
          hide ActivateSubscription;
          PublishIsActivation(db, a, choice);
        } else {
          UnbillableGivesUp(db, a, choice);
        }
      }
    }
  }
}
