# SpotQ payment service: a verified model

The payment service keeps a ledger of payments in PostgreSQL. Customers pay for food
orders, restaurants pay for plans, Razorpay reports captures, failures and refunds by
webhook, a sweep expires subscriptions, and every change that other services must hear of
is written to an outbox table in the same transaction and relayed later. This project
models that ledger as a concurrent state machine, the outbox relay and the Redis locks as
protocols, and the date arithmetic, date filters and CSV export as exact kernels, and
proves what they guarantee on every input and every run.

## How to read it

| file | what it holds |
|---|---|
| `Tables.dfy` | rows, the `Store` value, the `Database` object, the unique indexes |
| `PaymentTransaction.dfy` | the payment entity and its guards |
| `Commits.dfy`, `Repositories.dfy` | each database transaction as a function on stores, and the repository methods that perform it on the tables |
| `Handlers.dfy`, `UseCases.dfy` | what each request prepares from what it reads, and the use-case methods |
| `RequestEffects.dfy`, `RequestOrigins.dfy`, `RefundableOrders.dfy` | what each request leaves and answers, stated on the rows alone; the request that each event, subscription, refund and payment of a run goes back to; from a paid webhook to the refund |
| `LedgerMachine.dfy` | steps and runs: reads and commits of different requests interleave freely |
| `LedgerInvariant.dfy` | what every run keeps |
| `OrderEvents.dfy`, `RefundLedger.dfy`, `RefundSettlement.dfy`, `SubscriptionExpiry.dfy`, `PendingOrders.dfy` | the run-level theorems about the ledger |
| `Prefixes.dfy`, `ExampleRuns.dfy` | properties of all prefixes of a run, and the start of the concrete runs |
| `ActivationRace.dfy` | subscription activation statement by statement, under a row lock |
| `OutboxRelay.dfy`, `OutboxTies.dfy`, `RelayRaces.dfy`, `RelayDelivery.dfy` | one relay, one relay on rows of equal creation time, any number of relays, and what their runs deliver |
| `RedisService.dfy`, `Idempotency.dfy`, `HandlerExclusion.dfy` | the Redis lock, the idempotency middleware as a protocol, and when its handlers exclude each other |
| `Calendar.dfy`, `BillingPeriod.dfy`, `DateValidators.dfy`, `PlatformLedger.dfy`, `CsvExport.dfy` | ECMA-262 days, billing periods, date validators, ledger windows and pages, CSV |

`dafny verify dfyconfig.toml` checks everything.

Modelling choices that the statements depend on:

- Each `$transaction` callback is one atomic step, because the code sets no isolation level
  and says nothing about what it expects of one. The exception is
  `activateSubscriptionWithOutbox`: its conditional update takes a row lock, so it is also
  modelled statement by statement, and proved to come to the same thing.
- A request is split where it awaits: `Begin` does its reads and mutates the entity in
  memory, `Finish` commits what was prepared, and any other step may come between them.
  `Whole` handles a request without interruption. A run is any sequence of steps; a step
  that the code does not allow changes nothing.
- What the database or the gateway decides is part of the request: new ids, which of several
  equally new rows `findFirst` returns, the order of query results, gateway replies, whether
  a signature is valid. The theorems hold for every such choice.
- Instants are unbounded integers of milliseconds, and local time is UTC.
- Payments are keyed by their unique Razorpay order id, which also stands for the surrogate
  uuid; refunds are keyed by their Razorpay refund id. The unique indexes are enforced: a write
  that violates one aborts its transaction.

## What turned out not to hold

Each of these comes with the exact condition under which the expected property does hold, and
where that condition is one on runs, with a concrete run or table that breaks it.

- Neither `capture` nor `markFailed` rejects REFUNDED. A `payment.failed` webhook between the
  commits of two refund requests therefore lets both write a refund row
  (`RefundsRepeatInARun`). Until the payment is captured again, a step writes a second row
  exactly when it finishes a request that was under way on a payment that is FAILED by then
  (`SecondRefundFindsFailure`). A refunded payment can be captured again
  from every consistent store (`RefundedCanBeCapturedAgain`, `CapturedTwiceInARun`).
- A draft invoice written after a refund of its payment is not void (`LateDraftIsNotVoid`). Payments
  of processed refunds stay REFUNDED with void invoices exactly in the runs without a commit that
  unsettles one, and `Unsettles` lists those commits by their guards (`ProcessedRefundsSettle`).
- The refund API and its webhook end in the same store exactly when both give the same amount,
  currency and reason and the webhook's arn is present or equal to the API's
  (`RefundAndNoticeCommute`).
- `releaseLockSafely` also fires on `close`. When a connection closes while its handler still
  runs, a second handler of the same key can start (`EarlyCloseLetsTwoRun`): at the lock step,
  exactly when nobody holds the lock (`SecondHandlerStarts`). After an early close exclusion lasts
  exactly if the key is cached and no request that missed the cache is waiting (`ExclusionLasts`).
- A request that missed the cache before the response was cached runs the handler again
  (`StaleMissRunsAgain`), and only such a request does (`CachedKeyRunsNoMore`).
- A connection that closes before the release hooks are attached leaves its lock held until
  `finish` (`LockIsAbandoned`, `AbandonedLockStays`).
- `isValidCalendarDate` refuses the years 0 to 99, which `dateSchema` accepts, because
  `Date.UTC` moves them to the twentieth century; the two agree on everything else
  (`ValidatorsAgree`).
- `isRunning` guards one process only: two processes log an expiry twice
  (`TwoProcessesExpireTwice`). Lives are logged once exactly in the runs whose sweeps find what
  they have read still ACTIVE when they commit (`LivesAreLoggedWhileActive`).
- Two subscription orders whose reads come before either creation are not kept 15 minutes apart
  (`SplitOrdersCollide`). Open payments are spaced exactly in the runs in which no commit creates
  one while a competing one is in the window (`SpacingIsLostByCloseCreations`).
- With requests split, the log of a food-order payment can be [FAILED, CAPTURED]
  (`TwoEventLogIsReachable`). In runs without refunds a log has one event at most exactly if no commit
  captures a payment that is FAILED by then (`LogsOnceUnlessCapturedLate`).
- A relay that records a failure late returns a PUBLISHED row to PENDING
  (`LateFailureRevivesPublished`). A PUBLISHED row stays so, unless it is replayed, exactly if no relay
  at work has it ahead in its batch (`PublishedStays`).
- The outbox query orders by creation time only. Where several rows have the same one, as after a
  sweep, an event that n others may be found before can wait 5 + n/4 cycles from n = 20 on, which is
  the exact longest wait (`NoStarvationWithTies`, `LongestWaitIsAttained`). It stays within the bound
  for distinct times, 5 times the ceiling of k/20 with k = n + 1, exactly if n < 20 or n mod 20 < 4
  (`TiesCost`).
- Twelve monthly periods are one yearly period exactly for start days up to the 28th, and for the
  29th when the February ahead is a leap one (`TwelveMonthsMakeAYear`).
- While the activation runs as one atomic transaction, the answer inside its `count === 0` branch
  is dead: a payment that is SUCCESS and linked to an existing subscription has been answered
  before, and the repository method holds an `assert false` there. A SUCCESS payment without such a
  link would go on to create a subscription from that branch; no run of the ledger has one
  (`KindsStaySeparate`). `RacesActivateOnce` shows the creation after `count === 0` unreachable
  with interleaved statements.

## Model

| member | source | states |
|---|---|---|
| LedgerMachine.WholeIsUninterrupted | src/application/use-cases/handle-webhook.use-case.ts:45-296 | reading, committing and following up as separate steps with nothing in between leave the whole state as handling the request in one step does |
| LedgerInvariant.StepKeepsState | src/infrastructure/repositories/prisma-payment-transaction.repository.ts:121-403 | every step, stale commits included, keeps the tables consistent, keeps every prepared commit about the row it read, and only extends the store |
| LedgerInvariant.ReachableIsOk | src/infrastructure/repositories/prisma-payment-transaction.repository.ts:121-403 | the invariant holds in every state of every run |
| LedgerInvariant.KindsStaySeparate | src/application/use-cases/handle-webhook.use-case.ts:84-243 | in every run plan payments are never CAPTURED, food-order payments never SUCCESS and never linked, and SUCCESS points to an existing subscription of the same restaurant and plan |
| LedgerInvariant.RunsOnlyExtend | src/infrastructure/repositories/prisma-payment-transaction.repository.ts:139-403 | over any part of a run amounts, currencies, owners and creation times never change, rows are never removed and the outbox only grows |
| OrderEvents.CommitMoves | src/infrastructure/repositories/prisma-payment-transaction.repository.ts:139-223 | the four things any commit can do to a food-order payment: nothing, capture it and log it, fail it and log it, or refund it |
| OrderEvents.LogTellsCommittedStatus | src/infrastructure/repositories/prisma-payment-transaction.repository.ts:139-223 | in every run without refund commits the order log is [], [FAILED], [CAPTURED] or [FAILED, CAPTURED], and its last entry tells the committed status |
| OrderEvents.LogsOnceUnlessCapturedLate | src/infrastructure/repositories/prisma-payment-transaction.repository.ts:139-223 | over all runs without refund commits, a payment's order log has at most one event throughout if and only if no commit captures the payment when it has FAILED |
| OrderEvents.WholeRequestsLogOnce | src/application/use-cases/handle-webhook.use-case.ts:94-141 | a consequence: when requests are not interrupted the order log has at most one event throughout |
| OrderEvents.TwoEventLogIsReachable | src/application/use-cases/order-payment/verify-order-payment.use-case.ts:30-87 | a concrete interleaving reaches the log [FAILED, CAPTURED] |
| OrderEvents.CapturesAreConserved | src/infrastructure/repositories/prisma-payment-transaction.repository.ts:139-361 | over all runs, the number of CAPTURED events is the number of commits that left CAPTURED, plus one if the payment is CAPTURED now |
| OrderEvents.OnlyRefundsLeaveCaptured | src/infrastructure/repositories/prisma-payment-transaction.repository.ts:151-154 | only refund commits take a food-order payment out of CAPTURED, and they take it to REFUNDED |
| RefundLedger.ReplayedNoticeChangesNothing | src/infrastructure/repositories/prisma-payment-transaction.repository.ts:279-361 | handling a refund webhook twice leaves the store as handling it once |
| RefundLedger.RefundAndNoticeCommute | src/infrastructure/repositories/prisma-payment-transaction.repository.ts:225-361 | API commit and refund.processed webhook in either order leave the payment REFUNDED, one PROCESSED row and void invoices, the late API call aborts, and the two stores are equal if and only if the two accounts of the refund agree |
| RefundLedger.ApiRefundIsFull | src/application/use-cases/order-payment/process-order-refund.use-case.ts:36-96 | a step that writes an API refund row writes a new one, for the payment's full amount and currency, on a payment that was not REFUNDED, and leaves it REFUNDED |
| RefundLedger.ApiRefundsAreFull | src/infrastructure/repositories/prisma-payment-transaction.repository.ts:225-277 | every refund row the API has written in a run stays a full refund, whatever webhooks follow |
| RefundLedger.RefundedAgainOnlyAfterReopening | src/infrastructure/repositories/prisma-payment-transaction.repository.ts:225-277 | between two API refund rows of a payment a capture or a failure was committed on the refunded payment |
| RefundLedger.RefundedOncePerCapture | src/infrastructure/repositories/prisma-payment-transaction.repository.ts:225-277 | a corollary: where no failure lands on a refunded payment, a capture lies between any two of its API refund rows |
| RefundLedger.SecondRefundFindsFailure | src/infrastructure/repositories/prisma-payment-transaction.repository.ts:225-277 | over all runs, after an API refund and until a capture, a step writes a second API row for the payment if and only if it finishes a request that was under way, finds the payment FAILED and its refund id new |
| RefundLedger.FailureLetsRefundRepeat | src/domain/entities/payment-transaction.entity.ts:160-170 | from any state with two refunds of a captured payment under way, a failure webhook between the commits lets both write a row, without a capture in between |
| RefundLedger.RefundsRepeatInARun | src/domain/entities/payment-transaction.entity.ts:160-170 | a concrete run with one capture and two API refund rows |
| RefundSettlement.CommitKeepsSettled | src/infrastructure/repositories/prisma-payment-transaction.repository.ts:139-403 | a commit leaves a REFUNDED payment with void invoices so if and only if it is no capture, failure, reset, activation or draft of it that the unique indexes let through |
| RefundSettlement.ProcessedRefundsSettle | src/infrastructure/repositories/prisma-payment-transaction.repository.ts:225-361 | over all runs, every refund row that was ever PROCESSED has its payment REFUNDED and all its invoices VOID throughout if and only if no commit of the run unsettles one |
| RefundLedger.RefundedCanBeCapturedAgain | src/domain/entities/payment-transaction.entity.ts:133-158 | a paid webhook captures a refunded food-order payment and logs the capture |
| RefundLedger.CapturedTwiceInARun | src/domain/entities/payment-transaction.entity.ts:133-158 | a concrete run in which a payment is captured, refunded and captured again, with two CAPTURED events |
| RefundSettlement.LateDraftIsNotVoid | src/application/use-cases/create-subscription-order.use-case.ts:43-158 | a concrete run in which a payment is refunded and settled, and then gets a draft invoice |
| SubscriptionExpiry.SweepIsInvisible | src/infrastructure/services/subscription-expiry.service.ts:40-104 | after a sweep only active subscriptions are ACTIVE, the active-subscription query has the same answers at every later instant, and a second sweep at the same instant finds nothing |
| SubscriptionExpiry.SweepCommitIsInvisible | src/infrastructure/repositories/prisma-subscription.repository.ts:22-46 | a sweep that commits late, in any run with any number of processes, changes no answer of the active-subscription query at its instant or later |
| SubscriptionExpiry.LivesAreLoggedOnce | src/infrastructure/services/subscription-expiry.service.ts:40-104 | with one sweeping process each subscription has one ACTIVATED event, and is EXPIRED exactly when one EXPIRED event follows it |
| SubscriptionExpiry.LivesAreLoggedWhileActive | src/infrastructure/services/subscription-expiry.service.ts:40-104 | over all runs of any number of processes, each subscription's life is logged once throughout if and only if every sweep that commits finds what it has read still ACTIVE |
| SubscriptionExpiry.TwoProcessesExpireTwice | src/infrastructure/services/subscription-expiry.service.ts:40-104 | a concrete run in which two processes log the expiry of one subscription |
| SubscriptionExpiry.PaymentSubscriptionExpiryService.ExpirePastDueSubscriptions | src/infrastructure/services/subscription-expiry.service.ts:40-104 | while running it returns 0 and changes nothing; otherwise its loop leaves exactly the specified store and counts the rows, or a failing transaction leaves every table as it was and the error is passed on; the flag is reset either way |
| PendingOrders.OpenOrdersStaySpaced | src/application/use-cases/create-subscription-order.use-case.ts:60-122 | when subscription orders are not split, any two open unattached payments of one restaurant and plan were created more than 15 minutes apart, in every run |
| PendingOrders.SpacingIsLostByCloseCreations | src/application/use-cases/create-subscription-order.use-case.ts:60-122 | over all runs, split orders included, open payments are spaced throughout if and only if no commit creates one while a competing one was created within the window |
| PendingOrders.SplitOrdersCollide | src/application/use-cases/create-subscription-order.use-case.ts:60-122 | a concrete run with two orders read before either creation, which ends with two open payments of one instant |
| ActivationRace.RacesActivateOnce | src/infrastructure/repositories/prisma-subscription.repository.ts:92-225 | however many activations of an order interleave statement by statement, the store is the first one or what a single activation makes of it, all returns name the linked subscription, and the creation after count 0 is unreachable |
| ActivationRace.RacesLeaveOneOfEach | src/infrastructure/repositories/prisma-subscription.repository.ts:155-225 | once a handler has returned there is one new subscription, one more event, an ACTIVATED one, and one PAID invoice of the order |
| ActivationRace.ActivationAddsOneOfEach | src/infrastructure/repositories/prisma-subscription.repository.ts:155-225 | the atomic activation of an unpaid order adds one subscription, one event and one PAID invoice that names the subscription |
| ActivationRace.SomeHandlerAdvances | src/infrastructure/repositories/prisma-subscription.repository.ts:119-153 | no deadlock: while a handler is unfinished some handler's next statement makes progress without touching the others |
| ActivationRace.AloneIsAtomic | src/infrastructure/repositories/prisma-subscription.repository.ts:92-225 | a handler run alone, statement by statement, ends in the store and with the answer of the atomic activation |
| PaymentEntity.TransitionsKeepIdentity | src/domain/entities/payment-transaction.entity.ts:133-204 | which statuses allow capture, failure and refund, both ways, and that none of them changes whose payment it is |
| PaymentEntity.RefundsAreFullAndOnce | src/domain/entities/payment-transaction.entity.ts:172-204 | a refund request is accepted exactly for a paid payment with a gateway id and the full amount, and after it every refund is refused |
| PaymentEntity.PaymentTransaction.Capture | src/domain/entities/payment-transaction.entity.ts:133-158 | the mutated entity is the specified one, and an error leaves it as it was |
| PaymentEntity.PaymentTransaction.MarkFailed | src/domain/entities/payment-transaction.entity.ts:160-170 | likewise for a failure |
| PaymentEntity.PaymentTransaction.MarkRefunded | src/domain/entities/payment-transaction.entity.ts:195-204 | likewise for a refund |
| Repositories.PaymentTransactionRepository.CaptureOrderPaymentWithOutbox | src/infrastructure/repositories/prisma-payment-transaction.repository.ts:139-181 | row and event are written together, a CAPTURED row is left alone, and an abort leaves every table as it was |
| Repositories.PaymentTransactionRepository.FailOrderPaymentWithOutbox | src/infrastructure/repositories/prisma-payment-transaction.repository.ts:183-223 | likewise for a failure, which spares CAPTURED, SUCCESS and FAILED rows |
| Repositories.PaymentTransactionRepository.ProcessOrderRefund | src/infrastructure/repositories/prisma-payment-transaction.repository.ts:225-277 | refund row, status and void invoices together, or nothing with the error of the check that failed |
| Repositories.PaymentTransactionRepository.SyncRefundFromWebhook | src/infrastructure/repositories/prisma-payment-transaction.repository.ts:279-361 | the known, unknown and foreign refund branches on the tables |
| Repositories.PaymentTransactionRepository.MarkFailed | src/infrastructure/repositories/prisma-payment-transaction.repository.ts:382-392 | the unconditional write, with the error for an unknown order |
| Repositories.PaymentTransactionRepository.ResetToCreated | src/infrastructure/repositories/prisma-payment-transaction.repository.ts:394-403 | likewise |
| Repositories.PaymentTransactionRepository.Create | src/infrastructure/repositories/prisma-payment-transaction.repository.ts:121-137 | a new row, or the unique-constraint error and no change |
| Repositories.SubscriptionRepository.ActivateSubscriptionWithOutbox | src/infrastructure/repositories/prisma-subscription.repository.ts:92-225 | the statements in order come to the atomic activation, with rollback on every abort |
| RequestEffects.VerificationEffect | src/application/use-cases/order-payment/verify-order-payment.use-case.ts:30-87 | when a verification captures, by the rows alone, and the exact row and CAPTURED event it leaves; in every other case nothing changes |
| RequestEffects.PaidWebhookEffect | src/application/use-cases/handle-webhook.use-case.ts:94-193 | when a paid webhook captures a food order or activates a plan, and exactly what it leaves: gateway payment id, payment method, subscription from now for a period of the plan, invoice, event |
| RequestEffects.PlanVerificationEffect | src/application/use-cases/verify-payment.use-case.ts:45-158 | when a plan verification activates and exactly what it leaves, down to the end of the period of the payment's plan |
| RequestEffects.FailedWebhookEffect | src/application/use-cases/handle-webhook.use-case.ts:195-245 | a failure marks exactly the payments that are not paid, and logs only a food order's first failure |
| RequestEffects.RefundNoticeEffect | src/infrastructure/repositories/prisma-payment-transaction.repository.ts:279-361 | a refund notice updates the status and arn of a known refund, writes one for the payment it names, with the payment's amount, currency and method where the notice has none, or writes nothing; a PROCESSED one leaves the payment REFUNDED and its invoices void |
| RequestEffects.RefundEffect | src/application/use-cases/order-payment/process-order-refund.use-case.ts:36-96 | when a refund request writes, and exactly the refund row, payment status and void invoices it leaves |
| RequestEffects.OrderEffect | src/application/use-cases/order-payment/create-order-payment.use-case.ts:26-91 | an order request adds one CREATED payment exactly if the order's newest payment is neither paid nor waiting for the same amount |
| RequestEffects.PlanOrderEffect | src/application/use-cases/create-subscription-order.use-case.ts:43-158 | a plan order writes only for an active plan and while no subscription of the restaurant is active, and adds a payment at the plan's price and its draft, or reopens a failed one |
| RequestOrigins.OrderEventsAreAskedFor | src/application/use-cases/order-payment/verify-order-payment.use-case.ts:30-87 | over all runs, every CAPTURED event goes back to a paid webhook for its payment or to a valid verification for its order by its customer, and every FAILED event to a failure webhook for its payment |
| RequestOrigins.SubscriptionsAreAskedFor | src/application/use-cases/verify-payment.use-case.ts:45-158 | over all runs, a subscription that a step adds goes back to a paid webhook or a valid verification by its restaurant of the payment linked to it, and starts at the clock of that request's read |
| RequestOrigins.SubscriptionsLastAPeriod | src/application/use-cases/verify-payment.use-case.ts:107-116 | in every state of every run, each subscription ends one billing period of its own plan after its start |
| RequestOrigins.SubscriptionLengths | src/domain/entities/subscription-plan.entity.ts:65-73 | in every state of every run, a subscription of a monthly plan lasts as long as the month it starts in, one of a yearly plan 366 or 365 days by the February ahead |
| RequestOrigins.RefundStatusIsReported | src/application/use-cases/order-payment/process-order-refund.use-case.ts:74-92 | over all runs, every refund row has a status that the gateway reported of it, in a reply to a request of the run or in a notice: PROCESSED only if one of them said so |
| RequestOrigins.PaymentsAreAskedFor | src/application/use-cases/create-subscription-order.use-case.ts:43-158 | over all runs, every payment goes back to a request for it, with the order's amount or the price of an active plan, and a plan payment to one that read no active subscription of its restaurant |
| RequestOrigins.WholePlanOrdersFindNoneActive | src/application/use-cases/create-subscription-order.use-case.ts:53-58 | over all runs, a plan payment that a request handled whole adds finds no active subscription of its restaurant at that moment |
| RefundableOrders.PaidOrderKeepsId | src/application/use-cases/handle-webhook.use-case.ts:94-141 | a capture by webhook leaves the event's payment id, which no other payment has, and its method or ONLINE |
| RefundableOrders.PaidOrderCanBeRefunded | src/application/use-cases/order-payment/process-order-refund.use-case.ts:36-96 | after a paid webhook with a non-empty id has captured an order, a full refund that the gateway accepts under a new id writes its row and leaves the payment REFUNDED |
| RefundableOrders.PaidOrderIsFoundByNotice | src/infrastructure/repositories/prisma-payment-transaction.repository.ts:279-361 | after such a capture, a PROCESSED notice that names the id, under a new refund id, writes a row for that payment and settles it |
| UseCases.HandleWebhookUseCase.Execute | src/application/use-cases/handle-webhook.use-case.ts:45-296 | an invalid signature is answered false and changes nothing; otherwise the rows become exactly what `EventLeaves` says of the event, which is also the request handled at once; it is acknowledged exactly if what it reports could be recorded, then the tables show it, and an error has changed nothing |
| UseCases.VerifyOrderPaymentUseCase.Execute | src/application/use-cases/order-payment/verify-order-payment.use-case.ts:30-87 | the payment is captured exactly if it is for this order and customer, neither CAPTURED nor FAILED, the signature is valid and the payment id free; otherwise nothing changes; every error is told by its cause, an invalid signature by InvalidPaymentSignature |
| UseCases.VerifyPaymentUseCase.Execute | src/application/use-cases/verify-payment.use-case.ts:45-158 | exactly a valid verification by the payment's restaurant, of a payment that is not linked yet and whose rows can be written, adds a subscription from now for one period of the payment's plan, with its event and PAID invoice; it returns the subscription the payment points to, or the error of what is wrong |
| UseCases.ProcessOrderRefundUseCase.Execute | src/application/use-cases/order-payment/process-order-refund.use-case.ts:36-96 | exactly a full refund of the order's newest payment, if paid and with a gateway id, which the gateway accepts under a new refund id, writes a row and leaves the payment REFUNDED; the returned row is the stored one, PROCESSED if and only if the gateway says processed, with its arn and the caller's reason; every refusal by its cause |
| UseCases.CreateOrderPaymentUseCase.Execute | src/application/use-cases/order-payment/create-order-payment.use-case.ts:26-91 | a new CREATED payment of the requested amount, unless the newest payment of the order is paid, which is an error, or waits for the same amount, which is returned; otherwise nothing changes |
| UseCases.CreateSubscriptionOrderUseCase.Execute | src/application/use-cases/create-subscription-order.use-case.ts:43-158 | an unknown or inactive plan, or an active subscription of the restaurant, is an error and changes nothing; otherwise the newest waiting payment of the last 15 minutes is returned, reopened if it had failed, or a payment at the plan's price is added with its draft |
| UseCases.ActivationLinks | src/infrastructure/repositories/prisma-subscription.repository.ts:92-225 | a committed activation leaves the payment SUCCESS and pointing to the subscription it returns |
| OutboxRelay.OutboxRelayService.ProcessPendingEvents | src/infrastructure/outbox/outbox-relay.service.ts:67-166 | when busy or locked out nothing changes; otherwise each event of the batch the query returns is tried once, up to one whose failure cannot be recorded, or none where the query fails, no other row changes, errors are passed on, and lock and flag are given back |
| OutboxRelay.OutboxRepository.RecordFailure | src/infrastructure/repositories/prisma-outbox.repository.ts:88-111 | one more retry, FAILED from the fifth on, and the answer tells the row's new state |
| OutboxRelay.OutboxRepository.MarkPublished | src/infrastructure/repositories/prisma-outbox.repository.ts:78-86 | the row is PUBLISHED and no other row changes |
| OutboxRelay.OutboxRepository.ReplayDeadLetter | src/infrastructure/repositories/prisma-outbox.repository.ts:113-134 | the row is PENDING with no retries and no other row changes |
| OutboxRelay.DistinctTimesLeaveNoChoice | src/infrastructure/repositories/prisma-outbox.repository.ts:38-56 | where no two rows have the same creation time the query has one answer, the first twenty PENDING rows of the table, and that is one |
| OutboxRelay.FirstPendingIsBatch | src/infrastructure/repositories/prisma-outbox.repository.ts:38-56 | those are exactly the PENDING rows with fewer older PENDING rows than the limit |
| OutboxRelay.NoStarvation | src/infrastructure/outbox/outbox-relay.service.ts:67-166 | where no two rows have the same creation time, the k-th oldest PENDING event leaves PENDING within 5 times the ceiling of k/20 cycles, whatever the broker answers and whatever arrives later |
| OutboxTies.NoStarvationWithTies | src/infrastructure/outbox/outbox-relay.service.ts:67-166 | with ties, in whatever order the database breaks them, an event leaves PENDING within 5 cycles if fewer than twenty others may be found before it, and within 5 + n/4 if n are |
| OutboxTies.LongestWaitIsAttained | src/infrastructure/repositories/prisma-outbox.repository.ts:38-56 | for every n, a table and answers of the query with which an event with n rivals is still PENDING one cycle before that bound |
| OutboxTies.TiesCost | src/infrastructure/repositories/prisma-outbox.repository.ts:38-56 | every run keeps to the bound for distinct creation times if and only if n is less than 20 or less than 4 modulo 20 |
| OutboxRelay.BoundIsTight | src/infrastructure/outbox/outbox-relay.service.ts:67-166 | that bound is attained when every publish of a fresh table fails |
| OutboxRelay.WorkShrinks | src/infrastructure/repositories/prisma-outbox.repository.ts:88-111 | the retries left over PENDING rows shrink in every cycle that finds one, ties or not |
| OutboxRelay.TableDrains | src/infrastructure/outbox/outbox-relay.service.ts:67-166 | without arrivals no row is PENDING after as many cycles as there were retries left |
| RelayRaces.RelaysKeepTableSound | src/infrastructure/repositories/prisma-outbox.repository.ts:78-134 | with any number of relays, crashes, replays and split failure records, PENDING rows have retries left, FAILED rows have none, and a PUBLISHED row of a known type was accepted by the broker |
| RelayRaces.AloneIsACycle | src/infrastructure/outbox/outbox-relay.service.ts:67-166 | a relay that nothing interrupts, step by step, leaves the table of exactly one cycle over the batch it has read |
| RelayDelivery.RelaysKeepLogs | src/infrastructure/outbox/outbox-relay.service.ts:67-166 | over all runs of the relays, the order log of every payment and the log of every subscription are what has been written to the table, in that order |
| RelayDelivery.LedgerLogsSurviveRelays | src/infrastructure/outbox/outbox-relay.service.ts:67-166 | relays at work on what a run of the ledger writes leave the table with all the logs of that run |
| RelayDelivery.PublishedStays | src/infrastructure/repositories/prisma-outbox.repository.ts:78-134 | in every run, a PUBLISHED row stays PUBLISHED in every continuation that does not replay it if and only if no relay at work has it ahead in its batch |
| RelayRaces.LateFailureRevivesPublished | src/infrastructure/repositories/prisma-outbox.repository.ts:88-111 | a concrete run of two relays in which a PUBLISHED row returns to PENDING without a replay |
| Redis.RedisService.AcquireLock | src/infrastructure/redis/redis.service.ts:63-74 | acquired exactly when the key was free or Redis is away, and then the key is set |
| Redis.RedisService.ReleaseLock | src/infrastructure/redis/redis.service.ts:76-84 | the key is gone, whoever held it |
| Idempotency.Guard.Enter | src/presentation/middleware/idempotency.middleware.ts:38-68 | a blank key is refused, a cached body that parses is replayed, a held lock is a conflict, otherwise the lock is taken; with Redis away every keyed request proceeds and nothing is written |
| Idempotency.Guard.Json | src/presentation/middleware/idempotency.middleware.ts:81-86 | exactly the bodies with a status from 200 to 399 are cached |
| Idempotency.Guard.ReleaseLockSafely | src/presentation/middleware/idempotency.middleware.ts:71-79 | the first call deletes the lock, later ones change nothing |
| Idempotency.EntryFollowsProtocol | src/presentation/middleware/idempotency.middleware.ts:52-68 | entering on the Redis keys is the protocol's cache read and lock step, for the request and for every other key |
| Idempotency.ResponseFollowsProtocol | src/presentation/middleware/idempotency.middleware.ts:81-86 | likewise for the cached response |
| Idempotency.ReleaseFollowsProtocol | src/presentation/middleware/idempotency.middleware.ts:71-89 | likewise for the release on close or finish |
| Idempotency.ReleaseFreesOwnLock | src/presentation/middleware/idempotency.middleware.ts:71-89 | in every run a step deletes a lock if and only if the release hook of its holder fires, who had not released it before |
| Idempotency.AbandonedLockStays | src/presentation/middleware/idempotency.middleware.ts:64-89 | a holder whose connection closed before its hooks were attached keeps the lock in every continuation without its own finish |
| HandlerExclusion.LockIsAbandoned | src/presentation/middleware/idempotency.middleware.ts:64-89 | a concrete run that ends with such a holder |
| Idempotency.ReleasedStaysReleased | src/presentation/middleware/idempotency.middleware.ts:71-79 | a request that has released its lock never becomes a holder again |
| HandlerExclusion.OnlyClosedHandlersOverlap | src/presentation/middleware/idempotency.middleware.ts:64-89 | in every run, of two handlers of one key that run at once one has had its connection closed |
| HandlerExclusion.HandlersExclude | src/presentation/middleware/idempotency.middleware.ts:64-89 | in runs without early closes no two handlers of one key run at once |
| HandlerExclusion.SecondHandlerStarts | src/presentation/middleware/idempotency.middleware.ts:64-68 | in every run, beside a running handler the lock step starts a second one if and only if no request of the key holds the lock, and then the first has released it |
| HandlerExclusion.ExclusionLasts | src/presentation/middleware/idempotency.middleware.ts:52-89 | in every run, exclusion holds in every continuation without further early closes if and only if at most one handler runs and, where it runs loose, the key is cached and no request that missed is waiting |
| HandlerExclusion.EarlyCloseLetsTwoRun | src/presentation/middleware/idempotency.middleware.ts:88-89 | a concrete run with an early close that ends with two handlers of one key at work |
| Idempotency.CacheHoldsLastResponse | src/presentation/middleware/idempotency.middleware.ts:81-86 | in every run the cache holds the last cacheable response of each key |
| Idempotency.LateReadersReplay | src/presentation/middleware/idempotency.middleware.ts:52-62 | a request that reads after a response was cached answers with the last cached body and never runs the handler, whatever follows |
| HandlerExclusion.CachedKeyRunsNoMore | src/presentation/middleware/idempotency.middleware.ts:52-68 | in every run in which a key is cached, no continuation starts its handler again if and only if no request that missed before is waiting |
| HandlerExclusion.StaleMissRunsAgain | src/presentation/middleware/idempotency.middleware.ts:52-68 | a concrete run in which the handler runs although a response is cached |
| Calendar.MakeDayReadsBack | src/domain/entities/subscription-plan.entity.ts:65-73 | reading a day as year, month and date and making the day again is the identity, for every day |
| Calendar.CalendarReadsBack | src/presentation/validators/transactions/list-transactions.validator.ts:13-20 | making a day of a Gregorian date and reading it back is the identity |
| BillingPeriod.CalculatePeriodEnd | src/domain/entities/subscription-plan.entity.ts:65-73 | the returned date is a new one, moved by setMonth or setFullYear, and the caller's date stays |
| BillingPeriod.MonthlyPeriodLength | src/domain/entities/subscription-plan.entity.ts:65-73 | a monthly period lasts exactly as long as the month it starts in, month-end overflow included |
| BillingPeriod.YearlyPeriodLength | src/domain/entities/subscription-plan.entity.ts:65-73 | a yearly period lasts 366 days exactly when the next end of February in it is leap, otherwise 365 |
| BillingPeriod.TwelveMonthsMakeAYear | src/domain/entities/subscription-plan.entity.ts:65-73 | twelve monthly renewals equal one yearly period if and only if the start day is at most 28, or 29 with a leap February ahead |
| DateValidators.DateSchemaIsGregorian | src/presentation/validators/common/date.validators.ts:4-10 | the schema accepts exactly the Gregorian dates, whether the engine refuses or rolls over a day past its month |
| DateValidators.IsValidCalendarDateIsGregorian | src/presentation/validators/transactions/list-transactions.validator.ts:13-20 | rollover and read back accepts exactly the Gregorian dates from year 100 on |
| DateValidators.ValidatorsAgree | src/presentation/validators/transactions/list-transactions.validator.ts:13-20 | the two validators agree on a string if and only if it is no Gregorian date before year 100 |
| DateValidators.StringOrderIsChronological | src/presentation/validators/platform-finance/get-platform-master-ledger.validator.ts:16-19 | on accepted dates the string comparison is the chronological one, both ways |
| DateValidators.IsoDateReadsBack | src/presentation/validators/common/date.validators.ts:4-10 | the ISO text of a day in years 0 to 9999 has the shape the schema wants and names that day |
| PlatformLedger.WindowHoldsIstDays | src/infrastructure/repositories/prisma-platform-ledger-transaction.repository.ts:29-46 | an instant passes the filter if and only if its UTC+05:30 day lies in the range |
| PlatformLedger.WindowHoldsIstDates | src/infrastructure/repositories/prisma-platform-ledger-transaction.repository.ts:29-46 | the same with dates as written and compared as strings |
| PlatformLedger.WindowsTile | src/infrastructure/repositories/prisma-platform-ledger-transaction.repository.ts:29-46 | single-day windows cover every instant once, and their union over a range is the range's window |
| PlatformLedger.BuildFilters | src/infrastructure/repositories/prisma-platform-ledger-transaction.repository.ts:27-54 | the pushed filters together pass exactly the rows the query asks for |
| PlatformLedger.FindManyPaginated | src/infrastructure/repositories/prisma-platform-ledger-transaction.repository.ts:20-77 | the page is that slice of the ordered selection, with page count and limit, or all of it without a limit |
| PlatformLedger.ListingIsUnique | src/infrastructure/repositories/prisma-platform-ledger-transaction.repository.ts:62-69 | creation time and id order the rows in one way only |
| PlatformLedger.PagesCoverListing | src/infrastructure/mappers/platform-ledger-transaction.persistence-mapper.ts:12-26 | pages 1 to totalPages put together are the listing, and none is empty or too long |
| PlatformLedger.ExportHoldsAllPages | src/application/use-cases/platform-finance/export-platform-ledger.use-case.ts:28-43 | parsing the exported file gives the header and the rows of all pages, for every limit |
| CsvExport.ExportReadsBack | src/application/use-cases/platform-finance/export-platform-ledger.use-case.ts:9-43 | an RFC 4180 section 2 reader recovers header and rows from the export, null as empty, whatever commas, quotes and line breaks the fields hold |
| CsvExport.FieldsStandUnderTheirNames | src/application/use-cases/platform-finance/export-platform-ledger.use-case.ts:9-43 | in the file that is read back, each of the seven fields of every row stands under its own header name |

## Left out

- HMAC signature checks and the Razorpay SDK: signature validity and gateway replies are inputs.
- Redis, BullMQ, RabbitMQ, Prisma and Express plumbing; a publish is accepted or fails.
- Lock and cache lifetimes: no key expires, and the idempotency theorems take Redis to be open, so the fail-open branch of `acquireLock` appears only in the contracts of `RedisService`, the relay and the middleware.
- The order of unawaited Redis commands: the cache write of `res.json` takes effect with the response, as on a single connection it precedes the release.
- A missing cache service: it is a configuration error.
- Isolation anomalies between transactions other than activations: each transaction callback is one step.
- Columns that no decision reads: updatedAt, paidAt, processedAt, publishedAt, lastError, invoice numbers, PDF keys, and all metadata keys but `method` and `planCode`.
- Event payload fields that only inform: timestamps, plan codes, gateway ids. An event keeps its type, aggregate, payment or subscription, owner, amount, currency and period end.
- `markSuccess`, the subscription repository's `create` and the reset script: no modelled use case calls them, so they are no steps of a run.
- Subscriber search, DTO mappers, auth, routes and the restaurant client: easy or foreign.
- Wallet, payout and settlement tables, and the raw SQL of `prisma-finance-query.repository.ts`: nothing in the service writes the former, and the latter reads a dropped table.
- Local time zones, daylight saving and the ±8.64e15 ms range of a JavaScript Date: instants are unbounded and in UTC.
- Conversion of BigInt amounts and Dates to text in the exported rows: rows arrive as the strings of the DTO, through an arbitrary mapper.
- OutboxRelay.NoStarvation: assumes that database calls succeed, that one relay is at work and that creation times ascend with the table; crashes and several relays are the subject of `RelayRaces`, which bounds no waiting time.
- OutboxTies.NoStarvationWithTies: assumes the same of the database and the relay, and that rows written later are created later than the event in question.
- Redis.RedisService.AcquireLock: no key expires; a command that throws acts as on a closed client, which is what the handlers of its errors make of it.
- Whether `finish` fires on a response whose connection is gone: both are runs of the protocol.
- LedgerInvariant.KindsStaySeparate: says nothing about REFUNDED plan payments, which refund webhooks can produce.
