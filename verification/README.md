# FlashBite: a verified model of the order platform

FlashBite takes orders, charges for them, finds a driver and shows everyone what is going on. Its
state lives in several small machines that only talk by events: an event store with optimistic
concurrency, an outbox with a poller, topics, two projections, two long-running sagas, a payments
service, a busy set of drivers, live event streams, a cache, and rotating refresh tokens. Each may be
retried, redelivered, raced or crash half way. This project models those machines in Dafny and proves
that they keep agreeing.

`dafny verify dfyconfig.toml` checks everything. Modules follow the program:

| module | what it models |
|---|---|
| `Contracts` | events, statuses, views, and the string keys built by joining with `:` |
| `Sequences` | what a query does: select and stable sort; and replay (fold) |
| `OrderAggregate`, `DispatchAggregate` | the two aggregates: fold, commands, and the grammar of the histories they allow |
| `AggregateStore`, `Writers` | load, expected-version append with its outbox row; any number of stale, retrying writers |
| `Poller`, `Projection`, `Pipeline` | publish-then-mark; inbox and version-guarded upsert; the whole path with crashes everywhere |
| `Progress` | that poller and consumers can always finish what was written |
| `Rebuild`, `Tenancy` | clear and replay against live consumption, and as a step of the pipeline; tenants do not interfere |
| `Payments`, `OrderSaga`, `SagaActivities` | the payment row; the order saga against a lossy network; its activities on the store |
| `DriverDispatch`, `BusySet` | the re-offer loop on a moving fleet; the machine of many dispatches sharing the busy set, whose steps the loop takes |
| `Views`, `Snapshots`, `DriverStream` | live and stored dispatch views and the client's map; the same end to end over runs of the pipeline; the per-driver filter |
| `OrdersQuery` | the cached query, with calls that overlap at will |
| `RefreshTokens` | rotation with reuse detection and a grace window |
| `OrderIntake`, `Headers` | idempotent placing and one workflow per order; message headers |

Code that updates things in place is a class whose methods are proved against a function on values
(`AppendTx`, `Work`, `Upsert`, `Apply`, `Exec`, `Step`, `Registry`, `DueTo`); the theorems are about those
functions and about runs, that is all sequences of their steps.

## Standing assumptions

- Tenant slugs contain no `:` and none is named `dispatch`; no order id starts with `dispatch:`. Order
  ids are only validated as strings (`apps/write-api/src/orders/create-order.dto.ts:18`), so this is an
  assumption about callers. `AggregateIdsMeetIff` and `WorkflowIdsMeetIff` say exactly which ids
  would meet without it; `ColonsCollide`, `AliasedStreams` and `ColonsInterfere` show what goes wrong.
- Event ids and raw tokens are fresh; hashing is injective; one clock that never goes back.
- One poller, and outbox time stamps of one aggregate increase strictly. `OvertakenOutcomeIsLost`
  shows why messages of one order must not overtake each other, `OrderUpsertAdvancesIff` that this is
  exactly what an order's projection needs.
- A consumer may rewind but never skips a message.
- A payments request, an append transaction and an activity attempt are each one atomic step, and an
  activity attempt takes effect before a later attempt of the same activity reports back.
- Rotate calls do not overlap. Calls of the cached query may.
- No consumer handles a message between the clearing and the last row of a rebuild
  (`DisturbedRebuildIff` says what happens if one does); writers and the poller may go on.
- A child workflow started without a reuse policy may reuse the id of one that has ended.

## Findings

- The order saga does **not** guarantee that an order cancelled with PAYMENT_FAILED was never charged.
  `LostCaptureRun` is the run: hold, approval, a capture that takes effect and loses its reply, a void
  that is refused, the cancel. `PaymentFailedIsSafeIff` is the exact condition: such an order is safe
  from a charge if and only if capture was never called or the void was acknowledged. On states,
  `ReachedChargeableIff`: a charge is possible, or has happened, if and only if a capture was sent and
  no void has taken effect.
- The busy set is **not** always the set of held drivers, and drivers can stay busy for ever.
  `RunIsExactIff`: it is exact throughout a run if and only if no clear lands on a driver whom another
  workflow holds; `SecondJobIsUnprotected` is a run where one does. `LeakIff` says for every finished
  run who stays busy; in an exact run somebody does if and only if a workflow failed while holding a
  driver (`ExactLeakIff`), and `FailureLeaks` is such a run.
- The cached query's ten seconds count from the cache write, not from the read. `TenSecondsIff`: the
  view served is at most ten seconds old if and only if its own entry took at most a millisecond from
  read to write; `LateHit` is a failing run for every longer delay.
- Overlapping calls of the cached query can answer with an older view after a newer one
  (`OverlappingCallsGoBack`), if and only if a call overwrites the cached entry with an older document,
  that is, if and only if between a call's read and its write another call for the order writes a
  newer one (`AnswersNeverGoBackIff`).
- Logging out with an already exchanged token does not end the session: `LogoutMissesSession` is the
  run. `RevokeEndsFamilyIff`: after the logout some token of the family can still be exchanged, now or
  ever, if and only if another one is active and unexpired at that moment.
- The live view of a dispatch agrees with the stored document only after the driver is stripped
  (`FullViewsAgreeIff`; `AcceptedViewsDiffer` is an offer and its acceptance), and only because a failure
  is always the last event (`LiveEqualsReplayIff`).
- A driver whose connection opens in the middle of a job may not be sent the rest of it
  (`AcceptedUnheard`): live messages begin only when the snapshot is through. `KnownIsExactIff`: the
  connection knows exactly the driver's jobs if and only if it was shown, or hears again, the acceptance
  of each job they had already. And a redelivered offer of a job to somebody else is sent to the
  driver if and only if the job has become theirs (`StrayOfferIff`).
- A consumer that handles an order's outcome while the rebuild has cleared but not replayed the order
  leaves it PLACED for ever (`DisturbedRebuildIff`: if and only if it is the outcome).
- README.md:199 and docs/ARCHITECTURE.md:109 say that amounts *above* the threshold are declined; the
  code declines at or above it, and so does the model.

## Model

| member | source | states |
|---|---|---|
| `OrderAggregate.OrderGrammarIsExact` | packages/shared/src/order-aggregate.ts:29-64 | the histories that place, accept and cancel can produce are exactly the prefixes of Placed;(Accepted or Cancelled) |
| `OrderAggregate.OrderGrammarStep` | packages/shared/src/order-aggregate.ts:45-64 | an event extends a legal order history legally exactly when some command decides it on the replayed state |
| `OrderAggregate.OrderShapeStates` | packages/shared/src/order-aggregate.ts:29-43 | the replayed state of every legal order history, field by field |
| `OrderAggregate.OrderCommandOn` | packages/shared/src/order-aggregate.ts:45-64 | what place, accept and cancel do to each legal history: the event with all its fields, already exists, or invalid transition |
| `DispatchAggregate.DispatchGrammarIsExact` | packages/shared/src/dispatch-aggregate.ts:21-67 | the histories the five commands can produce are exactly: offers; an accept by the driver offered last; pickup; delivery; at most one failure ending any undelivered prefix |
| `DispatchAggregate.DispatchGrammarStep` | packages/shared/src/dispatch-aggregate.ts:38-67 | an event extends a legal dispatch history legally exactly when some command decides it on the replayed state |
| `DispatchAggregate.DispatchCommandOn` | packages/shared/src/dispatch-aggregate.ts:38-67 | what each of the five commands does to each legal history: the event with all its fields, or invalid transition |
| `DispatchAggregate.ShapeStates` | packages/shared/src/dispatch-aggregate.ts:21-36 | the replayed state of every legal dispatch history, read off its shape: status, driver, last offer, reason |
| `AggregateStore.EventStore.LoadAggregate` | packages/shared/src/aggregate-store.ts:19-38 | the replay loop computes the fold of the rows in version order, and the last version |
| `AggregateStore.EventStore.AppendWithExpectedVersion` | packages/shared/src/aggregate-store.ts:56-90 | event row and outbox row are written together at expectedVersion + 1, or a conflict is reported and nothing changes |
| `AggregateStore.AppendWritesBoth` | packages/shared/src/aggregate-store.ts:56-90 | an append is refused exactly when the version or the id is taken; else it adds one event row and one pending outbox row, every field spelled out, correlation id included |
| `AggregateStore.QueryIsStream` | packages/shared/src/aggregate-store.ts:26-35 | in a well-formed store, reading ascending by version returns the stream as written, and its last version is its length |
| `AggregateStore.ConflictMeansStale` | packages/shared/src/aggregate-store.ts:51-55 | with a fresh id, the next version after the first n is taken exactly when the stream has more than n events |
| `AggregateStore.AppendDecides` | packages/shared/src/aggregate-store.ts:56-90 | an append decided on the first n events succeeds if and only if nothing was appended since; then versions, grammar, ids and outbox pairing all hold and no other stream changes |
| `Writers.StepKeepsInv` | packages/shared/src/aggregate-store.ts:19-90 | every step of any writer, however stale, keeps every history legal and only extends histories |
| `Writers.SubmitIs` | packages/shared/src/aggregate-store.ts:56-90 | a writer's append, however stale, adds the event it decided exactly when what it loaded is still the whole history, and otherwise adds nothing |
| `Writers.UndisturbedOrderWrite` | apps/write-api/src/orders/orders.service.ts:14-44 | a load and its append with nothing in between add what the command decides on the history, and touch no other stream |
| `Writers.UndisturbedDispatchWrite` | apps/saga-worker/src/dispatch-activities.ts:18-38 | the same for a dispatch command |
| `Writers.EveryHistoryIsLegal` | packages/shared/src/aggregate-store.ts:19-90 | in every run of any number of writers, each stream has versions 1..n, each order and dispatch history is in its grammar; the one exclusion is an order named with the prefix dispatch: |
| `Writers.AliasedStreams` | packages/contracts/src/index.ts:212 | an order named dispatch:o1 writes into the dispatch stream of o1, which is then no dispatch history |
| `Writers.OthersWrite` | packages/shared/src/aggregate-store.ts:56-90 | what other writers may do to the store between a load and an append |
| `Poller.PollOnce` | apps/outbox-poller/src/poller.ts:15-35 | returns the number of rows not sent yet, a hundred at most, and takes the oldest of them, publishes exactly their messages and marks exactly them; dying after any number of effects leaves outbox and topic after exactly that many of publish, mark, publish, mark |
| `Poller.CompletePoll` | apps/outbox-poller/src/poller.ts:15-35 | with distinct ids: which rows a poll that does not crash takes (as many as there are, a hundred at most, none left behind that is older), and what it does to outbox and topic, row by row |
| `Poller.PollsDrain` | apps/outbox-poller/src/poller.ts:15-35 | each complete poll takes a hundred rows off what is left and loses nothing |
| `Poller.PollsSendAll` | apps/outbox-poller/src/poller.ts:15-35 | so as many polls as there are hundreds left send everything |
| `Progress.CanCatchUp` | apps/outbox-poller/src/poller.ts:15-35 | from every moment of every run, whatever crashed, there is a way on without any more writes to a moment at which outbox and lane are drained and the document is the fold of the whole stream |
| `Poller.WorkProgress` | apps/outbox-poller/src/poller.ts:22-32 | at any moment a prefix of the batch is published in order, and the marked rows are that prefix or one row less |
| `Poller.MarkedIs` | apps/outbox-poller/src/poller.ts:31 | marking sets the SENT flag of exactly the rows with those ids |
| `Projection.MongoReadModel.ApplyEvent` | apps/projection-worker/src/projection.ts:19-80 | skips what the inbox knows, else upserts and records; after a crash between the two only the upsert has happened |
| `Projection.MongoReadModel.ApplyDispatchEvent` | apps/projection-worker/src/dispatch-projection.ts:15-83 | the same for the dispatch document |
| `Projection.UpsertAdvances` | apps/projection-worker/src/projection.ts:30-64 | an event at most one ahead brings a document that is the replay of m events to the replay of the larger version; an old one changes nothing |
| `Projection.UpsertIsLocal` | apps/projection-worker/src/dispatch-projection.ts:21-68 | no other aggregate's document is touched |
| `Projection.OrderUpsertAdvancesIff` | apps/projection-worker/src/projection.ts:51-64 | for orders the upsert yields the replay if and only if the event is at most one ahead |
| `Projection.OvertakenOutcomeIsLost` | apps/projection-worker/src/projection.ts:23-80 | an outcome handled before its order was placed is remembered as processed and never shown |
| `Pipeline.StepKeepsInv` | apps/projection-worker/src/projection.ts:19-80 | one inductive invariant over writers, outbox, poller, topics, consumers and documents survives every step, crash, redelivery and rewind |
| `Pipeline.DocumentIsReplay` | apps/projection-worker/src/dispatch-projection.ts:15-83 | at every moment of every run each document of version v is the fold of the first v events of its stream, and there is none when v is 0 |
| `Pipeline.DrainedDocumentIsWholeStream` | apps/outbox-poller/src/poller.ts:15-35 | once outbox and topic are drained the document is the fold of the whole stream |
| `Pipeline.DocumentsMoveForward` | apps/projection-worker/src/projection.ts:32-63 | no step of writers, poller or consumers, redelivery and rewind included, takes a document back to a lower version |
| `Pipeline.SelectedFollows` | apps/outbox-poller/src/poller.ts:16-20 | oldest first with a limit never selects a row whose predecessor is neither published nor earlier in the batch |
| `Rebuild.RebuildProjection` | apps/projection-worker/src/rebuild.ts:14-46 | clearing and looping over the sorted rows computes the replay of the store |
| `Rebuild.SortKeepsStreams` | apps/projection-worker/src/rebuild.ts:22-24 | whatever the collation of tenants and aggregates, the sort leaves every stream in its own order |
| `Rebuild.RebuildIsReplay` | apps/projection-worker/src/rebuild.ts:19-40 | after a rebuild every document is the fold of its whole stream |
| `Rebuild.RebuildTimes` | apps/projection-worker/src/rebuild.ts:26-36 | a rebuilt document carries the stored time of the last event of its stream |
| `Rebuild.ReplayedOffer` | apps/projection-worker/src/dispatch-projection.ts:15 | a replayed offer runs out thirty seconds after its stored time |
| `Rebuild.RebuildEqualsLive` | apps/projection-worker/src/rebuild.ts:14-46 | in any run that is drained, earlier rebuilds or not, the rebuilt documents equal the live ones up to updatedAt and offerExpiresAt |
| `Rebuild.RebuildKeepsInv` | apps/projection-worker/src/rebuild.ts:14-46 | a rebuild at any moment, drained or not, keeps the whole invariant of the pipeline, cursors and inbox included, and takes no document back |
| `Rebuild.DocumentIsReplay` | apps/projection-worker/src/rebuild.ts:14-46 | at every moment of every run of the pipeline with rebuilds anywhere in it, each document of version v is the fold of the first v events of its stream |
| `Rebuild.DisturbedRebuildIff` | apps/projection-worker/src/rebuild.ts:19-40 | if a consumer handles one of an order's messages between the clearing and the replay, the order is right afterwards if and only if that message was not the outcome; otherwise it stays PLACED, whatever is redelivered |
| `Rebuild.RedeliveryAfterRebuild` | apps/projection-worker/src/projection.ts:23-25 | after a rebuild, redelivery of any stored event changes nothing |
| `Tenancy.TenantsDoNotInterfere` | apps/projection-worker/src/projection.ts:20-28 | for any deliveries the documents and inbox entries of a tenant are what they would be from that tenant's events alone |
| `Tenancy.ColonsInterfere` | apps/projection-worker/src/projection.ts:28 | with colons two tenants write one document |
| `Contracts.InboxIdInjective` | apps/projection-worker/src/projection.ts:21 | inbox ids of colon-free tenants never clash between tenants, consumers or events |
| `Contracts.WorkflowIdInjective` | apps/saga-worker/src/workflows.ts:91 | for colon-free tenants, and whatever the order ids, workflow ids of one kind never clash between orders or tenants |
| `Contracts.WorkflowIdsMeetIff` | apps/saga-worker/src/workflows.ts:91 | an order's workflow id is a dispatch's exactly when the order's tenant is named dispatch and the order is named by the other's tenant and order |
| `Contracts.AggregateIdsMeetIff` | packages/contracts/src/index.ts:212 | with no condition at all: two aggregates share a stored id exactly when they are the same kind and order, or one is an order named dispatch: followed by the other's order id |
| `Contracts.AggregateIdInjective` | packages/contracts/src/index.ts:212 | unless an order is named with the prefix dispatch:, order and dispatch aggregates never share a stored id |
| `Contracts.JoinInjective` | apps/read-api/src/tenant-scope.ts:18-19 | joining with a colon loses nothing when the left part has none |
| `Contracts.ColonsCollide` | apps/read-api/src/tenant-scope.ts:18-19 | two different tenants with colons share a key |
| `Payments.PaymentsService.AuthorizePayment` | apps/payments/src/payments.service.ts:20-43 | one row per order, decided once; other rows untouched |
| `Payments.AuthorizeEffect` | apps/payments/src/payments.service.ts:20-43 | first time: a hold below the threshold, a refusal from it on; later: the row unchanged and the decision again |
| `Payments.PaymentsService.CapturePayment` | apps/payments/src/payments.service.ts:45-48 | capture as the rules say, including not found and conflict |
| `Payments.CaptureEffect` | apps/payments/src/payment-rules.ts:18-22 | capture, status by status: an open hold becomes captured at that instant with all else kept, a captured row is acknowledged unchanged, voided and declined conflict, no row is not found |
| `Payments.PaymentsService.VoidPayment` | apps/payments/src/payments.service.ts:57-60 | void as the rules say, including not found and conflict |
| `Payments.VoidEffect` | apps/payments/src/payment-rules.ts:24-28 | void, status by status: an open hold becomes voided at that instant with all else kept, a voided row is acknowledged unchanged, captured and declined conflict, no row is not found |
| `Payments.SettledOnce` | apps/payments/src/payments.service.ts:45-85 | capture and void of a hold succeed; after either, whatever is requested in between, a retry gets the same reply and the other one conflicts |
| `Payments.PaymentsService.Transition` | apps/payments/src/payments.service.ts:62-85 | an illegal transition or missing row changes nothing; a repeated one changes nothing; otherwise status and stamp change together |
| `Payments.HistoryKeeps` | apps/payments/src/payment-rules.ts:12-28 | in every history of requests capturedAt and voidedAt are never both set, id and amount stay, and CAPTURED, VOIDED and DECLINED are for ever |
| `Payments.AuthorizeIsIdempotent` | apps/payments/src/payments.service.ts:28-42 | whatever happens in between and whatever later amounts, every authorize reply is the one the first amount decided, about the first row |
| `OrderSaga.SagaRuntime.OrderLifecycle` | apps/saga-worker/src/workflows.ts:45-111 | the code takes exactly the steps of the machine: at every moment passed through order and payment agree; the result is the one called for by what was observed and names the order's final status and reason; exactly the right payments calls are made, in order; no capture is outstanding that was not called, and a void reply means the void took effect; no signal is forgotten: what was observed is the confirmation and the last answer that had arrived, however early |
| `OrderSaga.EveryOutcome` | apps/saga-worker/src/workflows.ts:45-111 | for every combination of confirmation, amount, merchant's answer and end of the dispatch there is a run with the result, calls, payment and order status that belong to it |
| `OrderSaga.NeverStuck` | apps/saga-worker/src/workflows.ts:45-111 | from every moment at which no activity has given up, the workflow can still return |
| `OrderSaga.StepKeepsInv` | apps/saga-worker/src/workflows.ts:45-111 | every step of the saga and of its requests' late effects keeps the invariant tying stage, order, payment, requests and replies together |
| `OrderSaga.RunAgrees` | apps/saga-worker/src/workflows.ts:45-111 | at every moment of every run order and payment agree |
| `OrderSaga.ResultIsTrue` | apps/saga-worker/src/workflows.ts:45-111 | in every run that has returned, the result is the one called for by the waits and replies observed, and names exactly the order's final status and reason |
| `OrderSaga.SagaRuntime.AuthorizeAndAwait` | apps/saga-worker/src/workflows.ts:57-71 | a declined or failed authorize tells the order PAYMENT_FAILED and calls payments no further; else the second call is a capture exactly when the merchant approved in time, and a void otherwise |
| `OrderSaga.SagaRuntime.CaptureAndFulfil` | apps/saga-worker/src/workflows.ts:73-105 | after approval: the order is told accepted exactly when the capture was acknowledged, else a void is called and the order is told PAYMENT_FAILED whatever came of it |
| `OrderSaga.SagaRuntime.ReleaseAndCancel` | apps/saga-worker/src/workflows.ts:107-110 | a declined or unanswered order is told its own reason exactly when the void was acknowledged, and is told nothing otherwise; a result means the payment is voided |
| `OrderSaga.SagaRuntime.CallPayments` | apps/saga-worker/src/activities.ts:17-25 | a reply answers the call and was earned by some attempt; a failure may hide an effect, unless the network is honest, when the call is over |
| `OrderSaga.AgreementIsForever` | apps/saga-worker/src/workflows.ts:45-111 | whatever already sent still takes effect, any number of times, accepted means captured, SLA_BREACH and DECLINED mean voided, PAYMENT_TIMEOUT means no payment, for ever after; and PAYMENT_FAILED means not captured in a network where a call reported as failed never takes effect |
| `OrderSaga.ChargeableIff` | apps/saga-worker/src/workflows.ts:76-82 | in every safe state, payment row or not: what was sent can still charge, or has charged, if and only if a capture was sent and no void has taken effect |
| `OrderSaga.ReleasableIff` | apps/saga-worker/src/workflows.ts:107 | what was sent can still release the hold, or has, if and only if a void was sent and no capture has taken effect |
| `OrderSaga.ReachedChargeableIff` | apps/saga-worker/src/workflows.ts:73-82 | the same at every moment of every run, with the requests outstanding tied to the calls made |
| `OrderSaga.PaymentFailedIsSafeIff` | apps/saga-worker/src/workflows.ts:76-82 | an order cancelled with PAYMENT_FAILED is sure never to be charged if and only if capture was never called or the void was acknowledged |
| `OrderSaga.HonestFailureIsSafe` | apps/saga-worker/src/workflows.ts:76-82 | where a call reported as failed never takes effect, PAYMENT_FAILED always means never charged |
| `OrderSaga.LostCaptureRun` | apps/saga-worker/src/workflows.ts:78-81 | the failing run, step by step: hold, approval, capture without reply, void refused, cancelled with PAYMENT_FAILED and charged |
| `SagaActivities.Activities.RecordOrder` | apps/saga-worker/src/activities.ts:26-53 | no-op, recorded or lost race, exactly by the decision on the loaded history and whether anything was appended since; undisturbed it does what the saga's model says |
| `SagaActivities.Activities.RecordDispatch` | apps/saga-worker/src/dispatch-activities.ts:18-38 | the same for the five dispatch record activities |
| `SagaActivities.AppendOutcome` | apps/saga-worker/src/activities.ts:35-38 | the append lands exactly when the history is still the one loaded |
| `DriverDispatch.DispatchRuntime.DriverDispatchWorkflow` | apps/saga-worker/src/dispatch-workflow.ts:32-93 | on any fleet and signals: nobody is tried twice, at most maxOffers are, only the last one tried can hold the job and only by accepting in the window; result, stream and reason agree; effects come in the right order; it fails only when an activity did not report back; no signal is forgotten: a driver asked who had accepted, however early, has the job, and it is delivered exactly when pickup and delivery had been signalled by the time the waits ended; on a fixed fleet, whatever fixed set of answers the run met, the first acceptor of the nearest-first list wins, and the busy set is restored; all along, this workflow and the others have taken exactly the steps of the machine of `BusySet`, in which it ends finished, or failed holding at most the driver tried last |
| `DriverDispatch.DispatchRuntime.FleetChanges` | apps/saga-worker/src/dispatch-workflow.ts:56-74 | between any two steps the geography changes at will, and other workflows take any steps of the machine they share |
| `DriverDispatch.DispatchRuntime.Took` | apps/saga-worker/src/dispatch-activities.ts:57-62 | whatever is done to the busy set is a step of the machine, so every theorem about its runs holds of the workflow |
| `DriverDispatch.DispatchRuntime.OfferLoop` | apps/saga-worker/src/dispatch-workflow.ts:44-86 | each turn adds a new driver; the loop ends with the first acceptor, an exhausted list or maxOffers turns, and each end matches the reference for every fixed set of answers that agrees with the run |
| `DriverDispatch.DispatchRuntime.OfferNext` | apps/saga-worker/src/dispatch-workflow.ts:47-66 | one turn: the next candidate is offered, and is taken exactly when it accepted before the window closed |
| `DriverDispatch.DispatchRuntime.AfterAccept` | apps/saga-worker/src/dispatch-workflow.ts:66-79 | busy before recorded; delivered exactly when pickup and delivery had been signalled by the time the waits ended, else failed with DELIVERY_TIMEOUT; when it ends with a result the driver is not busy, whatever other workflows do during the waits, and on a fixed fleet nobody else's entry has changed |
| `DriverDispatch.DispatchRuntime.Fulfil` | apps/saga-worker/src/dispatch-workflow.ts:69-78 | from an accepted job: picked up and delivered if that had been signalled when the waits ended, however early, else failed; with the driver released, while the fleet changes during both waits |
| `DriverDispatch.DispatchRuntime.NobodyAccepted` | apps/saga-worker/src/dispatch-workflow.ts:84-85 | fails with NO_DRIVERS_AVAILABLE; when the whole list, or maxOffers of it, was tried this is what the reference calls for |
| `DriverDispatch.DispatchRuntime.MarkBusy` | apps/saga-worker/src/dispatch-activities.ts:57-59 | adds the driver, or reports failure |
| `DriverDispatch.DispatchRuntime.ClearBusy` | apps/saga-worker/src/dispatch-activities.ts:60-62 | removes the driver, or reports failure |
| `DriverDispatch.DispatchRuntime.FailAfterAccept` | apps/saga-worker/src/dispatch-workflow.ts:89-93 | releases the driver, then fails the dispatch for the timeout |
| `DriverDispatch.DispatchRuntime.SelectNearestAvailableDriver` | apps/saga-worker/src/dispatch-activities.ts:41-56 | never an excluded driver; on a fixed fleet the first row that is online, not busy and not excluded, or nobody when there is none; nobody for an unknown tenant |
| `DriverDispatch.DispatchRuntime.Record` | apps/saga-worker/src/dispatch-activities.ts:63-77 | any number of attempts have the effect of one, and the history stays legal |
| `DriverDispatch.RetryIsIdempotent` | apps/saga-worker/src/dispatch-activities.ts:28-33 | a retry after a lost reply moves the dispatch no further |
| `DriverDispatch.SearchFindsNext` | apps/saga-worker/src/dispatch-activities.ts:49-54 | searching past the first k eligible drivers finds number k |
| `DriverDispatch.FirstAcceptorIs` | apps/saga-worker/src/dispatch-workflow.ts:46-82 | the reference: the first driver of a list who accepts |
| `DriverDispatch.DecidedIsLegal` | packages/shared/src/dispatch-aggregate.ts:38-67 | a history is in the grammar exactly when every event was decided on the events before it |
| `BusySet.RunKeepsNoLeak` | apps/saga-worker/src/dispatch-workflow.ts:66-92 | in every interleaving of any number of dispatches, with retried activities, every busy driver is held by some workflow past its mark and before its clear |
| `BusySet.BusyIsLastMark` | apps/saga-worker/src/dispatch-activities.ts:57-62 | in every run a driver is busy exactly when the last attempt that landed on them was a mark |
| `BusySet.LeakIff` | apps/saga-worker/src/dispatch-workflow.ts:66-92 | in every run in which all have ended: exactly the drivers a failed workflow held, and no clear touched since their last mark, are still busy; nobody is if and only if there is none |
| `BusySet.FailureLeaks` | apps/saga-worker/src/dispatch-workflow.ts:67-77 | a workflow that fails holding a driver leaves the driver busy |
| `BusySet.ExactStepIff` | apps/saga-worker/src/dispatch-activities.ts:57-62 | from a state where busy means exactly held, a step keeps it so if and only if it is no clear on a driver whom another workflow holds |
| `BusySet.RunIsExactIff` | apps/saga-worker/src/dispatch-activities.ts:57-62 | busy means exactly held at every moment of a run if and only if no such clear ever lands |
| `BusySet.ExactLeakIff` | apps/saga-worker/src/dispatch-workflow.ts:66-92 | when such a run has ended nobody is busy if and only if no workflow failed holding a driver |
| `BusySet.ExclusiveNeverClearsUnderHolder` | apps/saga-worker/src/dispatch-activities.ts:41-62 | no such clear can land while no driver is taken for two jobs at once |
| `BusySet.ExclusiveLeakIff` | apps/saga-worker/src/dispatch-workflow.ts:66-92 | with no driver on two jobs: exact at every moment, and leaks are exactly the failed holders |
| `BusySet.SecondJobIsUnprotected` | apps/saga-worker/src/dispatch-workflow.ts:47-67 | two workflows can take one driver, who is then selectable again when the first job ends |
| `Views.ConsumedIsReplay` | apps/projection-worker/src/dispatch-projection.ts:31-68 | in-order consumption leaves one document, the replay of the stream, stamped with the last event's time and the last offer's deadline |
| `Views.LiveEqualsReplayIff` | apps/read-api/src/sse/sse-feeder.service.ts:31-53 | for any list of dispatch events the stripped live view of the last one is the replayed view if and only if it is a failure or no failure came before |
| `Views.LiveEqualsStored` | apps/read-api/src/dispatch/delivery-view.ts:6-8 | for every dispatch stream and every n the stripped live view, the stripped document and the replay are one |
| `Views.FullViewsAgreeIff` | apps/read-api/src/sse/sse-feeder.service.ts:31-53 | unstripped, with driver and offer deadline, live view and document agree if and only if the event is an offer or the first one |
| `Views.AcceptedViewsDiffer` | apps/read-api/src/sse/sse-feeder.service.ts:36-41 | after an offer and its acceptance the unstripped views differ and the stripped ones agree |
| `Snapshots.RunStamps` | apps/projection-worker/src/dispatch-projection.ts:21-68 | at every moment of every run each document carries the time of the event it stands at |
| `Snapshots.SnapshotOfAnyRun` | apps/projection-worker/src/dispatch-projection.ts:15-83 | a snapshot taken at any moment of any run is exactly, time included, the snapshot after some first n events of the stream, then or at any later moment |
| `Snapshots.MerchantConverges` | packages/web-shared/src/dispatch/use-tenant-dispatch-stream.ts:12-14 | end to end: from snapshots taken at any moments of any run and live views, in any order and any number of times, the client shows, for exactly the orders heard of, the replay of the longest prefix heard of |
| `Views.FailedIsLast` | packages/shared/src/dispatch-aggregate.ts:62-67 | nothing follows a failure in a legal history |
| `Views.MergedHoldsNewest` | packages/web-shared/src/dispatch/use-dispatch-stream.ts:21-24 | for any views in any order the map holds, for exactly the orders seen, the newest view, and of equally new ones the last |
| `Views.MergeConverges` | packages/web-shared/src/dispatch/use-tenant-dispatch-stream.ts:12-14 | reordering and duplicating the same views ends in the same map |
| `Views.ClientConverges` | packages/web-shared/src/dispatch/use-tenant-dispatch-stream.ts:12-14 | from any mixture of snapshots and live views the client shows, for exactly the orders heard of, the replay of the longest prefix heard of |
| `DriverStream.DriverConnection.OnMessage` | apps/read-api/src/sse/driver-sse.controller.ts:41-52 | whenever the connection opened and whatever it hears, in whatever order and however often: owned is exactly the jobs it was shown as theirs or heard them accept, and what is sent is exactly what is due |
| `DriverStream.DriverConnection.constructor` | apps/read-api/src/sse/driver-sse.controller.ts:45-52 | what the query finds is sent first, in the driver's name, and nothing else |
| `DriverStream.DueIsComplete` | apps/read-api/src/sse/driver-sse.controller.ts:41-52 | completeness, on positions: what is sent is the opening view, then in the order heard, one each, the live views of exactly the messages that offer the driver a job or belong to a job known to be theirs by then |
| `DriverStream.DriverConnection.AcceptForDriver` | apps/read-api/src/sse/driver-sse.controller.ts:23-26 | how one view changes owned and what it decides |
| `DriverStream.FilterIsExact` | apps/read-api/src/sse/driver-sse.controller.ts:16-26 | on a feed heard from its beginning, with any redelivery: the filter, which sees only the view and the set, decides exactly by the replayed owner, owned stays exact, and every emitted view ends up in this driver's name |
| `DriverStream.OwnerIff` | packages/shared/src/dispatch-aggregate.ts:45-50 | a job is a driver's by replay exactly when the feed, redeliveries included, holds their acceptance |
| `DriverStream.KnownIsTrue` | apps/read-api/src/sse/driver-sse.controller.ts:23-26 | whatever part of the topic is heard, in whatever order, a connection believes a job to be the driver's only if it is |
| `DriverStream.KnownIsExactIff` | apps/read-api/src/sse/driver-sse.controller.ts:37-49 | a connection opened at any point knows exactly the driver's jobs if and only if of each job that was theirs already it was shown, or hears again, the acceptance |
| `DriverStream.AcceptedUnheard` | apps/read-api/src/sse/driver-sse.controller.ts:45-49 | the failing input: shown the offer, acceptance before the live messages begin, the pickup is not sent |
| `DriverStream.StrayOfferIff` | apps/read-api/src/sse/driver-sse.controller.ts:23-26 | the offer of a job to somebody else is due exactly when it is redelivered after the job has become the driver's |
| `DriverStream.OffersAreTheirs` | apps/read-api/src/sse/driver-sse.controller.ts:23-26 | without redelivery every offer sent is an offer to the driver |
| `DriverStream.DueIsOwn` | apps/read-api/src/sse/driver-sse.controller.ts:41-52 | whenever opened and whatever heard, all that is due is in the driver's name, and is an offer to them or about a job of theirs, never about another driver's job |
| `DriverStream.OwnerIsFinal` | packages/shared/src/dispatch-aggregate.ts:45-50 | a job's driver changes once, from nobody to the driver who accepts |
| `OrdersQuery.OrdersQueryService.GetOrder` | apps/read-api/src/orders/orders-query.service.ts:15-39 | with other calls taking any steps between its awaits: the view was the document at the instant its entry was read, less than ten seconds and that entry's own delay ago, and at most ten seconds ago if the delay is at most a millisecond; a hit changes nothing; none means there was no document; left alone, a call never answers older than the last answer and touches no other entry |
| `OrdersQuery.OrdersQueryService.ReadThrough` | apps/read-api/src/orders/orders-query.service.ts:21-38 | with other calls in between: a miss reads the document after the call began, caches that one and returns it |
| `OrdersQuery.HitAge` | apps/read-api/src/orders/orders-query.service.ts:18-19 | with calls overlapping at will, a hit shows the document as read less than the lifetime plus that entry's own delay ago |
| `OrdersQuery.TenSecondsIff` | apps/read-api/src/orders/orders-query.service.ts:37 | hits on an entry are never more than ten seconds old, in any run, if and only if it took at most a millisecond from its read to its write |
| `OrdersQuery.LateHit` | apps/read-api/src/orders/orders-query.service.ts:21-37 | for every longer delay, a run that serves a view whose order last stood like that more than ten seconds ago |
| `OrdersQuery.ProjectionMovesForward` | apps/projection-worker/src/projection.ts:30-64 | the documents behind the query never go back, in any step of the pipeline |
| `OrdersQuery.AnswersNeverGoBackIff` | apps/read-api/src/orders/orders-query.service.ts:15-39 | in any run of overlapping calls the answers for an order never go back if and only if no call overwrites its cached entry with an older document, and if and only if no call has a newer document of the order written by another between its read and its write |
| `OrdersQuery.CacheKeyInjective` | packages/contracts/src/index.ts:47-49 | cache keys never clash between orders or colon-free tenants |
| `OrdersQuery.OverlappingCallsGoBack` | apps/read-api/src/orders/orders-query.service.ts:18-37 | two interleaved calls, step by step: the older view is answered after the newer one and stays in the cache |
| `RefreshTokens.RefreshTokenService.Issue` | apps/identity/src/auth/refresh-token.service.ts:27-34 | a new family with one active row |
| `RefreshTokens.RefreshTokenService.Rotate` | apps/identity/src/auth/refresh-token.service.ts:40-64 | prune, look up, grace, reuse or rotate, for every forward sequence of clock readings |
| `RefreshTokens.RefreshTokenService.RotateActive` | apps/identity/src/auth/refresh-token.service.ts:67-77 | the row is marked and its successor made in one step |
| `RefreshTokens.RefreshTokenService.Revoke` | apps/identity/src/auth/refresh-token.service.ts:79-84 | only the presented token's row is revoked |
| `RefreshTokens.RevokeEffect` | apps/identity/src/auth/refresh-token.service.ts:79-84 | the presented row is revoked at that instant and no other row changes |
| `RefreshTokens.RefreshTokenService.Prune` | apps/identity/src/auth/refresh-token.service.ts:87-89 | exactly the expired rows go |
| `RefreshTokens.FamilySafety` | apps/identity/src/auth/refresh-token.service.ts:27-90 | in every history: one active row per family, one owner per family, no row reactivated, no pruned row back |
| `RefreshTokens.ReuseEndsFamilyForever` | apps/identity/src/auth/refresh-token.service.ts:56-60 | after one reuse answer no token of the family ever succeeds again, whatever happens |
| `RefreshTokens.PresentSucceedsIff` | apps/identity/src/auth/refresh-token.service.ts:40-64 | exactly when a presented token succeeds: unexpired and active, or rotated within the grace window with an unexpired active row left in the family |
| `RefreshTokens.AnswerIff` | apps/identity/src/auth/refresh-token.service.ts:40-64 | the answer is reuse exactly for a token still in the table, not active and not saved by the grace window; invalid exactly for one unknown, expired, or active and expired at the check |
| `RefreshTokens.RefusalEffect` | apps/identity/src/auth/refresh-token.service.ts:56-61 | after reuse every unexpired row of the family is revoked at an instant of the call; after invalid none is; other rows stay as they were |
| `RefreshTokens.SuccessEffect` | apps/identity/src/auth/refresh-token.service.ts:67-77 | after success the new row, the rotated row and all others, field by field |
| `RefreshTokens.ReplayAfterGrace` | apps/identity/src/auth/refresh-token.service.ts:44-61 | the theft response as a run: the exchanged token presented after the grace window is answered with reuse, both rows are revoked, and no token of the family is ever exchanged again |
| `RefreshTokens.SuccessHandsOver` | apps/identity/src/auth/refresh-token.service.ts:67-77 | after a success the only active row of the family is the new token's, with the same owner and a full lifetime |
| `RefreshTokens.GraceIsBounded` | apps/identity/src/auth/refresh-token.service.ts:45-48 | once rotated at t a token never succeeds at t plus the window or later, whatever happens in between |
| `RefreshTokens.RevokeEndsFamilyIff` | apps/identity/src/auth/refresh-token.service.ts:79-84 | after revoking a token some token of its family can be exchanged, at once or after any further calls, if and only if another one is active and unexpired at that moment |
| `RefreshTokens.LogoutMissesSession` | apps/identity/src/auth/refresh-token.service.ts:79-84 | the failing run: log in, exchange a for b, log out with a, and b is still exchanged |
| `RefreshTokens.SpentForever` | apps/identity/src/auth/refresh-token.service.ts:40-77 | a family whose active rows have all expired never succeeds again, whatever happens |
| `OrderIntake.OrdersService.PlaceOrder` | apps/write-api/src/orders/orders.service.ts:14-44 | with any other writes between load and append, afterwards the order is placed once: by this call if nobody had placed it, else by whoever did |
| `OrderIntake.PlacedOnce` | apps/write-api/src/orders/orders.service.ts:22-40 | in every run only the first event of an order places it |
| `OrderIntake.FirstWriteWins` | apps/write-api/src/orders/orders.service.ts:30-42 | an append at version 1 succeeds exactly when the order has no history |
| `OrderIntake.OrderConsumer.EachMessage` | apps/saga-worker/src/main.ts:67-85 | a message starts a workflow exactly when it changes the registry, which is a function of what was handled |
| `OrderIntake.OrderConsumer.ExecuteChild` | apps/saga-worker/src/workflows.ts:90-100 | a child starts exactly when no workflow with its id is running |
| `OrderIntake.ChildRunsAgain` | apps/saga-worker/src/workflows.ts:90-100 | a child, which names no reuse policy, is refused only while it runs, and runs again once it has ended |
| `OrderIntake.OneWorkflowPerOrder` | apps/saga-worker/src/main.ts:74-83 | exactly one workflow per placed order, ever, started by the first message that placed it, however often messages are redelivered and after it has ended too; no other start ever takes its id |
| `Headers.RoundTripIff` | packages/messaging/src/headers.ts:9-45 | what is built is parsed back exactly when event type, tenant, event id and correlation id are non-empty, for every version below 2^53 |
| `Headers.ParsesIff` | packages/messaging/src/headers.ts:30-36 | a message parses exactly when the three required headers are present and non-empty; the error names exactly the missing ones |
| `Headers.ParsedFields` | packages/messaging/src/headers.ts:37-44 | every header is kept; an absent correlation id is replaced by the minted one, an absent version counts as zero |
| `Headers.PrintParse` | packages/messaging/src/headers.ts:14-41 | decimal printing and parsing are inverse |

## Left out

- Kafka, Avro, the schema registry, Prisma, Mongo, Redis, Temporal, NestJS and React: atomic maps, sets, logs and nondeterministic scheduling stand for them.
- Row-level security and `set_config`: only the tenant column and the atomic transaction are represented.
- JWT, encryption, password hashing, randomness: fresh values; a token row is keyed by the raw token instead of its hash.
- Geo search: its result is a given duplicate-free list in order of distance.
- An activity attempt that outlives its own timeout and takes effect after the workflow has moved on.
- Equal updatedAt and offerExpiresAt after a rebuild: the rebuild uses the stored row time and the default offer window, so they are not equal.
- The merchant order stream (`toStreamEvent`), which carries no state of its own.
- Analytics, cart, labels, configuration, cookies, tenant catalog and signing-key rotation: simpler claims of another kind.
- OrdersQuery.OrdersQueryService.GetOrder: the cache is keyed by tenant and order rather than by the string, which `CacheKeyInjective` justifies for colon-free tenants; rebuilds do not run while queries are served.
- Headers.RoundTripIff: header values are text, and a version header that is not plain digits below 2^53 gives a number that is not modelled.
- OrderSaga.SagaRuntime.OrderLifecycle: starts from a stream holding the OrderPlaced event and no payment row; the child workflow is any dispatch status or a crash.
- DriverDispatch.DispatchRuntime.DriverDispatchWorkflow: one workflow writes the dispatch stream, so its activities do not lose races; `RecordDispatch` has the general case.
