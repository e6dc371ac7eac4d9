# Verified model of the pizza shop's cross-service protocols

The shop is a set of services with a database each and no transaction across them. This project
models the three places where they have to agree anyway, and proves that they do, or exactly when
they do not.

1. **The payment-order saga.** payment-service commits the outcome of a charge and then tells
   order-service, with retries, over a network that loses requests and replies. Webhooks arrive at
   least once, in any order, as concurrent background tasks. `scripts/reconcile_payments.py` repairs
   what is left. `Saga.dfy` is a labelled transition system: webhook tasks with program counters and
   attempt counts, requests their sender gave up on that are served late, reconciler jobs between
   snapshot and fix, shipping, crashes, and the history of committed outcomes. `SagaInvariant.dfy`
   holds what every step keeps, `SagaTheorems.dfy`, `SagaReach.dfy` and `SagaShipping.dfy` the
   results about all runs. `PaymentService.dfy`, `OrderRoutes.dfy` and `Reconcile.dfy` are the
   imperative code: the handler, its retry loop, the PATCH route, the mismatch scan and the fix loop,
   each shown to take exactly the steps of the transition system (or the steps of the script), with
   other tasks let in at every `await`.
2. **Cart and checkout.** `Shop.dfy` defines the operations on order-service's tables, `ShopLaws.dfy`
   the laws of all serial runs, `OrderService.dfy` the classes and loops, the `order.placed` event and
   the start of the saga. `Money.dfy` is the decimal arithmetic, the text in which amounts cross
   services, and the conversion to kobo. `JointRuns.dfy` runs the shop and the saga together on
   their one table of orders.
3. **Registration to profile.** `Registration.dfy` models sign-up, the queue with redelivery,
   requeue and consumer crashes, the idempotent insert, and profile updates, with deliveries in any
   order; `RegistrationInOrder.dfy` adds the order in which the one deployed consumer takes them.
   `RegistrationServices.dfy` is the code of the three classes involved.

`dafny verify dfyconfig.toml` checks everything.

## Assumptions

- *Verdicts agree* on an order (`SagaTheorems.Agreed`, `AgreeOn`; for one snapshot
  `Reconcile.NoSplit`): the payments of that order, and repeated events for one reference, report one
  outcome. The code does not enforce it. Each theorem that needs it says so, for the order it speaks
  of; `OrderReachExact`, `PaymentReachExact`, `RepairExact` and `ExitZeroTrustedIff` say exactly what
  happens without it.
- A delivered webhook carries the gateway's signature, so its verdict is one the gateway reached.
- Only payment-service and the reconciliation script call the PATCH route, and shipping is the only
  other writer of statuses. The route asks for no credentials and its port is published.
- Complete `user.registered` events come from auth-service's accounts only; anything else may be on
  the queue as long as it is not complete. Republication is a step of its own, which no service
  takes; the results say whether they use it.
- Deliveries: in `Registration.dfy` any queued message may be delivered next, to any number of
  consumers. In `RegistrationInOrder.dfy` one consumer holds one message at a time, publications join
  the end of the line, and a message that is requeued or lost goes back to its head. Every run in
  order is a run of the former (`RegistrationInOrder.FlowIsRun`), so its safety results hold of both.
- Live prices are whole in kobo where a result says so; product-service's price column has two places.
- The cart and checkout requests of one user run one after another. Nothing in the code locks.
- Identifiers (UUIDs) are never reused. Identifiers and references are compared for equality only.
- A commit is one atomic step. A publish reaches its queue or is lost.

## What the proofs turned up

- The handler and the PATCH route look at no current status. A redelivered webhook pulls a paid and
  delivered order back to *paid* (`SagaReach.RedeliveryUndoesDelivery`). `OrderReachExact` and
  `PaymentReachExact` give the exact set of statuses that can still be reached.
- The reconciler pulls a shipped order back exactly when shipping moved it on after the job's scan,
  no PATCH has reached it since, and the fix is served (`SagaShipping.FixPullsBackExactly`, with a
  run that does it in `SagaShipping.ReconcilerUndoesShipping`).
- A clean reconciliation is reachable exactly when the orders exist and no order has payments of
  both outcomes (`Reconcile.RepairExact`); an exit code 0 of `--fix` can be trusted exactly when no
  order is split or some order is missing (`Reconcile.ExitZeroTrustedIff`, with an input that fools
  it in `Reconcile.SplitOrderFoolsExitZero`).
- A sign-up publishes its event once, and a failure is only logged. An account whose publication is
  lost never gets a profile unless someone republishes (`Registration.LostPublication`,
  `Registration.ProfileReachExact`).
- `SignUpModel` accepts an empty username, and the consumer drops the event of such an account. It
  never gets a profile, whatever is republished (`Registration.NamelessAccount`,
  `Registration.ProfileReachWithRepublication`).
- A message with email and username whose user_id is present but not a UUID is requeued forever
  (`Registration.SettledExactly`). With one consumer that takes one message at a time, it blocks every
  event behind it for good (`RegistrationInOrder.StuckBehindPoison`, `InOrderProfileExact`).

## Where documentation and code disagree

The model follows the code.

- `README.md:78` says that a failed payment rolls the order back. `order_service.py:152-165` keeps it
  `pending_payment` (`OrderServices.CheckoutStartsSaga`).
- `order_client.py:11` speaks of pauses of 1s, 2s and 4s. Lines 15 and 63-65 pause 5, 10, ... seconds
  and not after the last attempt (`Payments.TotalDelayClosedForm`).
- `order_routes.py:293-298` maps an unreachable product-service to 503, but `order_service.py:55-56`
  has already turned it into a checkout error, so the reply is always 400
  (`OrderServices.OrderService.PostCheckout`).

## Model

The results come first, down to `Registration.ActiveExactly`; the operations, invariants and
arithmetic that they rest on follow.

| member | source | states |
|---|---|---|
| `SagaTheorems.OrderStatusHasCause` | payment-service/app/services/payment_service.py:92-135 | In every reachable state, with no assumption on the gateway: an order is paid only if some payment of it was earlier in the table as succeeded, after re-verification, and cancelled only if one was there as failed; whoever wrote the order. |
| `SagaTheorems.NoticeHasCause` | payment-service/app/services/payment_service.py:112-134 | payment.succeeded or payment.failed is published only for a payment that was on record with that outcome, and names its order. |
| `SagaTheorems.PublishedExactly` | payment-service/app/services/payment_service.py:112-134 | Over any run what is published is exactly the notices of its delivered publish steps, in order, each naming the outcome of its event, the payment and the order of that payment. |
| `SagaTheorems.ScheduleIndependence` | payment-service/app/services/payment_service.py:60-138 | For any two runs, with any interleaving, duplication, loss, delay and crash: a payment shows the same status in both if its verdicts agree and it was committed in both or in neither; an order does if the verdicts on its payments agree, it was written in both or in neither, and shipping has not moved it on. |
| `SagaTheorems.CauseOfInconsistency` | payment-service/app/utils/order_client.py:35-75 | If the only payment of an order is terminal and its charge has one verdict, and the order is missing or shows neither the status it calls for nor shipped or delivered, then some task committed the payment, every task that did is unfinished, crashed or out of attempts with no 200 read, and every scan reports the payment. |
| `SagaTheorems.ExitZeroIsLasting` | scripts/reconcile_payments.py:344-389 | With tasks and other jobs running beside it: if a job exited 0 and the verdicts on the payments of a selected order agree, then, at once and in every later state, that order exists and has the status its payment calls for or is shipped or delivered. |
| `SagaTheorems.RepairFromAnyState` | scripts/reconcile_payments.py:368-389 | From every state, tasks in flight or not, one --fix run that nothing interrupts and whose PATCHes are all served exits 0 if and only if the orders of all terminal payments exist, leaves nothing for any rescan if and only if moreover no order is split, and changes no shipped or delivered order. |
| `SagaTheorems.AgreedNoSplit` | payment-service/app/models/payment.py:20 | In reachable states, if the verdicts on the payments of each order agree, no order is split. |
| `SagaReach.OrderReachExact` | order-service/app/api/order_routes.py:369-382 | While the gateway reaches no new verdict, no payment is created and shipping rests, an order can still take exactly its current status and those its payments' settled verdicts call for: the route guards no transition. |
| `SagaReach.PaymentReachExact` | payment-service/app/services/payment_service.py:83-123 | The same for payments: a terminal status is final exactly when no other verdict is settled. |
| `SagaReach.RedeliveryUndoesDelivery` | order-service/app/api/order_routes.py:380-381 | A concrete run in which an order is paid by a first webhook and delivered, and can be pulled back to paid by redelivering that webhook. |
| `SagaShipping.FixPullsBackExactly` | scripts/reconcile_payments.py:294-380 | In every run: a fix meets a shipped or delivered order exactly when shipping moved the order on after the scan of the same job and no PATCH has reached it since, and pulls it back exactly when moreover the fix is served. |
| `SagaShipping.ReconcilerUndoesShipping` | scripts/reconcile_payments.py:376-380 | A concrete run from the start: the charge is committed, its task crashes, the reconciler scans, the order is shipped, and the fix sets it back to paid. |
| `Reconcile.RepairExact` | scripts/reconcile_payments.py:368-389 | A pass whose PATCHes are all served leaves an empty rescan if and only if every order exists and no order is split. |
| `Reconcile.MonotoneRepair` | scripts/reconcile_payments.py:376-380 | Whatever each PATCH meets, the rescan is the old list without the written orders, so it shrinks exactly when some order was written. |
| `Reconcile.RunsConverge` | scripts/reconcile_payments.py:216-217 | A schedule of --fix runs that each write something reaches an empty scan within as many runs as there were mismatches. |
| `Reconcile.SplitOrderAlwaysReported` | scripts/reconcile_payments.py:246-305 | An order with payments of both outcomes that has not moved on is reported by every scan, whatever its status. |
| `Reconcile.ExitCodes` | scripts/reconcile_payments.py:354-389 | Exactly when each code: 0 if there is no mismatch or every PATCH of a --fix pass met an existing order and was answered; 1 for a report with mismatches; 2 otherwise. A missing order under --fix forces 2; 0 means clean if no order is split. |
| `Reconcile.ExitZeroTrustedIff` | scripts/reconcile_payments.py:221-225 | Under --fix, code 0 implies a clean table in every network if and only if no order is split or some order is missing. |
| `Reconcile.SplitOrderFoolsExitZero` | scripts/reconcile_payments.py:376-389 | A concrete split order for which --fix exits 0 and leaves the table inconsistent. |
| `Reconcile.FindMismatches` | scripts/reconcile_payments.py:275-306 | The returned list reports, in order, exactly the terminal payments whose order is missing or is neither paid (for a success) or cancelled (for a failure) nor shipped or delivered, each with the status its order has, or none. |
| `Payments.PaymentService.HandleWebhook` | payment-service/app/services/payment_service.py:60-138 | With arbitrary legal steps of others at each await, the handler's own steps are, in order: load, re-verify a success, commit, PATCH attempts, publish; it stops early exactly for an unknown payment or event or a charge not confirmed, and leaves its commit, its verification and (if acknowledged) its order written, and, unless the notice is lost, the event's outcome announced for the payment and its order. |
| `Payments.PaymentService.UpdateOrderStatus` | payment-service/app/utils/order_client.py:33-75 | For any retry limit: at most that many attempts; the total pause; with other writers, true means an attempt got a 200, and false that none was answered if the order existed. Alone, true exactly when the order exists and one of the attempts is answered, and then the target was written; false leaves the order unchanged or at the target. |
| `ShopLaws.Conservation` | order-service/app/services/order_service.py:92-127 | In every serial run, for each variant: quantity added = quantity in active carts + removed + sold. |
| `ShopLaws.LedgerTellsRequests` | order-service/app/api/order_routes.py:234-258 | Over any operations, what is added to carts is, one for one and in order, what users asked for in the requests with a positive whole-kobo price and a positive quantity: same product, variant, name, size and quantity, and the same price by value. |
| `ShopLaws.AskedIsKept` | order-service/app/api/order_routes.py:234-258 | In every serial run, for each variant: the quantity users asked to add in such requests = quantity in active carts + removed + sold. |
| `ShopLaws.RemovalRemoves` | order-service/app/services/cart_service.py:79-92 | In every run, removing an item of the user's active cart takes out exactly that row and enters its quantity as removed; removing anything else changes nothing. |
| `ShopLaws.CartsBecomeOrders` | order-service/app/services/order_service.py:100-127 | In every run, checked-out carts and orders are in bijection, with equal quantities per variant. |
| `ShopLaws.CartIsMap` | order-service/app/services/cart_service.py:49-77 | In every run a cart has at most one row per variant; its quantity is the sum of adds since the last removal, its name, size and price those of the first of them. |
| `ShopLaws.OtherCartsUntouched` | order-service/app/services/cart_service.py:24-92 | No operation of a user changes the rows of a cart that is not that user's active cart. |
| `ShopLaws.CheckoutAllOrNothing` | order-service/app/services/order_service.py:41-127 | In every reachable store: an order is placed exactly when an active cart has rows that can all be sold; then there is one new pending_payment order with lines matching the rows one to one at live prices and the cart is closed; otherwise nothing changes. |
| `ShopLaws.PriceChangesExact` | order-service/app/services/order_service.py:70-77 | The same for the reply of the checkout route: names, sizes, old and new price, in cart order. |
| `ShopLaws.OrdersAreLocked` | order-service/app/models/order.py:41-46 | After any further operations an order differs at most in its status, and its lines are what they were. |
| `Shop.ChargedExactly` | payment-service/app/utils/paystack.py:36 | For prices that are whole in kobo, the total sent as text and converted for the gateway is exactly the sum of live kobo prices times quantities. |
| `ShopLaws.TotalsAreLines` | order-service/app/services/order_service.py:86-113 | In every run an order whose prices are whole in kobo totals exactly the sum over its lines of price in kobo times quantity. |
| `JointRuns.SidesAgree` | order-service/app/api/order_routes.py:278-382 | In every joint run of carts, checkouts, webhook tasks, jobs and shipping on one table of orders: the order rows show exactly the saga's statuses, each allowed move can be followed by the other side, and each side is in a state its own runs reach, so every result above holds of it. |
| `JointRuns.PaidOrdersAreExplained` | order-service/app/services/order_service.py:92-165 | In every joint run each order row is the sale of a closed cart with the same quantities, and a paid (cancelled) one has a payment that was on record as succeeded (failed). |
| `JointRuns.ChargesAreOrders` | payment-service/app/utils/paystack.py:36-43 | In every joint run, what order-service had the gateway asked for is the total of that payment's order in kobo, and the sum over its lines if its prices are whole in kobo. |
| `JointRuns.PaidIsCharged` | order-service/app/services/order_service.py:152-159 | A paid order whose payments were all initialized by order-service has a verified payment that was charged exactly what the order's lines come to. |
| `OrderServices.CheckoutStartsSaga` | order-service/app/services/order_service.py:148-165 | A checkout is the saga's steps for a new order and its payment; the order is pending_payment even when no payment could be initialized. |
| `OrderServices.OrderedCanBePaid` | payment-service/app/services/payment_service.py:92-118 | After any checkout with a stored payment there is a run that pays the payment and the order. |
| `Registration.AtLeastOnceIsEnough` | user-service/app/workers/consumer.py:47-70 | In every run no user has two profiles, and each announced event of an account with a username is queued, in flight, or has led to its profile. |
| `Registration.ExactlyOneInsert` | user-service/app/services/user_service.py:39-71 | However often an event is delivered, its profile is inserted exactly once if it exists and never otherwise. |
| `Registration.DrainedExactly` | user-service/app/workers/consumer.py:30-59 | When nothing but poison is left, profiles exist for exactly the announced accounts with a username. |
| `RegistrationInOrder.InOrderProfileExact` | user-service/app/workers/consumer.py:62-107 | As deployed, one message at a time in order: in every reachable state the services by themselves can still give an account its profile if and only if it has it, or its username is not empty and a copy of its event is ahead of all poison, or is still to be published with no poison in the line. |
| `RegistrationInOrder.InOrderWithRepublication` | user-service/app/workers/consumer.py:62-107 | The same with an operator who republishes: if and only if it has it, or its username is not empty and a copy of its event is ahead of all poison or there is no poison in the line. |
| `RegistrationInOrder.DrainsExactly` | user-service/app/workers/consumer.py:65-70 | As deployed, the consumer can work off the line if and only if there is no poison in it. |
| `RegistrationInOrder.StuckBehindPoison` | user-service/app/workers/consumer.py:55-70 | A concrete run: a poison message, then a registered and published account that no continuation gives a profile. |
| `Registration.ProfileReachExact` | auth-service/app/services/auth_service.py:36-46 | If any queued message may be delivered next: in every reachable state the services by themselves can still give an account its profile if and only if its username is not empty and its event has reached the queue or its sign-up has yet to publish it. |
| `Registration.ProfileReachWithRepublication` | auth-service/app/utils/events.py:40-49 | The same with an operator who republishes: if and only if the username is not empty. |
| `Registration.LostPublication` | auth-service/app/utils/events.py:75-76 | A concrete account whose publication is lost: no continuation of the services gives it a profile. |
| `Registration.NamelessAccount` | user-service/app/workers/consumer.py:43-45 | A concrete account with an empty username: no continuation at all gives it a profile. |
| `Registration.PoisonStays` | user-service/app/workers/consumer.py:55-59 | A message with email and username whose user_id is present but no UUID is never dropped: it is still to be processed in every continuation. |
| `Registration.SettledExactly` | user-service/app/workers/consumer.py:30-59 | A message that is to be processed can be done with if and only if it is not poison, that is, lacks a field, is no JSON or has a UUID. |
| `Registration.PoisonFromTheStart` | user-service/app/workers/consumer.py:55-59 | A concrete message that is never done with. |
| `Registration.OwnerOnly` | user-service/app/api/user_routes.py:13-22 | In every reachable state a profile shows its account's username and email, and the token check accepts the owner and nobody else. |
| `Registration.ProfileHistory` | user-service/app/services/user_service.py:39-61 | Each profile starts empty when its event is handled and then holds what its owner's updates since then made of it. |
| `Registration.ActiveExactly` | auth-service/app/services/auth_service.py:61-79 | An account is active after a run exactly when it was before or some step verified its own email while it existed: the gate of login. |
| `SagaTheorems.CommitOnRecord` | payment-service/app/services/payment_service.py:104-106 | The history of committed outcomes is truthful: each recorded outcome was in the payment table after some step of the run. |
| `SagaTheorems.ScriptIsJob` | scripts/reconcile_payments.py:338-389 | The reconciler's steps in the transition system, run without interruption, do to the orders what the script does and exit with its code. |
| `SagaReach.Redelivery` | payment-service/app/services/payment_service.py:92-111 | A settled verdict delivered at any time, again or not, overwrites both statuses. |
| `SagaInvariant.InvStep` | payment-service/app/api/payment_routes.py:52-78 | Every step of any actor keeps: terminal payments show a committed outcome, each program counter's facts, late requests and job snapshots ask only for what a committed outcome calls for, orders show only such statuses. |
| `SagaInvariant.InvRun` | payment-service/app/services/payment_service.py:60-138 | The invariant holds after every run, and verdicts, commits, re-verifications and writes are never forgotten. |
| `Payments.TotalDelayClosedForm` | payment-service/app/utils/order_client.py:15-65 | The pauses after n attempts sum to 5 (2^n - 1) seconds. |
| `Payments.RetriedMeans` | payment-service/app/utils/order_client.py:35-61 | Any series of attempts leaves the orders unchanged or with the target written, and written if the last one was answered. |
| `SagaReach.LateRequestWrites` | payment-service/app/utils/order_client.py:36-61 | A PATCH whose sender gave up waiting can still be served after any further steps of anyone, and then writes what the event calls for. |
| `Payments.PaymentService.Initialize` | payment-service/app/services/payment_service.py:18-57 | A pending row is stored exactly when the amount parses, the gateway accepts and the reference is new; whenever the amount parses, the gateway is asked for it in kobo. |
| `Payments.PaymentService.PaystackWebhook` | payment-service/app/api/payment_routes.py:116-123 | Accepting a webhook only queues a task that has done nothing yet. |
| `Payments.PaymentService.LookUp` | payment-service/app/services/payment_service.py:77-90 | Whatever others do before it: nothing is found only for an unhandled event, a missing reference or a payment that was not there when the handler was called, and then the task is over. |
| `Payments.PaymentService.LoadPayment` | payment-service/app/services/payment_service.py:77-90 | The load segment is the Load step: a missing reference, unknown payment or unhandled event ends its background task. |
| `Payments.PaymentService.VerifyCharge` | payment-service/app/services/payment_service.py:92-102 | The re-verification segment is the Verify step: anything but a confirmed charge ends its background task with nothing written. |
| `Payments.PaymentService.CommitOutcome` | payment-service/app/services/payment_service.py:104-123 | The commit segment is the Commit step, including the ORM leaving the column alone when it was loaded with the new value. |
| `Payments.PaymentService.SendPatch` | payment-service/app/utils/order_client.py:36-61 | One attempt is the Send step; it is acknowledged exactly when the request is answered and the order exists. |
| `Payments.PaymentService.PublishOutcome` | payment-service/app/services/payment_service.py:112-134 | The publish segment is the Publish step: it announces the outcome of the event, the order and the reference, last; a lost notice changes nothing else. |
| `Payments.PaymentService.Retry` | payment-service/app/utils/order_client.py:35-65 | The attempt loop keeps its program counter, history, pauses and acknowledgements in step with the Send steps it takes, and stops on a 200 or after the last attempt. |
| `OrderRoutes.OrderApi.UpdateOrderStatus` | order-service/app/api/order_routes.py:356-382 | 422, 400, 404 or 200, exactly when; the table changes only on 200, and then to the status that each of the seven texts names, whatever the status was. |
| `OrderRoutes.ParseStatus` | order-service/app/models/order.py:9-16 | Each of the seven texts, and no other, is a status, and which one. |
| `OrderRoutes.OrderApi.Patch` | scripts/reconcile_payments.py:317-335 | What a client sees of a PATCH: applied and acknowledged, applied with the reply lost, or neither. |
| `Reconcile.ScanUnique` | scripts/reconcile_payments.py:280-306 | Soundness, completeness and order determine the list. |
| `Reconcile.ScanMembers` | scripts/reconcile_payments.py:286-305 | A mismatch is reported if and only if its payment is flagged, with the status it was compared to. |
| `Reconcile.ScanShows` | scripts/reconcile_payments.py:286-305 | The same spelled out: a report shows the status its order has, or that it is missing, and a payment is reported exactly when its order is missing or is neither paid (cancelled) nor shipped nor delivered. |
| `Reconcile.FixedExactly` | scripts/reconcile_payments.py:376-380 | A pass counts as fixed exactly when every PATCH met an existing order and was answered. |
| `Reconcile.FetchPayments` | scripts/reconcile_payments.py:252-260 | Exactly the terminal payments, each once. |
| `Reconcile.FetchedStatusesSuffice` | scripts/reconcile_payments.py:263-272 | Scanning against the fetched statuses is scanning against the order table. |
| `Reconcile.FixKeepsForwarded` | scripts/reconcile_payments.py:294-298 | No pass changes an order that was shipped or delivered in the snapshot. |
| `Reconcile.FixMismatch` | scripts/reconcile_payments.py:309-335 | One fix is one PATCH to the expected status; true exactly when it is acknowledged. |
| `Reconcile.Reconcile` | scripts/reconcile_payments.py:338-389 | The script computes the specified exit code and order table for every network behaviour. |
| `Shop.ActiveCart` | order-service/app/services/cart_service.py:16-22 | A cart is found exactly when the user has an active one, and it is one of theirs. |
| `Shop.GetVariantExact` | order-service/app/utils/product_client.py:13-50 | Found, no such variant, or failure: exactly when, and with the data of the first listed variant. |
| `Shop.VerifyExact` | order-service/app/services/order_service.py:46-84 | Verification succeeds exactly when every row can be sold and pairs rows with live data in order; otherwise it names the first row at fault and why. |
| `Shop.ChangesExact` | order-service/app/services/order_service.py:70-77 | Reported price changes are exactly the rows whose live price differs by value, in cart order. |
| `Shop.TotalIsSubtotals` | order-service/app/services/order_service.py:86-113 | The order total is the sum of the line subtotals. |
| `Shop.TotalExact` | order-service/app/services/order_service.py:86-90 | The order total is the sum of live price times quantity, exactly, at whatever scales the prices come. |
| `Money.KoboBounds` | payment-service/app/utils/paystack.py:36 | kobo <= 100 amount < kobo + 1 for every non-negative decimal, and the mirror image for negative ones. |
| `Money.KoboExactIff` | payment-service/app/utils/paystack.py:36 | Nothing is lost in the conversion if and only if the amount is a whole number of kobo. |
| `Money.RoundTrip` | order-service/app/utils/payment_client.py:28-36 | An amount written as text by one service is read back by the other with value and places intact. |
| `Money.ParseExact` | payment-service/app/schemas/payment_schema.py:15-19 | A text is read as an amount exactly when it is a plain decimal: digits, optionally a point and more digits, optionally a minus sign in front. |
| `Money.ParseMeans` | payment-service/app/schemas/payment_schema.py:15-19 | Such a text is read as its digits as a number, with as many places as digits after the point, and negated after a minus sign. |
| `Money.DigitsMean` | payment-service/app/schemas/payment_schema.py:15-19 | Digits are read in base ten, the most significant first. |
| `Money.SameValueExact` | order-service/app/services/order_service.py:70-71 | Prices compare equal exactly when they are the same rational number. |
| `Money.UnitsPlus` | order-service/app/services/order_service.py:87-90 | Decimal addition adds the values at every scale. |
| `Money.StoredExact` | order-service/app/models/cart.py:40 | A two-place column keeps the value of a price if and only if it is a whole number of kobo. |
| `ShopLaws.DoOk` | order-service/app/services/cart_service.py:24-92 | Every operation keeps the tables' invariant: one active cart per user, one row per variant, the ledger, conservation and the pairing of carts and orders. |
| `ShopLaws.RepricedIsCharged` | order-service/app/services/order_service.py:101-113 | A repriced row is charged at the live price, not at the cart's. |
| `ShopLaws.QtyPermuted` | order-service/app/services/order_service.py:36-39 | The order in which the query returns the cart's rows does not matter to their quantities. |
| `OrderServices.OrderService.GetOrCreateCart` | order-service/app/services/cart_service.py:24-36 | Returns the user's active cart, inserting one only if there is none. |
| `OrderServices.OrderService.AddItem` | order-service/app/services/cart_service.py:38-77 | Merges into the row of the variant or inserts one, as the specification says; returns that row. |
| `OrderServices.OrderService.RemoveItem` | order-service/app/services/cart_service.py:79-92 | True exactly when the cart has the item; then that row is gone and every other is as it was. |
| `OrderServices.OrderService.PostCartItem` | order-service/app/api/order_routes.py:234-258 | 422 exactly for a price that is not positive or not whole in kobo or a quantity below one, and then nothing changes, not even a cart is created; 201 adds the requested quantity to the cart's row of the variant, or, if it has none, a row with the data of the request. |
| `OrderServices.OrderService.DeleteCartItem` | order-service/app/api/order_routes.py:261-273 | 204 exactly if the item is in the user's active cart, and then that row is gone and every other is as it was; 404 and 422 change nothing. |
| `OrderServices.OrderService.VerifyItems` | order-service/app/services/order_service.py:44-84 | The loop that looks up every row before anything is written refines the verification function and collects the price changes. |
| `OrderServices.OrderService.PlaceOrder` | order-service/app/services/order_service.py:86-127 | The loops for total, lines and payload make exactly the specified new tables in one commit. |
| `OrderServices.OrderService.Checkout` | order-service/app/services/order_service.py:25-168 | A refusal leaves orders, carts, events and payments as they were; otherwise one order, one event unless it is lost, and a payment exactly if payment-service stored one; whenever the request is delivered and the live prices are whole in kobo, the gateway is asked for exactly their kobo total. |
| `OrderServices.OrderService.PostCheckout` | order-service/app/api/order_routes.py:278-310 | The route does what the checkout specification says; 201 exactly when an order was placed and otherwise 400. |
| `OrderServices.OrderService.InitializePayment` | order-service/app/utils/payment_client.py:16-45 | The reference is returned exactly when a payment was stored and the reply arrived; a stored payment may stay unknown to order-service; whenever the request is delivered, the gateway is asked for the total in kobo. |
| `OrderServices.OrdersMoveAsSaga` | order-service/app/api/order_routes.py:374-381 | order-service's rows and the saga's status table move together under every operation. |
| `OrderServices.EventTellsOrder` | order-service/app/utils/events.py:36-42 | Every amount and line of order.placed reads back as what the order holds, and as what its two-place columns keep if the live prices are whole in kobo. |
| `Registration.CanDrain` | user-service/app/workers/consumer.py:62-70 | If any queued message may be delivered next: from every state the consumer's own steps lead to one where only poison is left. |
| `Registration.RowFollowsOwner` | user-service/app/services/user_service.py:20-37 | Over any run a profile changes by its owner's updates in order and by nothing else; redelivered events undo none. |
| `Registration.InvStep` | user-service/app/services/user_service.py:55-71 | Every step keeps unique names, truthful events, mirrored profiles and undropped messages. |
| `RegistrationServices.AuthService.Register` | auth-service/app/services/auth_service.py:16-46 | Which of the four results, exactly when, with any number of other sign-ups committing between the two lookups and before the commit; the tables and the queue move by the steps of the run. |
| `RegistrationServices.AuthService.ActivateUserByEmail` | auth-service/app/services/auth_service.py:61-79 | True exactly when some account has the email; that account becomes active and no other account changes. |
| `RegistrationServices.UserProfileService.CreateProfileFromEvent` | user-service/app/services/user_service.py:39-71 | Inserted, already there or raised, exactly when; the table gains at most the one row. |
| `RegistrationServices.UserProfileService.UpdateProfile` | user-service/app/services/user_service.py:20-37 | Given fields get their values and no other field or row changes. |
| `RegistrationServices.UserProfileService.PatchProfile` | user-service/app/api/user_routes.py:51-78 | 404, 403 or 200, exactly when; only the owner's row changes. |
| `RegistrationServices.Consumer.ProcessMessage` | user-service/app/workers/consumer.py:23-59 | Dropped exactly if a field is missing or the email or username is empty; otherwise its profile is inserted unless there is one, and it is requeued if its user_id is no UUID or the database fails. |
| `RegistrationServices.Consumer.OnMessage` | user-service/app/workers/consumer.py:62-70 | Processing a delivery and answering it, or dying first, are the steps of the run. |
| `RegistrationServices.WhoTook` | auth-service/app/models/user.py:10-11 | A name that is taken after other sign-ups was taken before or by one of them that committed. |
| `RegistrationServices.StaysTaken` | auth-service/app/models/user.py:10-11 | What was taken, or what another sign-up took, stays taken. |

## Left out

- Payments.PaymentService.Initialize: reads amounts in plain decimal notation only, which is what order-service sends; exponents and other notations of the schema are not modelled.
- SagaTheorems.ScheduleIndependence: says nothing of orders that shipping has moved on, because whichever of a PATCH and a shipping step comes last decides their status.
- Payments.PaymentService.HandleWebhook: its task does not crash half-way; crashes at any point are a step of the transition system instead.
- ShopLaws.Conservation: covers serial runs; concurrent requests of one user can lose an update of a quantity.
- HMAC signatures, tokens, password hashing and strength, email delivery: an accepted webhook or a valid token is an input.
- HTTP, JSON, session and broker plumbing: a request has one of five fates (`OrderRoutes.Net`), a publish arrives or is lost. Printing, logging and `--quiet` are dropped.
- Money.RoundTrip: amounts are written in plain notation, as Python writes all amounts of 10^-6 and more; smaller ones, which no whole number of kobo is, it writes with an exponent.
- Money.StoredExact: says nothing of how a column rounds a price that is not whole in kobo; the cart admits none.
- Column widths and Numeric overflow, decimal context precision: totals are assumed to fit.
- SQLAlchemy's unit of work, except that an unchanged column is not written (`Commit(t, elided)`).
- The PATCH route's read and commit are one step, so two PATCHes of one order do not overlap inside it.
- Amounts and users of payment rows and of payment.succeeded / payment.failed notices: nothing in the saga depends on them.
- The gateway's own state beyond the verdicts it has reached, and the kobo amount it confirms: the handler does not compare it.
- A lookup by order that finds several payments, and several active carts of one user: the service raises, and serial requests rule the second out.
- Failing commits in order-service and payment-service: a request that fails there before its commit changes nothing.
- Shipping as a service: it only appears as a step that sets shipped or delivered at any time.
- Product and category maintenance, order listing and reading, clearing a cart, health routes, login and token refresh: they would only add easy members.
- Message bodies that are JSON but not an object, which stop the consumer process, and fields that are JSON numbers or other values instead of text, which fail the insert and are requeued.
- The commented-out older versions in `scripts/reconcile_payments.py` and `order-service/app/api/order_routes.py`.
