# Orders, payments and receipts

Three services share one purchase. The order service stores an order as Pending, asks the payment service to authorize its
amount, and writes Paid or Failed. The payment service stores at most one payment per order and publishes an event for each
authorized one. The notification service takes the events from a queue and has a receipt sent for each payment. Nothing
spans the services but retries: replies get lost, stores fail, processes die, messages come twice, cached values expire.
This project models that protocol in Dafny and proves what it keeps.

The model has two layers.

**Step systems.** Each protocol is a state and a total function `Next` from a state and a label to the next state; a label that
does not fit the state changes nothing. Every repository statement, transaction statement, remote call, reply, fault and
crash is a label of its own. `Exec` folds `Next` over a list of labels, so "for every list of labels" is "for every
interleaved run with any faults", and the main results need no assumption about which states are reachable.

| file | what it holds |
|---|---|
| `NotificationProtocol`, `NotificationGuarantees`, `DeliveryLedger`, `NotificationTheorems`, `RetryTiming` | queue, delivery in hand, two idempotency stores, provider, deadline, and the clock of the retry loop |
| `PaymentProtocol` | any number of concurrent authorizations: check, save, publish |
| `OrderTransactions`, `TransactionSteps` | concurrent keyed inserts under an advisory lock, and unconditional status updates |
| `CheckoutSaga`, `SagaSteps`, `SagaGuarantees` | creates, retries and cancels over the two databases, behind either adapter, and their invariant |
| `SagaTheorems`, `SagaOrders`, `SagaReplies`, `SagaAnswers`, `SagaRetry`, `SagaFinality`, `SagaPublishing`, `SagaRuns` | what every run of the saga keeps, where its orders and calls come from, what each reply leads to, what callers are told, what a retry does, when a settled order can change, when Paid means published, and the runs that show the rest |
| `EndToEnd` | the saga and the notification service joined by the queue |
| `OrderReads` | cache-aside reads against updates and invalidations |
| `Subscriptions`, `StreamProtocol`, `StreamDelivery` | the subscriber lists as slices over shared arrays, handlers of streaming clients against the rounds of the polling monitor, and what each client is handed |
| `PaymentAdapter`, `Backoff`, `Money`, `Integers`, `Text` | reply mapping, delay arithmetic, receipt amounts, trimming and ids |

**Programs.** `NotificationService`, `PaymentService`, `OrderStore`, `OrderService` and `StatusStream` write the imperative code as
classes with the source's own loops, stores and order of effects. `Environment` supplies the clock and a finite budget of
faults, with those of the order cache counted apart. Each object keeps the labels of its own steps as ghost history and proves, after every effect, that its concrete stores are
the state the step system reaches by them. So all theorems about the step systems hold of the programs, and a program
that skipped, swapped or repeated an effect would not verify.

Where the code does not do what is hoped of it, the model keeps the code, exhibits a run that shows it, and proves the exact condition:

- The root `README.md:10` says that deleting the cache key means the next GET cannot return a stale status. That holds exactly when no
  reader is between its database read and its fill with an older value (`OrderReads.DeleteEndsStalenessIff`). The code
  also skips the delete when an applied update loses its reply; `OrderService.UseCases` counts that order as stale.
- A generic error of the payment port, or a status it does not know, marks the order Failed although its payment may be
  authorized, and can overwrite Paid. "Failed means declined" and "never both Paid and Failed" hold exactly when no reply that
  can occur, to Authorize or to the reconcile query, claims nothing about the payment and is read that way; `SagaReplies.MisreadingsAre`
  lists these replies by codes and transports
  (`SagaTheorems.FailedMeansDeclinedIffNoMisreading`, `SagaTheorems.PaidExcludesFailedIffNoMisreading`), and so does "success
  reports what the amount decides, or Cancelled" (`SagaAnswers.TellsTheAmountIffNoMisreading`). Behind the wired gRPC
  client every timeout is such a reply; behind REST no timeout, refused connection or 5xx is, but a 404 to the POST is.
- The gRPC server reports an existing payment as an internal error, so behind gRPC a retry never settles an order whose payment is
  recorded (`SagaRetry.RetrySettles`). The reconcile path is reachable behind REST only. That path in turn settles orders as
  Paid whose event the broker has refused, since nothing publishes it again: with an honest publisher, Paid
  means published exactly behind gRPC (`SagaPublishing.PaidMeansPublishedIffGrpc`).
- "Only pending orders can be cancelled" is a check, not a guarantee: a cancel that has read Pending can overwrite Paid
  (`SagaRuns.CancelOverwritesPaid`). A settled order is safe from cancelling in every continuation exactly when no
  such cancel is about to write (`SagaFinality.SettledIsSafeFromCancelIff`). When use cases run one at a time, settled
  orders never change, whatever faults and crashes there are (`SagaFinality.OneAtATimeSettlesForGood`).
- With zero attempts configured `Handle` acknowledges events it never sent; acknowledged means sent exactly when at least
  one attempt is configured, as `main` ensures (`NotificationTheorems.AckedMeansSentIffAttempts`).
- `formatUSD` cannot be undone for the least 64-bit integer, and for no other amount (`Money.FormatUSDRoundTrip`).
- The lock of the stream server covers the slice's header, not its array: the hand-over loop reads cells that a removal shifts and an
  append takes over. A removal inside the loop can make it pass over one client and hand another the update twice
  (`StreamDelivery.RemovalSkipsAndRepeats`). The clients of an order are handed every announcement, once and in order, exactly if no
  removal or registration overwrites a cell that a loop of this order has yet to read (`StreamDelivery.ServedIffUndisturbed`).
- A status change between a client's own first reading and the poll that is the monitor's baseline for it is never streamed: as long as
  no loop is so disturbed, the exact condition for the latest polled status to be among what a client is handed is
  `StreamDelivery.CaughtUpIff`. The stale first status can also be sent after the update
  (`StreamDelivery.SnapshotCanComeLast`), and a client whose first send fails stays registered for good
  (`StreamProtocol.ListedExactly`).

Assumptions: generated ids are canonical UUIDs and never repeat; one consumer with a prefetch of one; `select` takes whichever
channel is ready first, and either on a tie; a provider that reports success has accepted the receipt. The payment port may be
answered by replies that are not the payment service's own, errors of any kind or unknown statuses, but none that makes a claim
about the payment: not 200 with a status the service has, not 409 or 400, and not 404 to a status query. A caller whose
request context is cancelled counts as crashed: every later statement runs on that context and fails too.

## Model

| member | source | states |
|---|---|---|
| NotificationGuarantees.MessageConservation | notification-service/cmd/notification-service/main.go:243-272 | after any run every published message is in exactly one of queue, in flight, acknowledged, dead-lettered, exactly once |
| NotificationGuarantees.AlwaysFits | notification-service/internal/notify/processor.go:44-117 | in every reachable state the stage of a delivery, the log of emails, the two stores and the settled messages agree |
| NotificationTheorems.AckedMeansSentIffAttempts | notification-service/internal/notify/processor.go:89-117 | every acknowledged message had a successful send for its event or payment, in all runs, if and only if at least one attempt is configured |
| NotificationTheorems.NoAttemptsAcknowledgesUnsent | notification-service/internal/notify/processor.go:89-110 | with zero attempts some run acknowledges a message for which nothing was ever sent |
| NotificationTheorems.DeadLettersAreDeserved | notification-service/cmd/notification-service/main.go:255-260 | a dead-lettered message is poison or carries the demo order id |
| NotificationTheorems.StoresAgree | notification-service/internal/notify/processor.go:53-72 | for events whose id is their payment id, every SENT key is a processed event, the Redis hit is never taken and every acknowledged event is permanently recorded |
| NotificationTheorems.MarkedIsRecorded | notification-service/internal/notify/processor.go:108-113 | in every run a key ever marked SENT, live or expired, is the payment key of a message whose event is recorded |
| NotificationTheorems.RetriesFitTheDeadline | notification-service/internal/notify/processor.go:89-103 | at send k of a delivery the delays so far add up to base times (2^k - 1), within 120 s of the delivery; the next delay is base times 2^k and fits int64; from 1 ms up there are at most 17 sends |
| RetryTiming.EveryDeliveryStarts | notification-service/cmd/notification-service/main.go:243-247 | in every run the delivery in hand was handed over, as the head of the queue, 120 s before its deadline |
| RetryTiming.EveryWaitStarts | notification-service/internal/notify/processor.go:90-99 | in every run a wait for attempt k was started by a failed attempt k - 1, its timer is ready base times 2^(k-1) after that, and the delivery has waited ever since |
| RetryTiming.AlwaysAccounts | notification-service/internal/notify/processor.go:89-103 | in every run the clock of a delivery is accounted for: before attempt k the time since its start is what it spent outside its waits plus base times (2^k - 1) |
| RetryTiming.WaitsAreTimed | notification-service/internal/notify/processor.go:91-97 | in every run: the timer can end the wait for attempt k, with that attempt, if and only if what the delivery spent outside its waits plus base times (2^k - 1) is at most 120 s, and the deadline can if and only if it is at least that |
| NotificationTheorems.EveryStepDescends | notification-service/cmd/notification-service/main.go:243-272 | every step other than an arrival or the clock changes nothing or descends in (faults left, messages left, stage) |
| NotificationTheorems.CanAlwaysMove | notification-service/cmd/notification-service/main.go:194-205 | while messages are left, some pause followed by a fault-free step descends: the consumer is never stuck |
| NotificationTheorems.DrainsWhenHealthy | notification-service/cmd/notification-service/main.go:194-205 | every run can be continued without a fault to an empty queue with all messages acknowledged or dead-lettered |
| DeliveryLedger.DuplicatesArePaidFor | notification-service/internal/notify/processor.go:58-113 | per event, successful sends are records kept plus records lost plus the one in hand, hence at most one more than the records lost |
| DeliveryLedger.ReceiptsArePaidFor | notification-service/internal/notify/processor.go:89-113 | per event, the receipts that the provider has accepted, reported or not, are at most one plus those sent and not recorded plus those accepted and not reported, and each of these two kinds is paid for by a fault of its own |
| DeliveryLedger.RedeliveriesArePaidFor | notification-service/cmd/notification-service/main.go:255-271 | deliveries beyond the first are requeues, and every requeue is paid for by a fault |
| DeliveryLedger.NotYetRecorded | notification-service/internal/notify/processor.go:58-64 | the insert after a send never meets its own primary key |
| Backoff.DelayIsExact | notification-service/internal/notify/processor.go:92 | the int64 delay is base times 2^(attempt-1) if and only if that product is at most 2^63 - 1 |
| Backoff.TotalDelayClosedForm | notification-service/internal/notify/processor.go:90-97 | the delays before attempt k add up to base times (2^k - 1) as long as the last one fits |
| Backoff.NextDelayFits | notification-service/internal/notify/processor.go:91-97 | if the total so far is within the deadline, the next delay is the total plus base, positive and within int64 |
| Backoff.AttemptsFitDeadline | notification-service/cmd/notification-service/main.go:85-96 | with a base of at least 1 ms no attempt after the sixteenth retry starts within the deadline |
| Money.FormatUSDRoundTrip | notification-service/internal/notify/processor.go:120-132 | parsing the formatted amount gives back the cents for every int64 but the least, for which it gives nothing |
| Money.FormatUSDShape | notification-service/internal/notify/processor.go:120-132 | a dollar sign, the dollars in decimal, a dot and two digits of cents, behind a minus sign for a negative amount |
| Money.FormatUSDInjective | notification-service/internal/notify/processor.go:120-132 | equal texts come from equal amounts |
| Text.TrimSpaceTrims | order-service/internal/usecase/create_order.go:46-48 | what trimming cuts off at either end is all white space and what it leaves neither starts nor ends with any |
| NotificationService.ProcessedEvents.WasProcessed | notification-service/internal/postgres/store.go:20-33 | membership in the permanent set; the empty id is an error |
| NotificationService.ProcessedEvents.RecordProcessed | notification-service/internal/postgres/store.go:36-39 | a plain insert: a second one is an error, and a failed one may have been applied |
| NotificationService.SentKeys.AlreadySent | notification-service/internal/redisnotify/store.go:29-42 | true exactly while the trimmed key is present and not expired; a blank key is an error |
| NotificationService.SentKeys.MarkSent | notification-service/internal/redisnotify/store.go:45-54 | sets the trimmed key for one TTL; a blank key is an error that changes nothing; another failed call may have been applied |
| NotificationService.Processor.AskStores | notification-service/internal/notify/processor.go:58-72 | the two duplicate checks in order: done exactly if one hits, transient on an error |
| NotificationService.Processor.Sleep | notification-service/internal/notify/processor.go:91-97 | the wait ends by the timer, when it is ready within the deadline, or by the context: at the deadline, when that comes first, or by a shutdown |
| NotificationService.Processor.SendOnce | notification-service/internal/notify/processor.go:91-102 | one provider call: on success the receipt is in the outbox; after failure number k with an attempt left the delivery waits for exactly base times 2^k, and without one it gives up |
| NotificationService.Processor.SendWithRetries | notification-service/internal/notify/processor.go:89-106 | without a fault one receipt is sent; giving up as transient has cost at least as many faults as there are attempts; neither store has moved |
| NotificationService.Processor.RecordBoth | notification-service/internal/notify/processor.go:108-113 | event recorded, then key marked; anything less is transient |
| NotificationService.Processor.SendAndRecord | notification-service/internal/notify/processor.go:78-117 | without a fault one receipt with the trimmed address, order id and status, the key and the amount goes out, then the event is recorded and the key marked for one TTL |
| NotificationService.Processor.Handle | notification-service/internal/notify/processor.go:44-118 | a run of the protocol; without a fault the verdict, both stores and the outbox are decided as written out by `HandledUndisturbed`: malformed or no event id is poison, known to a store is done, the demo order is dead-lettered, no address is poison, anything else is sent once, recorded, marked and done; a retry verdict has used up a fault |
| NotificationService.Consumer.Arrive | notification-service/cmd/notification-service/main.go:163-168 | a published message joins the end of the queue |
| NotificationService.Consumer.Take | notification-service/cmd/notification-service/main.go:194-205 | the head of the queue is taken, with a deadline of 120 s |
| NotificationService.Consumer.Dispatch | notification-service/cmd/notification-service/main.go:248-271 | done is acknowledged, poison and the demo order dead-lettered, anything else or a lost reply puts the message back |
| NotificationService.Consumer.HandleDelivery | notification-service/cmd/notification-service/main.go:243-272 | the head of the queue is acknowledged as done, dead-lettered as poison or demo, or back in the queue at the price of a fault; without a fault the verdict is the one written out for Handle |
| NotificationService.Consumer.Drain | notification-service/cmd/notification-service/main.go:194-205 | with a finite fault budget the loop ends, the queue is empty and every message is acknowledged or dead-lettered |
| PaymentProtocol.AlwaysFits | payment-service/internal/usecase/authorize_payment.go:40-103 | the invariant of the payments table, the events and the calls in any interleaving |
| PaymentProtocol.OnePaymentPerOrder | payment-service/internal/usecase/authorize_payment.go:48-94 | concurrent calls store at most one payment per order, Authorized exactly if its amount is at most 100000, start at most one publish per order, and every event carries its authorized row and the trimmed address of a call for it |
| PaymentProtocol.StoredIsFinal | payment-service/migrations/001_payments.sql:1-10 | between two moments of a run stored payments and accepted events keep place and value and finished calls their answer |
| PaymentProtocol.AnswersAreTrue | payment-service/internal/usecase/authorize_payment.go:41-54 | what each answer says holds: success means the row is stored, already-exists that one is, each argument error that the argument is bad |
| PaymentService.PaymentRepository.GetByOrderID | payment-service/internal/repository/postgres/payment_repo.go:33-52 | the newest row of the order or none |
| PaymentService.PaymentRepository.Save | payment-service/internal/repository/postgres/payment_repo.go:21-31 | one more row unless a unique key clashes; a failed call may have been applied |
| PaymentService.AuthorizePayment.SaveAndPublish | payment-service/internal/usecase/authorize_payment.go:56-102 | decide, save, publish in this order, as a run of the protocol; a clash with a unique index leaves rows and events as they are |
| PaymentService.AuthorizePayment.Execute | payment-service/internal/usecase/authorize_payment.go:40-103 | a run of the protocol with exactly one answer; without a fault the answer, the row and the event are those written out by `DecidedOn`: bad arguments refused, an existing payment reported, otherwise Authorized exactly if the amount is at most 100000, and published; a fault gives the internal error; at most this row and this event are new |
| OrderTransactions.KeysNameOrders | order-service/internal/repository/postgres/order_repo.go:65-124 | for any lock hash, colliding or not: calls with one key return one order, calls with two keys two orders, and the key insert neither clashes nor waits |
| OrderTransactions.InsertKeySucceeds | order-service/internal/repository/postgres/order_repo.go:115-119 | inserting the key never meets its primary key |
| OrderTransactions.KeyIsExclusive | order-service/internal/repository/postgres/order_repo.go:71-74 | two transactions past the lock never hold the same key |
| OrderTransactions.LinksAreFinal | order-service/internal/repository/postgres/order_repo.go:76-91 | a key once linked names the same order for ever, and an order changes in nothing but its status |
| OrderStore.OrderRepository.GetByID | order-service/internal/repository/postgres/order_repo.go:24-40 | the row or none |
| OrderStore.OrderRepository.UpdateStatus | order-service/internal/repository/postgres/order_repo.go:42-56 | sets the status whatever it was; no row is an error; a failed call may have been applied |
| OrderStore.OrderRepository.LookUp | order-service/internal/repository/postgres/order_repo.go:71-78 | takes the lock on the key's hash and reads the link |
| OrderStore.OrderRepository.Replay | order-service/internal/repository/postgres/order_repo.go:79-90 | the linked order exists and is returned; no table changes |
| OrderStore.OrderRepository.InsertKey | order-service/internal/repository/postgres/order_repo.go:115-119 | fails on a fault only: the key is never taken |
| OrderStore.OrderRepository.Insert | order-service/internal/repository/postgres/order_repo.go:97-124 | order and link become visible together at commit, or not at all |
| OrderStore.OrderRepository.CreatePendingWithIdempotency | order-service/internal/repository/postgres/order_repo.go:59-125 | a run of the transaction protocol: a non-empty linked key returns its order and changes nothing, otherwise the Pending order of exactly these arguments, and its link if there is a key, are stored; an error leaves nothing or, with a lost commit reply, all of it |
| PaymentAdapter.AdaptersDiffer | order-service/internal/adapter/payment/rest_client.go:63-79 | REST alone passes on that the payment exists; every other outcome of the service reads alike behind both adapters |
| PaymentAdapter.RepliesReadAs | order-service/internal/adapter/payment/rest_client.go:52-131 | for every reply, by code and transport: exactly which ones the clients read as unavailable, recorded, invalid, not found, a given status, or an error without a meaning |
| PaymentAdapter.OwnReplies | payment-service/internal/transport/http/handlers.go:33-86 | the payment service's replies in full: 200 with the status, 409, 400, 500 and 404, and the gRPC codes |
| SagaTheorems.TimeoutsByAdapter | order-service/internal/adapter/payment/rest_client.go:119-131 | timeouts, refused connections and 5xx replies are never misread behind REST, a 404 to the POST is; behind gRPC a deadline or an unavailable server is |
| SagaReplies.AnswerFaults | order-service/internal/usecase/create_order.go:64-97 | a reply in place of the service's own to the POST: a deadline, a timeout, a refused connection, a 5xx or their gRPC kin leave the order to be read again, a reply without a meaning sets out to mark it Failed, an unknown status writes Failed |
| SagaReplies.QueryFaults | order-service/internal/usecase/create_order.go:109-129 | the same of the status query: 500, 502, 503, 504 and unreachable leave the order to be read again, a reply without a meaning is an error without an order, an unknown status writes Failed |
| SagaReplies.AnswerOwn | order-service/internal/usecase/create_order.go:64-97 | the service's own answer: its decision is written, an existing payment is queried behind REST and unavailable behind gRPC, an internal error is unavailable |
| SagaReplies.QueryOwn | order-service/internal/usecase/create_order.go:124-131 | in every run an undisturbed query finds the order's payment and writes Paid exactly if it is Authorized |
| SagaReplies.UnansweredQueryReturnsTheOrder | order-service/internal/usecase/create_order.go:114-121 | in every run: a reconcile query that meets a deadline, a timeout, a refused connection or 500, 502, 503, 504 ends with the unavailable error and the row, or the copy if it cannot be read; one that meets a reply without a meaning ends with an error and no order; nothing is written |
| SagaReplies.UnansweredCallReturnsTheOrder | order-service/internal/usecase/create_order.go:72-89 | in every run: a POST that cannot be answered leaves everything and returns the order with the unavailable error; one that meets a reply without a meaning marks the order Failed and returns it so with that error |
| SagaReplies.MisreadingsAre | order-service/internal/adapter/payment/rest_client.go:52-131 | a reply that can occur is misread if and only if the configured faults hold one of a written-out list: a reset connection, an unexpected code below 500, a 200 without a known status, an unexpected gRPC code |
| SagaGuarantees.AlwaysFits | order-service/internal/usecase/create_order.go:42-137 | the invariant of the saga under every interleaving of creates, retries, cancels, faults and crashes |
| SagaTheorems.PaidRestsOnAuthorized | order-service/internal/usecase/create_order.go:92-103 | an order that was ever Paid has an authorized payment of its own stored amount, which is at most 100000 |
| SagaTheorems.RowCarriesOrderAmount | order-service/internal/usecase/create_order.go:64 | with payments only from CreateOrder, each payment carries its order's stored amount |
| SagaOrders.StoredIsAsked | order-service/internal/usecase/create_order.go:43-53 | in every run each stored order has the trimmed customer and item and the amount of the CreateOrder that made it, which was new then and had valid input, the id and time of that call's insert, and no key leads to it but that call's own |
| SagaOrders.CallsAreAsked | order-service/internal/usecase/create_order.go:47-64 | in every run, with payments only from CreateOrder, each call of the payment service has the trimmed address of one CreateOrder and the id and amount of the order that its transaction returned |
| SagaTheorems.FailedMeansDeclinedIffNoMisreading | order-service/internal/usecase/create_order.go:64-103 | every Failed write rests on a declined payment, in all runs, if and only if no reply that can occur and claims nothing marks an order Failed |
| SagaTheorems.PaidExcludesFailedIffNoMisreading | order-service/internal/usecase/create_order.go:81-105 | no order is ever both Paid and Failed, in all runs, under exactly the same condition |
| SagaRuns.MisreadingFailsUnrecorded | order-service/internal/usecase/create_order.go:81-89 | a reply to Authorize that is read as a generic error or an unknown status lets a run mark an order Failed with no payment stored or even asked for |
| SagaRuns.MisreadingFailsAuthorized | order-service/internal/usecase/create_order.go:81-97 | such a reply to either endpoint lets a run mark it Failed with the payment authorized and its event published |
| SagaRuns.MisreadingOverwritesPaid | order-service/internal/usecase/create_order.go:81-97 | and another overwrite Paid with Failed |
| SagaTheorems.NeverPendingAgain | order-service/internal/usecase/create_order.go:81-105 | every order starts Pending and never returns there |
| SagaTheorems.ArgumentsAreNeverRefused | payment-service/internal/usecase/authorize_payment.go:41-46 | no call made by CreateOrder, replays included, is refused for its arguments or for a missing address |
| SagaTheorems.RecordIsNeverMissing | order-service/internal/usecase/create_order.go:111-113 | "payment record missing after duplicate authorization" is never returned |
| SagaRuns.CancelOverwritesPaid | order-service/internal/usecase/cancel_order.go:19-38 | a run whose order goes Pending, Paid, Cancelled with its payment authorized |
| SagaFinality.SettledIsSafeFromCancelIff | order-service/internal/usecase/cancel_order.go:19-38 | after any run, a settled order is not cancelled in any continuation if and only if no cancel that read it as Pending is about to write |
| SagaFinality.SettledAtRestIsFinal | order-service/internal/repository/postgres/order_repo.go:42-56 | after any run, a settled order that no process still holds as Pending never changes again, whatever comes |
| SagaFinality.OneAtATimeSettlesForGood | order-service/internal/usecase/create_order.go:53-137 | when each use case starts after the ones before it are over, a settled order never changes again, with any faults and crashes |
| SagaAnswers.SuccessTellsTheTruth | order-service/internal/usecase/create_order.go:53-105 | in every run a create or cancel that succeeded returned a stored order as it is but for the status, and that status, never Pending, is one the order has had |
| SagaAnswers.TellsTheAmountIffNoMisreading | order-service/internal/usecase/create_order.go:53-137 | over all runs and behind either adapter, successes report Paid exactly up to 100000 and Failed above it, or Cancelled, if and only if no reply that can occur is misread |
| SagaTheorems.RetryDecides | order-service/internal/usecase/create_order.go:53-137 | behind REST and without misreadings an undisturbed retry ends Paid exactly up to 100000 and Failed above it, unless Cancelled, with at most one new payment and one new event, both of this order |
| SagaPublishing.PaidMeansPublishedIffGrpc | payment-service/internal/usecase/authorize_payment.go:74-94 | with a publisher that reports success only for events taken, every order ever Paid has an accepted event, in all runs, if and only if there is a publisher and the adapter is gRPC |
| SagaRuns.PaidUnpublished | order-service/internal/usecase/create_order.go:108-136 | a run whose order is Paid through the reconcile path after the broker refused the event |
| SagaRetry.RetrySettles | order-service/internal/usecase/create_order.go:53-137 | after any run, an undisturbed retry with a linked key returns the settled order, or settles it by its stored amount exactly if the adapter is REST or no payment is recorded; a recorded payment is never joined by another payment or event |
| SagaRetry.SettleRecorded | order-service/internal/usecase/create_order.go:108-137 | with the payment recorded REST reconciles the order with it and gRPC leaves it as it is |
| SagaRetry.SettleUnrecorded | order-service/internal/usecase/create_order.go:92-105 | with none recorded one payment is stored, one event published if authorized, and the order settles |
| SagaSteps.DbSteps | order-service/internal/repository/postgres/order_repo.go:59-125 | a stretch of one transaction is a run of the saga |
| SagaSteps.PaySteps | payment-service/internal/usecase/authorize_payment.go:48-94 | a stretch of one payment call is a run of the saga |
| EndToEnd.QueueCarriesEvents | payment-service/internal/usecase/authorize_payment.go:83-90 | the messages of the queue are the accepted events, in order |
| EndToEnd.Project | payment-service/internal/infrastructure/rabbitmq/publisher.go:71-113 | a joint run is a run of the saga and a run of the notification service |
| EndToEnd.ReceiptsAreForPayments | notification-service/internal/notify/processor.go:78-113 | each accepted receipt traces back to one stored authorized payment with its id, trimmed order id and amount in 1..100000, whose order had exactly one event; with payments only from CreateOrder it is the stored order's amount, and the receipt goes to the trimmed address of a CreateOrder that was returned this order |
| EndToEnd.PublishedIsNotified | notification-service/internal/notify/processor.go:53-117 | a published event is dead-lettered only as the demo order; acknowledged, it is recorded and was sent; the receipts accepted for it are at most one more than its lost records and unreported sends, and than the faults |
| OrderReads.AlwaysFits | order-service/internal/usecase/get_order.go:24-52 | every cached, in-flight or served order was the row's exact value when it was read |
| OrderReads.ReaderIsServed | order-service/internal/usecase/get_order.go:24-52 | the reader of a stored order is served the live entry if the cache gives it and the row otherwise, whatever the cache's calls do; only a failed read of the database leaves it unserved; a row read is cached for one TTL if the cache takes it |
| OrderReads.StalenessIsBounded | order-service/internal/usecase/get_order.go:30-49 | an order served at s was exactly the row at some r with s - r at most the longest read-to-fill gap up to s, plus less than the TTL for a cache hit; it agrees with today's row on all but the status, which the row has had |
| OrderReads.DeleteEndsStalenessIff | order-service/internal/usecase/create_order.go:35-40 | after any run that ends in a delete, cache hits return the row until the next update if and only if no reader still holds an older value it has not yet cached |
| OrderReads.OldFillIsServed | order-service/internal/usecase/get_order.go:39-49 | such a reader fills the old value and the next GET serves it |
| OrderReads.CoherentLasts | order-service/internal/usecase/get_order.go:30-49 | a coherent entry stays coherent through every step but an update of its order |
| OrderService.OrderCache.Get | order-service/internal/infrastructure/rediscache/order_cache.go:29-46 | the entry while it lives, otherwise a miss |
| OrderService.OrderCache.Set | order-service/internal/infrastructure/rediscache/order_cache.go:48-60 | the order under its own id for one TTL; a failed call may have been applied |
| OrderService.OrderCache.Delete | order-service/internal/infrastructure/rediscache/order_cache.go:62-70 | removes the entry; a blank id does nothing; a failed call may have been applied |
| OrderService.PaymentClient.Authorize | order-service/internal/adapter/payment/rest_client.go:35-80 | the answer is the mapping of the service's own reply, or of a reply that says nothing; in the second case the call may or may not have been served |
| OrderService.PaymentClient.GetStatus | order-service/internal/adapter/payment/rest_client.go:83-117 | the mapping of the stored payment's status, of 404 without one, or of a reply that says nothing |
| OrderService.UseCases.Invalidate | order-service/internal/usecase/create_order.go:35-40 | a delete whose failure is ignored; without a fault the order is no longer stale |
| OrderService.UseCases.Place | order-service/internal/usecase/create_order.go:46-61 | the order stored is the Pending one with the trimmed customer and item, the amount, the id and the time given; a linked key replays its order instead; the saga goes on to payment exactly if the order is Pending |
| OrderService.UseCases.AskPayment | order-service/internal/usecase/create_order.go:63-90 | the saga's step for the answer; without a fault the reply is 409, or Internal behind gRPC, for a recorded payment, and otherwise Authorized exactly if the amount is at most 100000 |
| OrderService.UseCases.SettleStatus | order-service/internal/usecase/create_order.go:92-105 | writes what the status says, then invalidates; it succeeds exactly if no store fails, and on an error the order is written or not and the cache is left |
| OrderService.UseCases.GiveUp | order-service/internal/usecase/create_order.go:81-89 | after a generic error: Failed is written and the entry deleted unless a fault intervenes, and the row, or the copy marked Failed, is returned with the error |
| OrderService.UseCases.Refresh | order-service/internal/usecase/create_order.go:72-79 | the row exactly if it can be read and the copy in hand otherwise; nothing is written |
| OrderService.UseCases.AskStatus | order-service/internal/usecase/create_order.go:109 | the saga's step for the status; without a fault it is the payment's, decided by the amount |
| OrderService.UseCases.Reconcile | order-service/internal/usecase/create_order.go:108-137 | by codes and transports (`Reconciled`): an unreachable service returns the order unchanged with the unavailable error, Authorized settles it Paid and another status Failed, any other reply is an error without an order; the missing-record error never happens |
| OrderService.UseCases.ActOn | order-service/internal/usecase/create_order.go:64-105 | by codes and transports (`PaidAsTold`): what the reply to the POST comes to, with the reply to the status query when the payment was recorded already |
| OrderService.UseCases.Pay | order-service/internal/usecase/create_order.go:63-105 | a Pending order stays, or settles, as the replies say; success means settled by its own amount; without a fault the replies are the service's own and only a recorded payment behind gRPC fails |
| OrderService.UseCases.PlaceAndPay | order-service/internal/usecase/create_order.go:53-105 | valid input: the order is placed or found, and paid for if it is Pending |
| OrderService.UseCases.CreateOrder | order-service/internal/usecase/create_order.go:42-106 | a run of the saga: the invalid-input error exactly for invalid input, which changes nothing; a new order has the trimmed fields, amount, id and time given, and a linked key returns its own order; settled orders are never touched; without a fault it succeeds, Paid exactly if the amount is at most 100000, but for a recorded payment behind gRPC; each error is deserved and carries an order or none as the source does |
| OrderService.UseCases.CancelOrder | order-service/internal/usecase/cancel_order.go:19-38 | a run of the saga: exactly Pending orders are cancelled, nothing else changes, and each error occurs exactly when it is deserved |
| OrderService.UseCases.FillCache | order-service/internal/usecase/get_order.go:44-49 | the row just read is cached for one TTL, with a positive TTL, and a failure is ignored |
| OrderService.UseCases.GetOrder | order-service/internal/usecase/get_order.go:24-52 | the error is answered if and only if the read of the database failed, whatever the cache does; an order that is not stale is answered as its row, a stale one differs in its status only; with a working cache a live entry is served as it is and a miss is filled |
| StreamProtocol.AlwaysFits | order-service/internal/transport/grpc/server.go:54-204 | the invariant of registry, arrays, monitor and hand-overs with every locked section, poll and read of a cell interleaved |
| StreamProtocol.ListedExactly | order-service/internal/transport/grpc/server.go:71-92 | in every run a client is listed exactly from its registration to its removal, for good if its first send failed; each once, under its own order, in order of registration; no list is empty; and the slices over the arrays show just these lists |
| Subscriptions.RegistryHoldsSurvivors | order-service/internal/transport/grpc/server.go:71-74 | after any subscriptions and removals each order lists exactly those added and not removed afterwards |
| Subscriptions.AppendedShows | order-service/internal/transport/grpc/server.go:73 | on the shared arrays, append in place or in a new array adds the subscriber at the end of its order's list and changes no other list |
| Subscriptions.RemovedShows | order-service/internal/transport/grpc/server.go:193-203 | on the shared arrays, the in-place deletion takes the first occurrence out of its order's list, forgets an empty list, and changes no other |
| Subscriptions.DropFirstIsDeletion | order-service/internal/transport/grpc/server.go:193-199 | deleting at the first match is removing that subscriber and keeping the order of the rest |
| StreamProtocol.AnnouncesChanges | order-service/internal/transport/grpc/server.go:98-140 | in every run, whatever subscriptions change between the polls, the statuses announced for an order are its polled ones with consecutive repeats removed and the first dropped, and the last polled one is remembered |
| StreamProtocol.PollsReadTheRow | order-service/internal/transport/grpc/server.go:124-128 | in every run each status the monitor has seen was in the order's row when it looked |
| StreamProtocol.SnapshotsReadTheRow | order-service/internal/transport/grpc/server.go:55-69 | in every run what a client is to be sent first was in the order's row when its stream was opened |
| StreamDelivery.ServedIffUndisturbed | order-service/internal/transport/grpc/server.go:164-204 | in every run: wherever one lets the hand-over under way finish, the clients of an order have been handed each of its announcements since their registration, once and in order, if and only if no removal or registration has overwritten a cell that a loop of this order had yet to read |
| StreamDelivery.FinishedIsARun | order-service/internal/transport/grpc/server.go:164-186 | letting the hand-over under way finish is a continuation of the run: the list is read if it was not yet, and its cells are handed out |
| StreamDelivery.RemovalSkipsAndRepeats | order-service/internal/transport/grpc/server.go:178-196 | a run in which a removal inside the loop leaves one listed client without the latest status and hands it to another twice |
| StreamDelivery.HandsOverEveryAnnouncement | order-service/internal/transport/grpc/server.go:164-186 | in every run, as long as no loop of its order has been disturbed since its registration, a listed client has been handed, with what is on its way, every announcement of its order since then, each once and in order, and its first status once if that send went through |
| StreamDelivery.HandsOverFromAnyPoint | order-service/internal/transport/grpc/server.go:164-186 | whatever was disturbed before: from any point between two loops of its order, a listed client is handed the announcements made from then on, each once and in order, as long as no later loop is disturbed |
| StreamDelivery.CaughtUpIff | order-service/internal/transport/grpc/server.go:54-204 | in every run, as long as no loop of its order has been disturbed since its registration and with nothing on its way, the latest polled status is among what a greeted client was handed if and only if it was the first status, or an announcement was pending at the registration, or a later poll differed from the baseline |
| StreamDelivery.SnapshotCanComeLast | order-service/internal/transport/grpc/server.go:71-88 | a run that hands a client the latest status and after it the stale first one |
| StatusStream.Append | order-service/internal/transport/grpc/server.go:73 | append: in the same array while there is room, in a new one otherwise, the old one untouched |
| StatusStream.DeleteAt | order-service/internal/transport/grpc/server.go:196 | the in-place shift removes exactly the element at the index, and the cells from the last one of the slice on keep what they hold |
| StatusStream.Registry.Add | order-service/internal/transport/grpc/server.go:71-74 | the lists have the new subscriber at the end of its own, and every array ever allocated holds, cell by cell, what the protocol's does |
| StatusStream.Registry.RemoveSubscriber | order-service/internal/transport/grpc/server.go:189-204 | the lists are without that subscriber, none is empty, and every array holds, cell by cell, what the protocol's does |
| StatusStream.OrderServer.OpenStream | order-service/internal/transport/grpc/server.go:55-69 | a blank or unknown order is refused, otherwise the row's status is what the client will be sent first |
| StatusStream.OrderServer.RegisterStream | order-service/internal/transport/grpc/server.go:71-74 | the registration of the protocol, on the arrays |
| StatusStream.OrderServer.SendSnapshot | order-service/internal/transport/grpc/server.go:79-88 | the first status is handed over, or the handler is over with its client still listed |
| StatusStream.OrderServer.EndStream | order-service/internal/transport/grpc/server.go:90-92 | the removal of the protocol, on the arrays |
| StatusStream.OrderServer.Observe | order-service/internal/transport/grpc/server.go:124-139 | a poll of the protocol: without an error the row's status is remembered, and announced exactly if another one was remembered; an error leaves both as they are |
| StatusStream.OrderServer.HandOver | order-service/internal/transport/grpc/server.go:178-185 | the subscriber that the live array's cell holds at that moment is handed the update, as a step of the protocol |
| StatusStream.OrderServer.NotifySubscribers | order-service/internal/transport/grpc/server.go:164-186 | the slice's header is read under the lock and its cells are handed out one by one, other handlers shifting and reusing them in between, as a run of the protocol |
| StatusStream.OrderServer.CheckForUpdates | order-service/internal/transport/grpc/server.go:115-140 | one round, with subscriptions and rows changing at any point, is a run of the protocol: each order that had subscribers at its start is polled exactly once unless a read fails, and no other |

## Left out

- Generated protobuf code, HTTP handlers, routers, DTOs, interceptors, logging and the streaming client: no protocol logic; the reply codes of the payment endpoints are kept in `PaymentAdapter`.
- Process start-up, environment parsing, dialing, queue declaration and graceful shutdown: only the bounds on attempts, backoff and deadline are kept, and a shutdown as a label.
- Mailjet, simulated latency and failure rates: the provider accepts a receipt or not and reports success or not.
- JSON: a message body is malformed or a payload; a cached value always decodes.
- Publisher confirms: the broker may take an event and the publisher may report either outcome, independently.
- gRPC transport: the client is the mapping of its status codes.
- SQL beyond what is used: read-committed visibility and unique keys are modelled, other isolation effects are not.
- Time: an order's creation time and the clock are integers; clock skew between services is not modelled.
- Foreign keys with ON DELETE CASCADE: nothing deletes orders.
- The order in which a stream sends what it was handed, and a double close of `done`: the code promises no order there.
- The memory model of Go: the loop's read of a cell and a removal's shift of the cells are each one step here; the code has no lock between them.
- OrderService.UseCases.CreateOrder: use cases run one at a time here; what interleavings keep is stated about the saga instead.
- OrderService.UseCases.GetOrder: no update happens between its steps here; the interleaved reads are stated in `OrderReads`.
- StatusStream.OrderServer.NotifySubscribers: a hand-over is the start of a send; whether the stream takes it is not modelled, and a removal may follow any announcement handed over.
- NotificationService.Consumer.Drain: a queue that keeps growing is not drained; the claim is about a queue that no longer grows.
