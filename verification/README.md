# The order saga, verified

Four services - order, inventory, payment and notification - each keep a PostgreSQL database and talk only
through transactional outboxes, Kafka topics and idempotent consumers:

    order.created -> inventory.reserved | rejected -> payment.authorized | failed
                  -> order.confirmed | cancelled -> inventory.released -> notification

This project models that saga in Dafny and proves what holds in every run of it. `dafny verify dfyconfig.toml`
checks everything.

## How the model is built

* **Transactions.** For each service a datatype holds its tables, and a function of the tables gives the
  meaning of each transaction: the new tables, or the error with which it rolls back (`Inventory`, `Orders`,
  `Payments`, `Notifications`). Beside it stands a class whose fields are the tables and whose methods follow
  the repository and service code statement by statement, with its loops, early exits and `defer tx.Rollback`
  (`InventoryRepositories`, `OrderRepositories`, `PaymentRepositories`, `NotificationRepositories`). A parameter
  `fails(n)` lets any statement meet a database fault. Every method is proved to do what the function says, or to
  change nothing. What the functions answer - every row, column, text and error - is stated without them in
  `InventoryOutcomes`, `OrderOutcomes`, `PaymentOutcomes` and `Notifications`. CHECKs, primary keys, unique keys,
  INTEGER and BIGINT ranges and int64 wrap-around are part of both.
* **Publishers and consumers.** `Outboxes` and `OutboxPublishers` have the outbox query, the polling loop and its
  three ways to fail; `Consumers` has the fetch-handle-commit loop. Both are proved to be runs of steps of the
  whole system (`SagaPublishing.BatchIsSagaSteps`, `Consumers.Consumer.Run`). One publisher class stands for the
  three (they differ in the batch limit, in when the first poll happens and in what they log) and one consumer
  class for the four (inventory's has no type filter of its own, its service passes other types over).
* **The system.** `Saga` composes four databases, any number of partitions per topic and a reader per group and
  partition. Its steps - place an order, publish, mark, record a failure, consume, redeliver, restart - interleave
  freely; publications repeat, handlers fault, commits are lost. `SagaInvariant` and `SagaSafety` state one
  invariant over all of it and prove that every step keeps it. The theorems about runs follow from it
  (`SagaLines`, `SagaTheorems`, `SagaStock`, `SagaOffsets`, `SagaLoss`, `SagaResolution`, `SagaErrors`,
  `SagaTermination`), and `SagaExamples` has concrete runs that go wrong.
* **Inside one database.** `Interleaving` splits reserve and release into single statements under row locks;
  `SoloTransactions` shows that an undisturbed transaction means what `Inventory` says, and `Serializability`
  that any interleaving commits what the committed ones would do one after the other.

Event ids are the datatype `EventId`; module `EventIds` shows that the stored strings identify the same events, for
the ids the saga derives (`EventIds.StoredKeysNeverCollide`) and for events from elsewhere under plain text ids
(`EventIds.PlainTextKeysNeverCollide`). The theorems about arbitrary events are to be read for one such kind of id at
a time: the plain text `a-created` and the id derived from `a` are two values of the datatype, but one stored key.

## What turned out false, and when it is true

* The documentation says that Kafka offsets are committed only after successful handling (README.md:45). The loops
  `continue` after a handler error, so a later commit on the partition covers the failed message.
  `SagaExamples.ThisRunLosesAnOrder` is a run from deployment after which an order stays pending however the system
  goes on; `SagaOffsets.FaultThenCommitSkips` and `SagaLoss.FaultThenCommitLoses` are the whole family.
  `SagaOffsets.CommitIsSafeIff` says exactly when a commit is safe, `SagaOffsets.RunIsSafeIff` exactly when a run is.
  `SagaOffsets.CommittedMessagesAreDone` and
  `SagaResolution.CommittedToTheEndIsResolved` hold when the process restarts after a handler error before it
  commits again on that partition.
* The documentation says that the reservations table lets a cancellation restore stock exactly once
  (services/inventory-service/README.md:15). The release is exactly once, but `ON CONFLICT DO NOTHING` records
  only the first line of a repeated product. `SagaStock.CompensationIsExactlyOnce` proves that the units returned
  equal the units taken if and only if the order lists no product twice; in `SagaExamples.ThisRunReturnsTooLittle` an
  order of two lines reserves two units and its cancellation returns one.
* An order that repeats a product can pass the check of every line and still trip the CHECK on
  `available_quantity`; its event then fails as long as the stock is no larger
  (`StockTheorems.RepeatedProductCanFail`, `StockTheorems.TakeStockOutcome`). This is the one handler error a
  healthy database can produce, besides a payment id that cannot be drawn or is taken
  (`SagaErrors.HandlerFailsIff`), and it is the only way in which a fault-free schedule ends without every order
  resolved: `SagaTermination.SagaAlwaysResolves` proves that it does exactly when no reader is blocked on such an
  order.
* An order's total and its payment agree always, but they are the true sum only below 2^63
  (`Amounts.AmountIsExactBelowBound`, `SagaTheorems.AmountsAgree`); `SagaExamples.ThisTotalWraps` is an order the
  service accepts whose true sum is 2^64 and whose stored total is 0.
* Nothing consumes `inventory.rejected`: a rejected order stays pending for good, which is one of the three ends in
  `SagaResolution.QuiescentIsResolved`.

## Model

| member | source | states |
|---|---|---|
| SagaSafety.RunKeeps | README.md:29-45 | the global invariant (every committed step has its marker, follow-up row and effect; logs hold only rows; readers stay in range) holds after every run from deployment |
| SagaSafety.StepKeeps | services/order-service/internal/outbox/publisher.go:41-60 | any single step, enabled or not, keeps the invariant and takes back no sent message, outbox row or handled event |
| SagaInvariant.HandleKeeps | services/payment-service/internal/infrastructure/postgres/payment_repository.go:22-124 | any successful handling of a saga event by any group keeps the agreement of the four databases |
| SagaInvariant.ReserveEffect | services/inventory-service/internal/infrastructure/postgres/inventory_repository.go:65-81 | a first handling of order.created finds no earlier trace of the order and leaves exactly its one result row, with the ordered lines |
| SagaInvariant.ReleaseEffect | services/inventory-service/internal/infrastructure/postgres/inventory_repository.go:98-141 | a first handling of order.cancelled finds every reserved row of the order live and releases them all |
| SagaTheorems.ServicesAgree | services/order-service/internal/infrastructure/postgres/order_repository.go:148-257 | in every reachable state a confirmed order has one payment, authorized, of its total within the limit and holds its stock; a cancelled one has one payment, failed, above the limit; the ordered lines are the stored order_items and the total is their fold; only cancelled orders have released rows |
| SagaLines.StoredLinesAreOrdered | services/order-service/internal/infrastructure/postgres/order_repository.go:51-77 | in every reachable state the order_items rows of an order are the lines its events carry, and its stored total is their int64 fold |
| SagaTheorems.AmountsAgree | services/payment-service/internal/service/payment_service.go:47-53 | every payment is for an existing order and equals its stored total even when int64 wraps, and is the true sum iff that is below 2^63 |
| SagaTheorems.MailsMatchOutcomes | services/notification-service/internal/service/notification_service.go:24-62 | over any run each order has at most one notification and it tells the order's final status |
| SagaTheorems.ReasonsAgree | services/notification-service/internal/service/notification_service.go:49-55 | in every reachable state a cancelled order's payment row, cancellation, released stock and mail all name the exceeded limit; a confirmed order's payment has no reason and its mail names that payment; a rejection names a stored line inventory is short of |
| SagaTheorems.CancellationFollowsReservation | services/order-service/internal/infrastructure/postgres/order_repository.go:200-206 | an order has one cancellation event at most, and when it can be read its reservation has been processed |
| SagaResolution.QuiescentIsResolved | README.md:29-43 | with every row published and every message done, each order is confirmed, held and notified, or cancelled, released and notified, or rejected and holding nothing |
| SagaResolution.CommittedToTheEndIsResolved | README.md:29-45 | end to end: in a disciplined run, all rows published and all offsets committed to the end means every order is resolved |
| SagaTermination.TurnGetsCloser | services/order-service/internal/outbox/publisher.go:47-59 | each publish-and-mark and each handling strictly lowers the potential (work left per order, unread messages) |
| SagaTermination.SomeTurnIsEnabled | services/inventory-service/internal/infrastructure/kafka/kafka.go:26-51 | while something is outstanding some publish or consume turn can be taken, or an inventory reader is blocked on an order that overdraws a product with several lines |
| SagaTermination.RanksAreBounded | services/order-service/internal/infrastructure/postgres/order_repository.go:93-105 | at most ten publications and first handlings are left per order |
| SagaTermination.SchedulesAreBounded | services/order-service/internal/outbox/publisher.go:27-39 | every fault-free schedule has at most as many turns as the potential it starts from |
| SagaTermination.ExhaustedScheduleResolves | README.md:29-43 | where no turn is left the system is quiescent, and every order resolved, exactly unless some reader is blocked |
| SagaTermination.SagaAlwaysResolves | README.md:29-45 | recovery, for any orders: after any disciplined run with faults, once failed readers have restarted, every fault-free schedule is finite, and an exhausted one has resolved every order exactly unless a reader is blocked |
| SagaTermination.DistinctOrdersAlwaysResolve | README.md:29-45 | when no order repeats a product an exhausted schedule has resolved them all |
| SagaTermination.BlockedIsUnresolved | services/inventory-service/internal/infrastructure/postgres/inventory_repository.go:55-58 | the order a reader is blocked on is not resolved and lists some product twice |
| SagaStock.RunConservesStock | services/inventory-service/migrations/001_create_inventory.sql:1-7 | any run at all: available + reserved per product never changes, both stay in range, reserved covers the live reservations |
| SagaStock.CountersRefineReservations | services/inventory-service/internal/infrastructure/postgres/inventory_repository.go:54-63 | in every run whose orders list a product once, both counters are exactly what the reservations table says |
| SagaStock.UnitsFollowTheEvents | services/inventory-service/internal/infrastructure/postgres/inventory_repository.go:56-61 | units moved for an order over a run are what its reservation took and its release returned, once each |
| SagaStock.CompensationIsExactlyOnce | services/inventory-service/README.md:15 | after order.cancelled is handled no later step moves the order's units, and returned equals taken iff no product is repeated |
| SagaStock.RecordedIsTakenIffDistinct | services/inventory-service/internal/infrastructure/postgres/inventory_repository.go:59 | reservation rows record all units taken iff no product is repeated |
| SagaOffsets.CommittedMessagesAreDone | services/inventory-service/internal/infrastructure/kafka/kafka.go:26-51 | if each handler error is followed by a restart before the next commit, everything below a committed offset was handled, malformed or ignored |
| SagaOffsets.CommitIsSafeIff | services/inventory-service/internal/infrastructure/kafka/kafka.go:41-48 | a commit keeps all offsets safe iff every message between the committed offset and this one was already done or is a copy of it |
| SagaOffsets.FaultThenCommitSkips | services/order-service/internal/infrastructure/kafka/payment_consumer.go:67-75 | an unhandled message followed by a different one that commits always leaves the first one below the committed offset |
| SagaOffsets.RunIsSafeIff | services/inventory-service/internal/infrastructure/kafka/kafka.go:26-51 | a run keeps all offsets safe at every moment iff each of its commits leaves nothing undone behind but copies of its own message |
| SagaLoss.LostForGood | services/inventory-service/internal/infrastructure/kafka/kafka.go:41-44 | an unhandled event whose row is published and whose copies are all below committed offsets is never handled, whatever is placed, published, consumed and restarted later |
| SagaLoss.LostOrderStaysPending | services/inventory-service/internal/service/inventory_service.go:22-34 | an order whose order.created is lost to inventory stays pending for good |
| SagaLoss.FaultThenCommitLoses | services/order-service/internal/infrastructure/kafka/payment_consumer.go:67-75 | a handler error on a published message, its last copy, followed by a successful turn on another loses it for good |
| SagaExamples.ThisRunLosesAnOrder | services/inventory-service/internal/infrastructure/kafka/kafka.go:41-44 | a concrete run from deployment that commits past an order nobody handled, which then stays pending in every continuation |
| SagaExamples.ThisRunReturnsTooLittle | services/inventory-service/internal/infrastructure/postgres/inventory_repository.go:54-63 | a concrete run from deployment in which an order of two lines of one product reserves two units and its release returns one |
| SagaExamples.ThisTotalWraps | services/order-service/internal/service/order_service.go:59-74 | the service accepts four units at 2^62 and stores the total 0, the true sum being 2^64 |
| SagaOffsets.CommittedIsNeverRefetched | services/notification-service/internal/infrastructure/kafka/consumer.go:26-55 | a reader's offset and cursor never go back below a committed offset |
| SagaErrors.HandlerFailsIff | services/order-service/internal/infrastructure/postgres/order_repository.go:148-209 | with the invariant, a handler fails iff a statement faults, the payment id is missing or taken, or lines of one product overdraw it together; not-found, unsupported-transition and cannot-release never happen |
| SagaErrors.ReachableHandlerFailsIff | services/inventory-service/internal/infrastructure/postgres/inventory_repository.go:118-126 | the same for every message of every partition in every run |
| SagaErrors.DistinctLinesNeverOverdraw | services/inventory-service/internal/infrastructure/postgres/inventory_repository.go:37-53 | one line per product rules the overdraw out |
| Deliveries.RedeliveryIsHarmless | services/inventory-service/internal/infrastructure/postgres/inventory_repository.go:26-33 | any deliveries to the four groups, repeated and failing, end in the state of the first successful ones alone |
| Deliveries.FirstSuccessesAreDistinct | services/payment-service/internal/infrastructure/postgres/payment_repository.go:35-49 | the kept deliveries contain no event twice per group |
| Deliveries.SettledIsUnchanged | services/notification-service/internal/infrastructure/postgres/notification_repository.go:23-29 | a repeated or ignored delivery that succeeds changes nothing |
| Serializability.CommitOrderIsSerial | services/inventory-service/internal/infrastructure/postgres/inventory_repository.go:21-142 | any reserve and release requests, duplicated and faulting, interleaved statement by statement, commit exactly what the committed ones do one after the other in commit order; each takes effect, and of duplicates at most one commits |
| Serializability.LiveRowsAreExclusive | services/inventory-service/internal/infrastructure/postgres/inventory_repository.go:98 | of two releases of one order past their SELECT FOR UPDATE, one about to commit has found no live row |
| Serializability.RollbackHasCause | services/inventory-service/internal/infrastructure/postgres/inventory_repository.go:75-80 | a transaction rolls back by itself only if it would fail alone on the present state or a duplicate has committed |
| Serializability.InterleavingConservesStock | services/inventory-service/internal/infrastructure/postgres/inventory_repository.go:54-63 | stock is conserved in every committed state of every interleaving |
| Serializability.Frame | services/inventory-service/internal/infrastructure/postgres/inventory_repository.go:39 | what a transaction has done so far does not depend on rows outside its locks |
| Serializability.CommitSparesOthers | services/inventory-service/internal/infrastructure/postgres/inventory_repository.go:91 | a commit leaves every other running transaction as if it ran alone on the new state, or unable to commit |
| SoloTransactions.SoloCommit | services/inventory-service/internal/infrastructure/postgres/inventory_repository.go:35-81 | a transaction run alone that reaches COMMIT installs exactly the tables its meaning prescribes |
| SoloTransactions.SoloCommitsIff | services/inventory-service/internal/infrastructure/postgres/inventory_repository.go:84-142 | alone, a transaction reaches COMMIT iff its meaning succeeds |
| StockTheorems.TakeStockOutcome | services/inventory-service/internal/infrastructure/postgres/inventory_repository.go:35-71 | exactly when the two loops reserve, reject (naming the first failing line, changing nothing) or hit the CHECK, for positive lines with or without repeated products |
| StockTheorems.ReserveIsAllOrNothing | services/inventory-service/internal/infrastructure/postgres/inventory_repository.go:35-63 | with one line per product: never an error; all lines taken and recorded iff each has enough stock, otherwise nothing changes |
| StockTheorems.RepeatedProductCanFail | services/inventory-service/internal/infrastructure/postgres/inventory_repository.go:48-58 | a repeated product can pass every check and still fail the transaction |
| StockTheorems.ReleaseReturnsOwnUnits | services/inventory-service/internal/infrastructure/postgres/inventory_repository.go:118-126 | on conserved stock a release never fails and returns exactly the order's live units |
| StockTheorems.ReserveKeepsConserved | services/inventory-service/internal/infrastructure/postgres/inventory_repository.go:21-82 | any reservation, whatever its lines, keeps the stock conserved |
| StockTheorems.ReleaseKeepsConserved | services/inventory-service/internal/infrastructure/postgres/inventory_repository.go:84-142 | a release can only fail on a taken outbox key; it keeps stock conserved and exact counters exact |
| StockTheorems.StockIsConserved | services/inventory-service/migrations/001_create_inventory.sql:1-7 | conservation after any sequence of reserve and release requests, arbitrary events included |
| StockAccounting.CheckLinesFindsFirst | services/inventory-service/internal/infrastructure/postgres/inventory_repository.go:37-53 | the check loop passes iff every line alone finds enough, else it names the first that does not |
| StockAccounting.MoveLinesIffEnough | services/inventory-service/internal/infrastructure/postgres/inventory_repository.go:54-63 | the update loop succeeds iff each product has enough for all its lines together, and moves exactly those units |
| StockAccounting.MoveLinesRows | services/inventory-service/migrations/002_create_inventory_reservations.sql:1-9 | exactly which reservation rows the loop inserts: one per new product, with its first line's quantity |
| StockAccounting.LiveAfterRelease | services/inventory-service/internal/infrastructure/postgres/inventory_repository.go:127-130 | releasing an order takes exactly its own live rows out of the per-product sums |
| InventoryRepositories.InventoryRepository.ReserveForOrder | services/inventory-service/internal/infrastructure/postgres/inventory_repository.go:21-82 | the statements in order, with any fault: on success the meaning of the reservation, on error the tables as before, and no error without a cause |
| InventoryRepositories.InventoryRepository.SelectLiveLines | services/inventory-service/internal/infrastructure/postgres/inventory_repository.go:98-114 | reads the order's live reservations, each once, by product |
| InventoryRepositories.InventoryRepository.ReleaseForOrder | services/inventory-service/internal/infrastructure/postgres/inventory_repository.go:84-142 | the same for the compensation |
| InventoryRepositories.InventoryService.HandleEvent | services/inventory-service/internal/service/inventory_service.go:22-50 | dispatch by type with the order-id fallback; other types succeed and change nothing |
| InventoryOutcomes.ReservationAnswer | services/inventory-service/internal/infrastructure/postgres/inventory_repository.go:35-80 | a first order.created writes one row at the transaction's time: reserved with the order's lines when each fits, otherwise rejected, naming the first line that does not with what it asked and what there was, and changing no stock |
| InventoryOutcomes.ReservationRefusal | services/inventory-service/internal/infrastructure/postgres/inventory_repository.go:54-63 | a reservation of positive lines fails only on a taken outbox key or when lines that fit alone overdraw a product together |
| InventoryOutcomes.ReleaseAnswer | services/inventory-service/internal/infrastructure/postgres/inventory_repository.go:98-141 | a first order.cancelled, for its order or its aggregate, releases that order's rows and no others and announces the live ones by product with the cancellation's reason; without live rows it announces nothing |
| InventoryOutcomes.NothingToAnswer | services/inventory-service/internal/service/inventory_service.go:22-50 | processed events and other types change nothing; undecodable payloads of the two types are refused |
| ProductOrder.LeIsLexicographic | services/inventory-service/internal/infrastructure/postgres/inventory_repository.go:98 | product order is by characters: a prefix first, else the smaller character at the first difference |
| OrderTheorems.CreatedOrderReadsBack | services/order-service/internal/infrastructure/postgres/order_repository.go:33-67 | round trip: whatever comes before and after, GetByID returns the created order with its items in order |
| OrderTheorems.TotalsStayFolds | services/order-service/internal/infrastructure/postgres/order_repository.go:263-291 | after any operations every order reads back with the int64 fold of the items it reads back with as its total |
| OrderTheorems.CreateSucceedsIff | services/order-service/migrations/001_create_orders.sql:1-21 | an order is stored iff its columns fit and neither its id nor its event id is taken |
| OrderTheorems.OutboxAlwaysMatchesStatus | services/order-service/internal/infrastructure/postgres/order_repository.go:162-257 | the outbox holds exactly one outcome event, of the order's status, iff the order is settled, never both |
| OrderTheorems.SettledStaysSettled | services/order-service/internal/infrastructure/postgres/order_repository.go:162-175 | a settled order's row never changes again |
| OrderOutcomes.CreationAnswer | services/order-service/internal/infrastructure/postgres/order_repository.go:33-112 | a stored order's columns, and its order.created event with id, customer, currency, total and items, written at the order's own time |
| OrderOutcomes.CreationRefusal | services/order-service/migrations/001_create_orders.sql:1-21 | an order is refused for a long currency, a column out of range, or a taken key, and for nothing else |
| OrderOutcomes.CharThree | services/order-service/migrations/001_create_orders.sql:5 | CHAR(3) keeps three characters, padded with blanks, and refuses text that is not blank beyond them |
| OrderOutcomes.StatusAnswer | services/order-service/internal/infrastructure/postgres/order_repository.go:131-260 | the whole status machine: processed, unknown, settled and pending orders; the pending one takes status and time, keeps its other columns and announces payment or reason |
| OrderOutcomes.StatusRefusal | services/order-service/internal/service/payment_event_service.go:35-76 | undecodable payloads and other types are refused |
| OrderOutcomes.ReadShowsRow | services/order-service/internal/infrastructure/postgres/order_repository.go:263-291 | an order reads back with the columns of its row and its lines by number; a missing one is not found |
| OrderOutcomes.StatusReadsBack | services/order-service/internal/infrastructure/postgres/order_repository.go:265-277 | after any operations the status read back is the one the outbox announces, and pending iff nothing is announced |
| OrderRepositories.OrderRepository.Create | services/order-service/internal/infrastructure/postgres/order_repository.go:26-114 | order row, numbered lines and outbox row, or nothing at all |
| OrderRepositories.OrderRepository.ApplyPaymentEvent | services/order-service/internal/infrastructure/postgres/order_repository.go:116-261 | the status machine with its ignored, missing and unsupported cases; errors change nothing |
| OrderRepositories.OrderRepository.LoadItems | services/order-service/internal/infrastructure/postgres/order_repository.go:335-359 | the order's lines by line number |
| OrderRepositories.OrderRepository.GetByID | services/order-service/internal/infrastructure/postgres/order_repository.go:263-291 | the stored order with its items, or not found |
| OrderRepositories.OrderRepository.ListByCustomer | services/order-service/internal/infrastructure/postgres/order_repository.go:293-333 | each of the customer's orders exactly once and no other, newest first, with its own items |
| OrderRepositories.ListingShowsRows | services/order-service/internal/infrastructure/postgres/order_repository.go:305-332 | every listed order shows the columns of its row and its own lines |
| OrderRepositories.OrderService.CheckAndAdd | services/order-service/internal/service/order_service.go:59-74 | the first invalid line's error, or the trimmed lines and their wrapped total |
| OrderRepositories.OrderService.CreateOrder | services/order-service/internal/service/order_service.go:45-98 | validation errors in the source's order; otherwise the normalised order is stored; a failure changes nothing |
| OrderRepositories.PaymentEventService.HandleEvent | services/order-service/internal/service/payment_event_service.go:31-77 | authorized confirms, failed cancels, anything else is refused |
| Orders.NewOrderIsValid | services/order-service/internal/service/order_service.go:49-90 | an accepted order has valid lines, each the trimmed input line with a non-blank product, and their fold as its total |
| OrderOutcomes.AcceptedOrder | services/order-service/internal/service/order_service.go:45-91 | an accepted order: customer, currency and products without surrounding white space and non-empty, the currency in capitals, lines otherwise as given, total their wrapped sum, pending, both times that of the call |
| OrderOutcomes.InputRefusal | services/order-service/internal/service/order_service.go:49-71 | exactly which inputs are refused with which error, in the order of the checks, the first faulty line deciding |
| OrderOutcomes.TrimSpaceStrips | services/order-service/internal/service/order_service.go:46-47 | trimming takes off all white space at both ends and nothing else, and leaves nothing iff all is white space |
| PaymentRepositories.PaymentRepository.ProcessPayment | services/payment-service/internal/infrastructure/postgres/payment_repository.go:22-124 | payment, outbox and marker together or not at all; one payment per order |
| PaymentRepositories.PaymentService.AddUp | services/payment-service/internal/service/payment_service.go:47-53 | an error iff some line is invalid, otherwise the int64 fold |
| PaymentRepositories.PaymentService.HandleEvent | services/payment-service/internal/service/payment_service.go:37-92 | authorizes up to the limit and declines above it, recording the reason |
| PaymentOutcomes.PaymentAnswer | services/payment-service/internal/service/payment_service.go:60-83 | a first inventory.reserved stores one payment of the wrapped sum and announces it at the same time: authorized without a reason up to the limit, failed above it with the exceeded limit in row and event |
| PaymentOutcomes.PaymentRefusal | services/payment-service/internal/service/payment_service.go:47-58 | why an inventory.reserved is refused: an invalid line, no id, a negative wrapped sum, or a taken key |
| Amounts.AmountWrapsExactAmount | services/payment-service/internal/service/payment_service.go:47-53 | wrapping at every addition equals one wrap of the exact sum |
| Amounts.AmountIsExactBelowBound | services/order-service/internal/service/order_service.go:59-74 | for valid lines the fold is exact iff the sum is below 2^63, and then no partial sum overflows |
| Notifications.MailsStayOneToOne | services/notification-service/migrations/001_create_notifications.sql:1-32 | after any events markers, notifications and delivery log are in bijection, and no insert ever meets a taken key |
| NotificationRepositories.NotificationRepository.StoreDelivered | services/notification-service/internal/infrastructure/postgres/notification_repository.go:17-42 | three inserts or none; created only on the first delivery |
| NotificationRepositories.NotificationService.HandleEvent | services/notification-service/internal/service/notification_service.go:24-62 | the mail of the outcome with both fallbacks, or the source's errors |
| Notifications.MailAnswer | services/notification-service/internal/service/notification_service.go:36-57 | a first outcome stores one mail for its order or aggregate: the payment of a confirmation, the reason of a cancellation, or the default text iff it has none |
| Notifications.CreatedOnce | services/notification-service/internal/infrastructure/postgres/notification_repository.go:23-41 | a mail is reported as created iff there was no marker, and otherwise nothing is written |
| Notifications.MailRefusal | services/notification-service/internal/service/notification_service.go:25-41 | why an event is refused, and that other types and processed events change nothing |
| EventIds.RecoverInvertsRender | services/order-service/internal/infrastructure/postgres/order_repository.go:69 | order and step can be read back from a stored key |
| EventIds.StoredKeysNeverCollide | services/inventory-service/internal/infrastructure/postgres/inventory_repository.go:73 | distinct (order, step) pairs have distinct keys, as strings and as ids |
| EventIds.PlainTextKeysNeverCollide | services/payment-service/internal/infrastructure/postgres/payment_repository.go:84 | events under plain text ids store equal keys only when the model's keys are equal |
| Outboxes.BatchEffect | services/order-service/internal/outbox/publisher.go:48-59 | each row of a batch is marked, counted as failed or left by its own outcome; no other row changes |
| Outboxes.BatchIsSound | services/payment-service/internal/outbox/publisher.go:47-58 | rows marked published were sent, and every sent message has its row, whatever fails |
| Outboxes.DrainIsInOrder | services/order-service/internal/infrastructure/postgres/outbox_repository.go:20-54 | fault-free batches publish distinct pending rows in created_at order |
| Outboxes.DrainTakesExactly | services/order-service/internal/outbox/publisher.go:41-60 | n pending rows and limit k > 0: a fixed outbox is empty iff at least ceil(n/k) batches were taken |
| OutboxPublishers.OutboxRepository.ClaimBatch | services/order-service/internal/infrastructure/postgres/outbox_repository.go:20-54 | the oldest pending rows, at most the limit, none older left out |
| OutboxPublishers.OutboxRepository.MarkPublished | services/order-service/internal/infrastructure/postgres/outbox_repository.go:56-62 | sets that row's flag and nothing else |
| OutboxPublishers.OutboxRepository.RecordFailure | services/inventory-service/internal/infrastructure/postgres/outbox_repository.go:36-39 | counts one attempt of that row and leaves it pending |
| OutboxPublishers.Publisher.PublishBatch | services/inventory-service/internal/outbox/publisher.go:34-48 | one poll of a legal batch: table and sent messages follow each row's outcome |
| OutboxPublishers.Publisher.Run | services/order-service/internal/outbox/publisher.go:27-39 | each poll claims a legal batch of the table as it is then, or nothing after a fault, and table and messages are what those batches make of them; they stay sound, and fault-free polls are a drain |
| SagaPublishing.BatchIsSagaSteps | services/order-service/internal/outbox/publisher.go:41-60 | a poll, with whatever failures, is a run of publish, mark and record-failure steps of the system |
| Consumers.Handlers.HandleEvent | services/notification-service/internal/infrastructure/kafka/consumer.go:45-48 | the services' own handlers do to the four databases what the system's handling says |
| Consumers.Consumer.HandleMessage | services/payment-service/internal/infrastructure/kafka/consumer.go:43-66 | malformed and filtered messages are committed unhandled, errors skip the commit, success commits |
| Consumers.Consumer.TakeTurn | services/order-service/internal/infrastructure/kafka/payment_consumer.go:43-79 | one turn is one consume step of the system |
| Consumers.Consumer.Run | services/inventory-service/internal/infrastructure/kafka/kafka.go:26-51 | the loop is a run of consume steps of its own reader, one for every fetch that finds a message, with the turn's commit and no error on a message that can be handled |

## Left out

- Kafka, PostgreSQL, Redis, TLS and telemetry internals: transactions commit or roll back as a whole, constraints are enforced, row locks last to the end of the transaction, committing a message sets the group's offset to the next one.
- JSON: payloads are datatype values; bytes that are no envelope are `Malformed`, a payload that does not decode is `Undecodable`.
- Random ids: they are inputs; a repeated order id is a key error, a repeated or missing payment id a handler error.
- Clocks: `now` is an input; timestamps serve as ordering keys only, and their stored precision is not modelled.
- Partition choice: a publisher may send to any partition of the topic, which includes hashing by key.
- A commit or a publication that succeeds although its answer is lost: a publication has the outcome `LostAck`; a handling whose COMMIT answer is lost is a redelivery step followed by a failed consume step.
- The payment currency, fixed to "USD", and the event-type column of processed_events in three services.
- ToUpper beyond ASCII letters, and the collation of ORDER BY product_id (plain character order here); neither decides any result but the order of lines in inventory.released.
- Overflow of the INTEGER column `attempts`.
- Business counters, which also count redeliveries and rejections.
- Cart, catalog, web BFF, storefront, HTTP handlers, configuration, seed scripts and Terraform: proxies and set-up with no state of the saga.
- Serializability.CommitOrderIsSerial: for a fixed product set, and for releases that start after the reservations of their order were processed, which the saga guarantees (SagaTheorems.CancellationFollowsReservation); otherwise a reservation committing between a release's SELECT and its COMMIT would break commit order.
- SagaTermination.SagaAlwaysResolves: new orders are not placed during a schedule.
- OutboxPublishers.Publisher.Run: a finite number of polls of one publisher; other writers between its statements are the system's interleaved steps.
- Consumers.Consumer.Run: a finite number of turns over a partition that does not grow meanwhile; growth, other groups and restarts are the system's interleaved steps.
