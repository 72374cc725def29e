# Order saga: model and proofs

A verification of the order saga of the distributed order-processing system: an order service with an
orchestrator, an inventory service and a payment service, each with its own database, joined by a message
broker. No transaction spans two services. That money, stock and order status agree in the end rests on
step guards, unique keys, one compare-and-swap update and a recovery loop that sends commands again; no
handler is safe by itself (`handleRelease`, for one, never checks that anything was reserved). The project
states that agreement as properties of every run and proves them.

## How it is built

**The protocol** (`Types`, `Databases`, `Protocol`). A `World` holds the three databases, the set of all
messages ever published, and one task for each worker in the middle of a handler. `Next` is one atomic
step: a database transaction, a read, a publish, or an environment event. Any published message may be
delivered at any time, any number of times, or never, which covers loss, duplicates, reordering, retry and
redelivery. A worker may crash between any two steps, in particular between a commit and the publish that
follows it; a recovery tick works through rows it listed long ago; the number of workers is unbounded. A
run is any sequence of steps (`Exec`).

**The specification** (`Transaction`). One order as a single atomic record (phase, stock, money), with
guards that look at the whole record. `Invariant` reads a world as such a record (`Abs`) and states the
inductive invariant; `Preservation`, `Accounting`, `StockLedger` and `StockSafety` prove that every step
keeps it; `Safety`, `Audit`, `OptimisticLock`, `Progress`, `Completion` and `Allocation` draw the
conclusions, and `ErrorTexts` says what a saga records as its error. `Limits`, `Deliveries`, `Threshold` and `Stalled` hold what the code does *not* guarantee, each
with the exact condition under which it happens; `Openings` and `Witnesses` hold the runs from the empty
system that show it happening.

**The code's own form** (`Stores`, `Cluster`, `InventoryCommands`, `PaymentCommands`, `Orchestrator`,
`Recovery`, `Dispatch`, `Api`). The repositories are classes whose tables are updated in place, one method per
repository function, each proved against the transaction of `Databases`. The handlers are methods with the
loops of the source. Between any two of a handler's database calls, arbitrary other workers run (`Gap`) and
any call may fail. Each handler's postcondition says that the call as a whole was a run of the protocol, so
that every theorem about runs applies to any interleaving of handler calls; which of the steps of that run
are the handler's own (`Own`), and in what order; that the others (`Theirs`) are those of the gaps; and what an acknowledgement, an error and each kind of
reply mean.

**Messaging** (`Retry`, `Topology`, `Routing`, `Consumer`, `DeadLetters`, `CopyCount`). The retry decision, the queue
declarations of the three services, the consumer's acknowledge / retry / dead-letter dispatch, and the runs
of the retry loop.

Several predicates are written `true == (...)`. This changes nothing in their meaning; it makes the
verifier prove them as one goal.

## Assumptions

- A database transaction is one atomic step. The comments of the `Commit*` functions promise this, but the
  functions read without a lock and update by key only, so it depends on how the database isolates them.
  A transaction that reports an error has not committed.
- `NewUUID` never repeats; ids come from a counter.
- A publish puts the message on the network or does not; an error from publishing tells nothing about
  which. One call makes at most three attempts under one id.
- A text is a sequence of bytes.
- Numbers are unbounded, except the retry count, which is a 32-bit integer in its header and wraps around.
- `hist`, `supplied` and the record of terminal metrics are history; nothing reads them to decide a step.

## What the code does not guarantee

- A reservation that is refused does not mean that no stock is held: a duplicate of the command can find
  too little stock after its twin has reserved (`Limits.DuplicateReserveLeaks`, `Witnesses.LeakFromInit`), or
  a late duplicate can still succeed (`Limits.LateReservationIff`, `Witnesses.LateFromInit`). Nothing ever
  gives that stock back (`Limits.LeakIsPermanent`). What decides is how often a worker takes a reserve
  command of the order: at most once, and a rejected order holds nothing; from two on, it can
  (`Deliveries.OneReserveIsHonest`, `Deliveries.LeakIff`).
- A saga that is FAILED at its release does not mean that the stock is still held: the loser of a race
  between two deliveries reports the unique-key violation as a failed release
  (`Limits.ReleaseRaceReportsFailure`, `Witnesses.RaceFromInit`), or a second worker gives the stock back
  later (`Limits.LateReleaseIff`). The same count decides (`Deliveries.OneReleaseIsHonest`,
  `Deliveries.MisreportIff`).
- N orders on stock for S/q of them need not end with min(N, S/q) reservations: with a retry budget below
  S/q contention alone refuses an order although stock is left. The budget S/q is enough, and no smaller one
  is (`Allocation.ExactAllocation`, `Threshold.AllocationThreshold`).
- `docs/design/outbox-and-dual-write.md` says that no order is ever lost. A lost publish is indeed repaired,
  though only by a re-publish under a fresh id (`Limits.RedeliveryIsSilent`,
  `Limits.PaymentRedeliveryIsSilent`). An order whose saga row was never written is not recovered
  (`Limits.OrphanStaysPending`), nor, with a positive retry budget, is one whose product has no inventory row (`Stalled.CanFinishIff`).
- `scripts/redrive-dlq.sh` promises to republish under the original routing key. A message in a dead-letter
  queue carries the name of that queue as its routing key, so a redrive to `saga.commands` is unroutable and
  one to `saga.events` is skipped by the orchestrator (`DeadLetters.RedriveIff`, `DeadLetters.RedriveLoses`).

## Model

| member | source | states |
|---|---|---|
| Safety.RefinesAtomicOrder | services/order-service/internal/service/saga_orchestrator.go:43-320 | seen from any order, every run of the three services is a run of one atomic record with whole-record guards |
| Safety.StepRefines | services/order-service/internal/service/saga_orchestrator.go:43-320 | each step of any service or of the environment is one atomic step of the order, or none |
| Safety.MoneyAndStockAgree | services/order-service/internal/repository/saga_repository.go:100-289 | in every reachable world: SUCCESS payment only while paying or completed; COMPLETED, COMPENSATED and FAILED each fix order status, payment and both logs |
| Safety.NoSagaNoEffect | services/order-service/internal/handler/order_handler.go:51-60 | an order without a saga was neither charged nor reserved nor released |
| Safety.SagaLifecycle | services/order-service/internal/repository/saga_repository.go:115-151 | step, saga status and order status lie in the six allowed triples; the number of events that moved the saga is fixed by them, one or three when FAILED |
| Safety.DoneForever | services/order-service/internal/repository/saga_repository.go:115-118 | DONE is absorbing: the whole row stays as it is in every run |
| Safety.TerminalOnce | services/order-service/internal/service/saga_orchestrator.go:191-204 | the terminal metric fires at most once per saga, with the status the row keeps |
| Safety.DedupAccounting | services/order-service/internal/repository/saga_repository.go:103-118 | processed_events holds exactly the events that moved a saga, each for one saga, and its size is the total number of moves |
| Safety.DeliveryMovesIff | services/order-service/internal/repository/saga_repository.go:103-118 | a delivery changes the order database if and only if its id is new and its saga waits for it; otherwise it changes nothing at all |
| Safety.CausalJustification | services/order-service/internal/service/saga_orchestrator.go:114-185 | every message ever published is backed by durable facts of all three databases, under stale recovery snapshots too |
| Safety.PaymentUnanimity | services/payment-service/internal/service/payment_command_handler.go:60-129 | all payment events of an order are equal, whichever workers published them |
| Safety.PaymentFixed | services/payment-service/internal/repository/payment_repository.go:44-51 | a payment row, once inserted, never changes, and a processed mark is never removed |
| Safety.RecoveryFaithful | services/order-service/internal/service/saga_orchestrator.go:255-320 | two commands of one kind for one saga have equal payloads, sent by the normal path or by recovery |
| Safety.StockConserved | services/inventory-service/internal/repository/inventory_repository.go:44-120 | no oversell; available plus reserved is the seeded stock plus all admin edits; reserved is the sum of RESERVE logs without RELEASE; version counts the logs |
| Safety.AtMostOnceStockEffect | services/inventory-service/internal/repository/inventory_repository.go:60-120 | each order reserves at most once and releases at most once, and each RELEASE undoes an earlier RESERVE of the same order, product and quantity |
| Safety.ClampNeverActs | services/inventory-service/internal/repository/inventory_repository.go:92-120 | GREATEST(reserved_qty - qty, 0) never clamps when a release commits |
| Safety.OrderFixed | services/order-service/internal/service/saga_orchestrator.go:262-275 | product, quantity and amount of an order never change, so a late recovery reads what the normal path read |
| StockSafety.StepConsistent | services/inventory-service/internal/service/inventory_command_handler.go:62-141 | the whole invariant is kept by every step from every consistent world, reachable or not, and each order takes at most one atomic step |
| StockSafety.EveryRun | services/order-service/internal/service/saga_orchestrator.go:43-320 | every run from the empty system ends in a consistent world |
| StockSafety.ReleaseHasReserve | services/inventory-service/internal/service/inventory_command_handler.go:113-131 | whatever release command a worker holds, the matching RESERVE log exists, although the handler does not look |
| StockLedger.ReserveKeeps | services/inventory-service/internal/repository/inventory_repository.go:60-87 | a committed reserve keeps the ledger: version, reserved and available follow the logs |
| StockLedger.ReleaseKeeps | services/inventory-service/internal/repository/inventory_repository.go:92-120 | so does a committed release of something reserved |
| Preservation.ReactMeaning | services/order-service/internal/repository/saga_repository.go:100-289 | what an event does to its saga row, order row, processed events, follow-up command and metric, in one closed form for all three event kinds |
| Preservation.EventMoves | services/order-service/internal/service/saga_orchestrator.go:114-185 | an event that acts takes its order along one edge of the atomic machine and its rows to an allowed triple |
| Accounting.MovedAbs | services/order-service/internal/service/saga_orchestrator.go:114-185 | an acting event changes nothing but the phase of its own order, to the phase its kind and success name; every other order keeps its record |
| Audit.ChargedTheTotal | services/payment-service/internal/service/payment_command_handler.go:94-106 | a SUCCESS payment is for exactly the total amount of its order |
| Audit.RowsTellTheStory | services/order-service/internal/repository/saga_repository.go:127-148 | last_event_id names the last event that moved the saga; last_error fits the column and is empty unless something failed |
| ErrorTexts.LastErrorTells | services/order-service/internal/repository/saga_repository.go:127-148 | in every reachable world the replies carry the right reason, and last_error is empty while nothing failed, then names the refusal or the declined payment, and after a failed release holds the first 500 bytes of what that release reported |
| OptimisticLock.SameVersionSameRow | services/inventory-service/internal/repository/inventory_repository.go:63-73 | an unchanged version means an unchanged reserved quantity, and without an admin edit an unchanged row, after any run |
| OptimisticLock.CasIsUndisturbed | services/inventory-service/internal/repository/inventory_repository.go:60-87 | a compare-and-swap that succeeds acts on the row as it was read, but for admin edits, which never make it oversell |
| OptimisticLock.LostRace | services/inventory-service/internal/service/inventory_command_handler.go:74-102 | a compare-and-swap that finds no row was overtaken by another reserve or release, unless an admin edited the row |
| OptimisticLock.ReleasedForGood | services/inventory-service/internal/repository/inventory_repository.go:92-120 | a released order never touches stock again |
| Progress.RankNeverRises | services/order-service/internal/service/saga_orchestrator.go:225-320 | no step ever raises the rank of a saga (RESERVING 3, PROCESSING 2, RELEASING 1, DONE 0) |
| Progress.DeliveryPasses | services/order-service/internal/service/saga_orchestrator.go:114-185 | delivering a reply, stale or repeated or not, leaves the saga past the step it answers |
| Progress.RoundsLowerRank | services/order-service/internal/service/saga_orchestrator.go:225-320 | each complete recovery round costs the saga at least one rank, whatever is interleaved |
| Progress.ThreeRoundsFinish | services/order-service/internal/service/saga_orchestrator.go:225-320 | any run with three rounds one after the other leaves the saga DONE, and no run holds a fourth |
| Completion.CommandAnswered | services/inventory-service/internal/service/inventory_command_handler.go:62-141 | a worker that meets no fault has the answer to a command with a fresh id on the network within four steps |
| Completion.RoundExists | services/order-service/internal/service/saga_orchestrator.go:225-320 | a complete round is possible, by workers alone, from every consistent world in which the saga is not done and its product has a row (or the retry budget is zero) |
| Completion.CanAlwaysFinish | services/order-service/internal/service/saga_orchestrator.go:209-223 | from every such world at most seven steps per rank lead the saga to DONE |
| Allocation.ExactAllocation | services/inventory-service/internal/service/inventory_command_handler.go:74-110 | N answered orders of equal quantity q on stock S, retry budget at least S/q, no release or edit: exactly min(N, S/q) hold stock and the rest of the stock is available |
| Threshold.AllocationThreshold | services/inventory-service/internal/service/inventory_command_handler.go:74-110 | every such sale from the empty system allocates exactly if and only if the retry budget is at least S/q |
| Threshold.FallsShort | services/inventory-service/internal/service/inventory_command_handler.go:104-110 | for every smaller budget a sale with budget + 1 orders, all of them answered, gives stock to only as many as the budget |
| Allocation.LoserMeansSoldOut | services/inventory-service/internal/service/inventory_command_handler.go:79-84 | in such a sale an answered order without stock was refused because less than one quantity was left |
| Stalled.CanFinishIff | services/inventory-service/internal/service/inventory_command_handler.go:75-78 | in every reachable world a saga can be brought to its end, without new stock records, if and only if its product has a row or the retry budget is zero |
| Stalled.BarrenKept | services/inventory-service/internal/service/inventory_command_handler.go:75-78 | with a positive retry budget, while a product has no row, none of its reserve commands is answered and all its sagas stay in their first step |
| Deliveries.OneReserveIsHonest | services/inventory-service/internal/service/inventory_command_handler.go:62-111 | in every run in which reserve commands of an order are taken at most once, a rejected order never holds stock |
| Deliveries.LeakIff | services/inventory-service/internal/service/inventory_command_handler.go:64-84 | some run with n takings of an order's reserve command ends with the order rejected and holding stock if and only if n is at least two and there is a retry budget |
| Limits.LateReservationIff | services/inventory-service/internal/service/inventory_command_handler.go:86-102 | after a rejection, stock is taken by exactly the compare-and-swap steps for that order that match version and quantity |
| Limits.LeakIsPermanent | services/order-service/internal/service/saga_orchestrator.go:225-320 | stock held by a rejected order is never given back |
| Limits.DuplicateReserveLeaks | services/inventory-service/internal/service/inventory_command_handler.go:64-84 | from every world where two workers hold one reserve command with stock for one, seven steps lead to FAILED with stock held |
| Witnesses.LeakFromInit | services/inventory-service/internal/service/inventory_command_handler.go:64-84 | this is reachable: eleven steps from the empty system, for any order and positive retry budget and any stock for one order but not two |
| Witnesses.LateFromInit | services/inventory-service/internal/service/inventory_command_handler.go:86-102 | so is the late duplicate: a run to an order that is rejected and holds nothing, and three further steps after which it holds stock |
| Deliveries.OneReleaseIsHonest | services/inventory-service/internal/service/inventory_command_handler.go:113-141 | in every run in which release commands of an order are taken at most once, a release reported as failed means that the stock is still held |
| Deliveries.MisreportIff | services/inventory-service/internal/service/inventory_command_handler.go:124-128 | some run with n takings of an order's release command ends with the release reported as failed and the stock back if and only if n is at least two and there is a retry budget |
| Limits.LateReleaseIff | services/inventory-service/internal/service/inventory_command_handler.go:124-141 | after a release was reported as failed, the stock goes back at exactly one kind of step: a fault-free release transaction of a worker that took the command before, for a product with a row |
| Witnesses.RaceFromInit | services/inventory-service/internal/service/inventory_command_handler.go:124-128 | the race is reachable: a run from the empty system to a saga that is FAILED with its stock back, for any order, positive retry budget and sufficient stock |
| Limits.ReleaseRaceReportsFailure | services/inventory-service/internal/service/inventory_command_handler.go:124-128 | from every world where two workers hold one release command, six steps lead to FAILED with the stock returned |
| Limits.RedeliveryIsSilent | services/order-service/internal/repository/saga_repository.go:103-109 | an event that moved its saga is ignored however much later it is delivered again, so a lost command is repaired only by a re-publish under a fresh id |
| Limits.PaymentRedeliveryIsSilent | services/payment-service/internal/service/payment_command_handler.go:61-70 | a payment command whose row was inserted is never answered again under the same id, even if its reply was lost |
| Limits.OrphanStaysPending | services/order-service/internal/handler/order_handler.go:51-60 | an order whose saga was never written stays PENDING in every run that does not start it |
| OrderStore.OrderTables.Create | services/order-service/internal/repository/saga_repository.go:59-64 | inserts the saga row, or fails on either unique key and changes nothing |
| OrderStore.OrderTables.ListByStatus | services/order-service/internal/repository/saga_repository.go:82-88 | returns each saga of the status exactly once, in an order of the database's choosing |
| OrderStore.OrderTables.CommitInventoryReserved | services/order-service/internal/repository/saga_repository.go:100-162 | commits as specified or rolls everything back, the order status included |
| OrderStore.OrderTables.CommitPaymentProcessed | services/order-service/internal/repository/saga_repository.go:166-231 | the same for the payment event |
| OrderStore.OrderTables.CommitInventoryReleased | services/order-service/internal/repository/saga_repository.go:235-289 | the same for the release event |
| InventoryStore.InventoryTables.ExistsReserve | services/inventory-service/internal/repository/inventory_log_repository.go:28-49 | true if and only if some entry of the log table is a RESERVE of the order |
| InventoryStore.InventoryTables.ExistsRelease | services/inventory-service/internal/repository/inventory_log_repository.go:33-49 | the same for RELEASE |
| InventoryStore.InventoryTables.UpdateAvailableQty | services/inventory-service/internal/repository/inventory_repository.go:44-56 | overwrites the available quantity and leaves reserved quantity and version alone |
| InventoryStore.InventoryTables.ReserveAtomic | services/inventory-service/internal/repository/inventory_repository.go:60-87 | compare-and-swap plus log: no row, rollback on a duplicate log, or both together |
| InventoryStore.InventoryTables.ReleaseAtomic | services/inventory-service/internal/repository/inventory_repository.go:92-120 | refund plus log: no row, rollback on a duplicate log, or both together |
| PaymentStore.PaymentTables.CreatePaymentWithEvent | services/payment-service/internal/repository/payment_repository.go:44-51 | inserts payment row and processed mark together or neither |
| PaymentStore.PaymentTables.IsProcessed | services/payment-service/internal/repository/processed_event_repository.go:28-38 | true if and only if the id is marked |
| PaymentStore.PaymentTables.MarkProcessed | services/payment-service/internal/repository/processed_event_repository.go:41-49 | marks the id, fails if it was marked |
| Network.Publisher.Publish | services/inventory-service/internal/messaging/publisher.go:32-58 | success means that one of three attempts was confirmed, and then the message is on the network, once; failure does not mean that it is not |
| Cluster.StepUnseen | services/inventory-service/internal/service/inventory_command_handler.go:62-141 | what a worker holds in local variables is invisible to every step of anyone else, and theirs to it |
| Cluster.System.Others | services/inventory-service/internal/messaging/consumer.go:40-60 | letting arbitrary other workers run between two steps of a handler extends the run by exactly their steps |
| InventoryCommands.InventoryCommandHandler.HandleReserve | services/inventory-service/internal/service/inventory_command_handler.go:62-111 | under any interleaving and faults the call is a run of the protocol whose own steps are the log check, full turns of read and swap, and one last turn or reply, and which adds no step of anyone else; if the log was there at the start the answer is success, and a call without answer means a fault, a missing row or a log written meanwhile; an acknowledged command is answered; success has a log; a refusal really read too little stock, or the row's version rose by the whole retry budget during the call |
| InventoryCommands.InventoryCommandHandler.CompareAndSwap | services/inventory-service/internal/repository/inventory_repository.go:60-87 | under interference, success appends the order's first RESERVE log and a miss means that the version rose, admin edits apart |
| InventoryCommands.InventoryCommandHandler.HandleRelease | services/inventory-service/internal/service/inventory_command_handler.go:113-141 | the call is a run of the protocol whose own steps are the check, the transaction and the reply, in that order, cut short only by a fault at the check or a RELEASE log found there, which is answered with success; a failure reply means a fault, a RELEASE log by someone else, or a missing row |
| PaymentCommands.PaymentCommandHandler.HandleProcess | services/payment-service/internal/service/payment_command_handler.go:60-129 | the call is a run of the protocol whose own steps are the check, the lookup, at most one insert and the reply, and which adds no step of anyone else; a marked id is skipped, a payment row found is answered with its stored outcome, and a call without answer means a fault or an insert that lost the race for a key; every answer carries the one payment row the order has at the end |
| PaymentCommands.PaymentCommandHandler.Insert | services/payment-service/internal/service/payment_command_handler.go:88-112 | the row is inserted with the command's amount and the drawn outcome, or the insert lost the race for a unique key |
| Orchestrator.SagaOrchestrator.StartSaga | services/order-service/internal/service/saga_orchestrator.go:43-68 | the call is a run of the protocol whose own steps are the insert and one publish; the saga row, once created, is there at the end, and success means that its first command is on the network |
| Orchestrator.SagaOrchestrator.HandleEvent | services/order-service/internal/service/saga_orchestrator.go:71-112 | the call's own steps are one event step and, exactly if the event calls for a command, one publish of it; it fails if and only if there is a fault, the event has no saga or order to commit to, or the publish is unconfirmed, and skips if and only if the event is processed or not awaited |
| Orchestrator.EndIsCounted | services/order-service/internal/service/saga_orchestrator.go:114-185 | an event that ends its saga is counted by the terminal metric, once and under the status the saga ends with |
| Orchestrator.SagaOrchestrator.OnInventoryReserved | services/order-service/internal/service/saga_orchestrator.go:114-138 | commit, metric and follow-up command agree with the reaction the protocol specifies |
| Orchestrator.SagaOrchestrator.OnPaymentProcessed | services/order-service/internal/service/saga_orchestrator.go:140-166 | the same for the payment event |
| Orchestrator.SagaOrchestrator.OnInventoryReleased | services/order-service/internal/service/saga_orchestrator.go:168-185 | the same for the release event |
| Recovery.RecoveryLoop.RunRecovery | services/order-service/internal/service/saga_orchestrator.go:225-253 | a tick's own steps are one listing per status and one step per listed row, in order, while others run, to whose steps it adds none; a failed first listing does not stop the second |
| Recovery.RecoveryLoop.ResendOne | services/order-service/internal/service/saga_orchestrator.go:255-320 | at most one command per row, the one the row and its order determine |
| Recovery.CommandFixed | services/order-service/internal/service/saga_orchestrator.go:255-320 | the command for a listed row does not depend on how late it is composed |
| Recovery.TickCovers | services/order-service/internal/service/saga_orchestrator.go:225-253 | every listed saga appears in a tick exactly once, with the command of its step, and with no other |
| Api.Api.PostOrder | services/order-service/internal/handler/order_handler.go:37-63 | the order is stored first and at the end has the product, quantity and amount asked for; others may run, then the saga is started by the insert and one publish; an accepted order has its saga and its reserve command on the network; a rejected one changes nothing |
| Api.ChargedAsPosted | services/order-service/internal/handler/order_handler.go:44-51 | in every run, an order posted for an amount is charged that amount or nothing |
| Api.Api.PostSku | services/inventory-service/internal/handler/inventory_handler.go:58-76 | a new stock record has the quantity given, nothing reserved and version 0, which is the protocol's seeding step; a second one for the product is refused |
| Api.Api.PutStock | services/inventory-service/internal/handler/inventory_handler.go:78-101 | a stock edit sets the available quantity and nothing else of the record, which is the protocol's admin step |
| Api.Api.PostPaymentRow | services/payment-service/internal/handler/payment_handler.go:53-71 | a manual payment is the protocol's PENDING insert |
| AmqpRetry.PermanentIff | shared/amqpretry/amqpretry.go:27-45 | an error is permanent if and only if something in its chain was marked |
| AmqpRetry.CountRises | services/inventory-service/internal/messaging/consumer.go:115-117 | the next count is above the current one while the limit fits 32 bits, whatever the header held |
| BrokerTopology.Broker.Setup | services/order-service/internal/messaging/topology.go:14-67 | start-up succeeds if and only if nothing was declared differently, and then adds the service's part and nothing else |
| Routing.AnyStartOrder | services/payment-service/internal/messaging/topology.go:12-66 | in whatever order and however often the services start, nothing is refused and the broker ends with one topology |
| BrokerTopology.PatternMeaning | services/order-service/internal/messaging/topology.go:42-44 | a binding pattern without `#` matches word by word, `*` standing for any one word, and `#` alone matches every key |
| Routing.QueueTable | services/order-service/internal/messaging/topology.go:31-64 | each queue by name: rejected copies go to its dead-letter queue, and what has waited five seconds in its retry queue goes back to its own exchange |
| Routing.MainRoute | services/inventory-service/internal/messaging/topology.go:30-41 | every key of a service reaches its queue and no other |
| Routing.RetryRoute | services/order-service/internal/messaging/topology.go:42-64 | the shared retry exchange sends each key to its own service's retry queue and no other |
| Routing.RetryRouteIff | services/order-service/internal/messaging/topology.go:42-64 | a key can be retried if and only if it is one of the seven bound keys |
| Wiring.ReachesItsHandler | shared/events.go:4-25 | every message the protocol publishes reaches the queue of the one service that handles its key |
| Wiring.KeyNamesKind | shared/events.go:16-25 | the key of a published message names the kind of its body |
| Dispatch.Handlers.HandleInventory | services/inventory-service/internal/service/inventory_command_handler.go:40-60 | a known key and a body that parses: the handler of that key ran, with all that it promises, and its result is returned; an error only on a key the service knows, permanent exactly for a body that cannot be parsed; an unknown key or a malformed body does nothing |
| Dispatch.Handlers.HandlePayment | services/payment-service/internal/service/payment_command_handler.go:44-58 | the same for the payment service |
| Dispatch.Handlers.HandleOrder | services/order-service/internal/service/saga_orchestrator.go:85-112 | the same for the order service |
| Consumer.CloneHeaders | services/inventory-service/internal/messaging/consumer.go:146-152 | a fresh table with the same entries |
| Consumer.Channel.DispatchMsg | services/inventory-service/internal/messaging/consumer.go:95-142 | a success removes the delivery and nothing else; a panic rejects it; a failure that is not permanent and has retries left goes to the retry exchange with its count raised, and any other to the dead-letter queue; without a confirmation the delivery stays, or is rejected to the broker; its own headers are not touched |
| DeadLetters.RetryRoundTrip | services/order-service/internal/messaging/topology.go:42-64 | what a handler can fail on goes to its own retry queue and comes back, key, id and body intact, to exactly its queue |
| DeadLetters.NoMessageVanishes | services/inventory-service/internal/messaging/consumer.go:95-142 | in every run, with any failures, panics and lost publishes, a message stays with its service until its handler succeeds |
| CopyCount.CopiesBalance | services/inventory-service/internal/messaging/consumer.go:108-140 | in every run the copies held are those at the start, plus one for each republish whose confirmation was lost, minus one for each success |
| CopyCount.SuccessEndsIt | services/inventory-service/internal/messaging/consumer.go:108-110 | a run from one message in which no confirmation is lost holds exactly one copy until the handler succeeds, and then none in any queue; nothing follows the success |
| DeadLetters.HopIsStep | services/inventory-service/internal/messaging/consumer.go:95-142 | the single-copy walk is the retry loop itself |
| DeadLetters.RunIsTravel | services/inventory-service/internal/messaging/consumer.go:95-142 | every run in which a message always fails and republishes are confirmed is the single-copy walk, step by step |
| DeadLetters.FailingRunIsBuried | services/inventory-service/internal/messaging/consumer.go:112-140 | every such run keeps exactly one copy with id, body and other headers, handles it at most once more than it has retries left, ends after at most 2 * retries + 1 steps, and has no step left exactly when the copy lies in its own dead-letter queue |
| DeadLetters.TransientRunUsesBudget | shared/amqpretry/amqpretry.go:57-77 | a run of transient failures that ends in the dead-letter queue has handled the message exactly once more than it had retries left |
| DeadLetters.HandledRetriesPlusOnce | shared/amqpretry/amqpretry.go:57-77 | in plain numbers: a message that arrives with count v, an absent or malformed one being 0, is handled maxRetries - v + 1 times before transient failures bury it, and once if no retry is left |
| DeadLetters.FirstFailure | shared/amqpretry/amqpretry.go:57-62 | a marked error, or a count used up, buries the message at its first handling; any other error sends it to its retry queue with its count raised by one and its other headers kept |
| DeadLetters.BuriedRunIff | services/inventory-service/internal/messaging/consumer.go:115-117 | some run of transient failures ends there if and only if the limit fits 32 bits or is already reached |
| DeadLetters.DeadKey | services/inventory-service/internal/messaging/consumer.go:135 | a dead message carries its dead-letter queue's name as its key |
| DeadLetters.RedriveIff | scripts/redrive-dlq.sh:32-43 | a redrive reaches a command queue if and only if the copy carries one of that queue's keys, and then reaches it alone, without its retry count |
| DeadLetters.RedriveLoses | scripts/redrive-dlq.sh:32-43 | which no dead message does: redriving loses it, or brings it to a handler that skips it |

## Left out

- Isolation inside a transaction, deadlocks, and commits whose acknowledgement is lost.
- JSON: a body is parsed or malformed; an event without a message id, which the code skips, does not occur.
- `UpdateAvailableQty` when the new quantity equals the old: the driver may report no affected row, which the code turns into an error; the row is the same either way.
- `SeedIfNotExists`, which is `Create` for an absent product and nothing otherwise.
- The random draw behind a simulated payment failure: the outcome of a new payment is chosen freely.
- Durations, timestamps, user ids, the saga's unused retry counter, log lines, trace headers, the dead-letter sampler.
- The timers: recovery and expiry may happen at any time.
- AMQP connections, channels, prefetch, reconnecting; broker headers such as x-death.
- The consumers of the order and payment services, which are the same code as the inventory service's.
- `payment.refund`: bound, but nothing publishes or handles it.
- HTTP reading endpoints, admin listing, configuration, deployment, load tests.
