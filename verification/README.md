# Verification of the exactly-once integration pipeline

A Dafny model of a pipeline that takes partner events over HTTP, persists them
in SQL Server once each, and notifies an ERP of every approved order. It proves
what each step of its protocols keeps, over every interleaving, and where the
guarantees stop. `dafny verify dfyconfig.toml` checks everything.

## What is modelled

- **Ingest** (`IngestProtocol`, `IngestNoLoss`, `IngestLoss`, `IngestReclaims`,
  `IngestReclaimLoss`, `IngestRetries`, `IngestDatabase`, `IngestDelivery`): workers
  read and reclaim stream messages, reserve the event id in Redis, commit ledger
  row and effect in one transaction, acknowledge afterwards. Workers die, keys
  expire, Redis is down, the stream is trimmed, at any point.
- **Processing one event** (`Processing`, `IngestWorker`, `UnitOfWork`): the three
  idempotence barriers with a fault at every call, as functions and as classes
  that change keys, ledger and tables in place.
- **Orders, payments, invoices** (`Schema`, `Handlers`, `HandlerOutcomes`,
  `OrderTables`, `OrderRuns`, `Triggers`): the handlers over all tables, and the two SQL triggers.
- **Overlapping transactions** (`Transactions`, `TransactionRuns`, `TransactionOutcomes`): each lookup of a handler
  reads some state committed since its transaction began, its writes meet the tables as
  they are at its commit, and only the database's constraints stand between.
- **The queued message** (`Messages`): what it says of the tables, column by column.
- **Address versions** (`AddressHistory`, `AddressRaces`): the versioned table against
  a plain log of upserts, and against concurrent writers with stale reads.
- **Outbox dispatch** (`Outbox`, `OutboxRuns`, `OutboxLocks`, `Dispatch`): claims, releases of stale
  locks and settlements by workers that may have lost their lock. Beside each row
  the model keeps its outstanding claims, each with the attempts value it read.
- **The whole pipeline with the ERP** (`EndToEnd`, `ErpSafety`, `ErpRuns`, `ErpSettlements`,
  `ErpMock`, `DispatchColumns`): overlapping transactions, dispatch and ERP in one machine.
- **Bulk load** (`BulkPlan`, `BulkLoad`) and the **API buffer** (`WebhookBuffer`).

Money is an integer in ten-thousandths, time a real number of seconds on one
clock that never goes back, a surrogate key the row's position in its table.
Random choices, replies, failures and interleavings are parameters or steps
that may take any value.

## What came out of it

- *Safety is unconditional, no loss is not.* At-most-once holds under every step.
  No loss needs exclusions: no death and no failed release of the key's only owner
  between reservation and settlement, no trimming of a message not yet acknowledged,
  and no reclaim that contends with a live batch. Ruling out reclaims only between reservation and settlement is
  neither enough (`IngestReclaimLoss.EarlyReclaimLoses`) nor needed
  (`IngestReclaimLoss.ReclaimOfBegunIsHarmless`). The conditions are exact: for an
  orphaned key (`IngestLoss.LostExactlyWhenOrphaned`), for a death or failed release
  (`IngestLoss.FatalExactlyForSoleOwner`), for a reclaim of the last owed message
  (`IngestReclaimLoss.ReclaimIsFatalIffContended`), and for what a trim loses on the spot
  (`IngestLoss.TrimIsFatalIffLastOwed`).
- *Of all races between handlers, one does harm*: an approval of an order that another
  transaction approved in between (`Transactions.InOrderIffNotOvertaken`). Unique
  constraints and the filtered index refuse the others or they are harmless, so serialising
  the transactions on one order is more than enough for the tables and the ERP.
- *Settlement never checks the lock owner*, so a SENT or DLQ row is final if and only
  if no claim of it is still being dispatched (`Outbox.SettledIsFinalIffUnheld`), and
  can go back to PENDING if and only if such a claim was short of the limit. The
  attempts and holder bounds count releases; the ERP side survives unconditionally.
- *`dispatch_max_attempts` of zero or less still posts once*: the bound is
  max(dispatch_max_attempts, 1) plus releases.
- *The message limit is one late*: the count is read before the reclaim raises it, so
  a message that always fails is dead-lettered at its failed handling number
  consumer_max_delivery + 1, or at its first for a limit of one or less
  (`IngestRetries.AlwaysFailingMessageIsDeadLettered`, `IngestRetries.FailuresBounded`).
- *The default chunk plan is safe, others are not*: if the chunk size does not
  divide the row count and there is more than one chunk, order numbers repeat.
- *Validation catches leftovers of failed load attempts, but only by refusing*: the
  load is accepted exactly when no failed attempt committed a row.
- *The triggers protect an order exactly while its status is closed*
  (`Triggers.ProtectedIffClosed`, `Triggers.FrozenWhileClosed`); they do not guard the
  status itself (`Triggers.StatusRollbackThaws`), the transitions do.
- The repository's README speaks of XAUTOCLAIM; the code reads the pending list
  and then claims (src/shared/messaging/consumer.py:67-78). The model follows the code.

## Hypotheses

- Transactions on one order are serialised, and of that only this is used: an approval
  commits only if the order it read as PENDING still is (`Transactions.Overtaken`). All
  other transactions overlap freely. Results about serial events say so: the replay of
  the ledger and the refinement of the upsert log.
- A lookup reads one committed state, no older than the lookup before it; a transaction's
  writes take effect together at its commit, where constraints are checked.
- The ERP handles requests with one key one at a time.
- One claiming or releasing UPDATE is one step, and so is one unique-key check.

## Model

| member | source | states |
|---|---|---|
| `IngestProtocol.AtMostOnce` | src/ingest_worker/processor.py:85-116 | In every run with any number of workers, redeliveries, crashes, expired keys, Redis outages and trimming, the commits of an event id number one if the id is in the ledger and zero otherwise |
| `IngestDatabase.TablesStayInOrder` | src/ingest_worker/processor.py:85-116 | Under the same interleavings, with each transaction registering its ledger row first, reading what others have committed since and committing ledger row and effect or neither: an id is committed exactly when it is in the ledger, no id twice, and the tables keep every invariant |
| `IngestDatabase.RefusedByConstraintOnly` | src/ingest_worker/processor.py:96-101 | In every run an event is refused only when the transaction of a worker that has it would break a constraint, given what its lookups read, and then the tables stay as they are |
| `IngestDatabase.ProtocolGoesOn` | src/ingest_worker/processor.py:62-103 | Whatever the ingest protocol can do next, short of ending a transaction, can be done with the tables too: no worker waits for another one's transaction on another event |
| `IngestDatabase.TablesReplayCommits` | src/ingest_worker/processor.py:85-116 | Under the same interleavings, if the transactions that commit missed no other one's writes, the tables are the fold of the handlers over the committed events in commit order |
| `IngestDatabase.StepKeepsInv` | src/ingest_worker/processor.py:88-116 | Each step keeps that order, including failures, refusals by a constraint and deaths in the middle of a transaction |
| `IngestDatabase.RunProjects` | src/ingest_worker/main.py:81-114 | Every such run is a run of the protocol and, in the tables, a run of overlapping transactions, so what is proved of either holds of it |
| `IngestProtocol.StepKeepsSafe` | src/ingest_worker/processor.py:85-103 | Each single step keeps that safety, including two transactions racing for one ledger key |
| `IngestNoLoss.NoEventIsLost` | src/ingest_worker/main.py:81-114 | In every run without a hazard for it (death or failed release between reservation and settlement, reclaim of a message a live batch still carries, trimming before acknowledgement), a published event always has an un-acknowledged message, a ledger row, a dead letter, or was refused by a constraint |
| `IngestNoLoss.StepKeepsEvent` | src/ingest_worker/processor.py:62-103 | The inductive step of that: no hazard-free step of any worker loses an event not yet settled |
| `IngestNoLoss.StepKeepsSound` | src/shared/messaging/consumer.py:57-123 | Stream, pending list and batches stay consistent under every step: only delivered messages are queued, acknowledged or dead-lettered |
| `IngestLoss.LostExactlyWhenOrphaned` | src/ingest_worker/processor.py:66-67 | From a state no hazard has disturbed, some continuation without further hazards loses the event if and only if its Redis key is set and no worker is between reserving and settling it |
| `IngestLoss.FatalExactlyForSoleOwner` | src/shared/messaging/dedupe.py:16-34 | A worker that dies mid-event, or whose release fails, makes the event losable if and only if the key is set and no other worker is mid-event on it |
| `IngestLoss.DeathLoses` | src/shared/messaging/dedupe.py:8-23 | A run whose only hazard is one death mid-event, and which loses the event |
| `IngestLoss.FailedReleaseLoses` | src/shared/messaging/dedupe.py:25-34 | A run whose only hazard is one failed release, and which loses the event |
| `IngestLoss.TrimIsFatalIffLastOwed` | src/shared/messaging/publisher.py:25-34 | After a safe run, trimming a message loses its unsettled event on the spot if and only if every other message of the event is acknowledged |
| `IngestLoss.TrimmingLoses` | src/shared/messaging/publisher.py:25-34 | Such a run: a message nobody has dealt with is trimmed, and its event is lost |
| `IngestReclaims.NoEventIsLostWithoutDanger` | src/shared/messaging/consumer.py:67-90 | No loss with the exclusions narrowed: a reclaim counts only if the message waits un-begun in a batch or in an ack list, or the key stands on its handling alone; a death or failed release only if no other clean owner of the key is left |
| `IngestReclaims.StepStaysSafe` | src/ingest_worker/processor.py:62-103 | The inductive step of that, for messages in several batches at once |
| `IngestReclaimLoss.ReclaimIsFatalIffContended` | src/shared/messaging/consumer.py:67-90 | After a safe run, another worker's reclaim of the event's last owed message makes the event losable if and only if a live batch carries it and its worker has not begun with it or the key is set |
| `IngestReclaimLoss.ReclaimOfBegunIsHarmless` | src/shared/messaging/consumer.py:67-90 | However many messages are owed, a reclaim of one that its worker has begun, the key being unset, leaves the event unlosable without further hazards |
| `IngestReclaimLoss.HarmlessReclaim` | src/shared/messaging/consumer.py:67-90 | From any safe state, a reclaim of a message not fought over leaves the event unlosable without further hazards |
| `IngestReclaimLoss.EarlyReclaimLoses` | src/shared/messaging/consumer.py:67-90 | For every delivery limit there is a safe run after which a reclaim while nobody is mid-event, with no hazard before or after, can lose the event |
| `IngestRetries.RetriesBounded` | src/ingest_worker/main.py:98-117 | In every run, with any number of workers, a message ends in RETRY and is left for redelivery at most consumer_max_delivery times |
| `IngestRetries.RetryBoundIsReached` | src/shared/messaging/consumer.py:67-90 | That bound is tight: some run hands the message back exactly that often, because the reported count lags one delivery behind |
| `IngestRetries.DeadLetteredExactlyPastTheLimit` | src/ingest_worker/main.py:104-117 | A failing delivery is dead-lettered if it comes after the limit, and is handed back otherwise |
| `IngestRetries.GarbageIsNeverLost` | src/shared/messaging/consumer.py:98-106 | In every run a message that does not parse is in the dead-letter stream whenever it is acknowledged |
| `IngestRetries.FailuresBounded` | src/ingest_worker/main.py:98-117 | In every run a message is handled and fails at most the limit times more than it is dead-lettered, so at most limit + 1 times up to and including the first such decision |
| `IngestRetries.AlwaysFailingMessageIsDeadLettered` | src/shared/messaging/consumer.py:67-123 | A message that always fails, reclaimed only when no worker has it and with no worker dying on it, is dead-lettered at its failed handling number limit + 1, at every later one, and at none before |
| `IngestRetries.DeadLettersAreNeverLost` | src/shared/messaging/consumer.py:98-106 | In every run, crashes included, a message acknowledged through the dead-letter path, exhausted or unparsable, is in the dead-letter stream, and every entry ever appended is still there |
| `IngestRetries.DeadLetterCanRepeat` | src/shared/messaging/consumer.py:98-106 | A run in which one worker dies between append and ack, and the message is appended again |
| `IngestDelivery.DeliveryIsProtocolRun` | src/ingest_worker/processor.py:62-116 | Whatever the processing function does with a delivery, under whatever faults, the protocol worker can do step by step, and ends with the same keys, the same ledger ids, and the message acknowledged, dead-lettered or handed back as the outcome says |
| `IngestDelivery.BatchSettles` | src/ingest_worker/main.py:81-89 | A worker through with its batch can append its dead letters in order and acknowledge them, then make its acknowledgements, and read again |
| `IngestDelivery.DeliveriesCount` | src/shared/messaging/consumer.py:57-123 | A new message can be read once, as its first delivery; one not acknowledged can be reclaimed by any worker that is reading, reported with the count before the claim, behind what it has read |
| `IngestDelivery.DeadLettersComeFirst` | src/ingest_worker/main.py:81-89 | In every run a worker acknowledges nothing of its batch before its dead letters: once it has, unless it died in between, every one of them is in the dead-letter stream |
| `IngestDelivery.TrimmedIsNotDelivered` | src/shared/messaging/consumer.py:57-90 | In every run a trimmed message is never delivered again, nor for the first time |
| `IngestDelivery.ExpiredKeyIsFree` | src/shared/messaging/dedupe.py:16-23 | An event whose key is set cannot be reserved; once the key has expired it can, whatever worker still has it |
| `Processing.DatabaseReplaysLedger` | src/ingest_worker/processor.py:62-103 | After any deliveries whatever, with faults at every call, the tables equal the fold of the handlers over the ledger, no event id twice, and keep every table invariant |
| `Processing.OnlyCommitsChangeTables` | src/ingest_worker/processor.py:85-103 | Outcome by outcome, what a delivery changed: only a commit touches tables and ledger, and it adds exactly its own event |
| `Processing.CommittedEventIsInert` | src/ingest_worker/processor.py:41-44 | Once an id is in the ledger, its later deliveries, at any distance, among any others and under any faults, might as well not happen: tables and ledger end the same without them |
| `Processing.OutcomeIff` | src/ingest_worker/processor.py:62-116 | Exactly when a delivery is rejected, a duplicate, processed or to be retried, and exactly when it commits |
| `Processing.KeyAfter` | src/shared/messaging/dedupe.py:16-34 | What a delivery leaves of its reservation: released exactly after a retry whose release got through; no other key changes |
| `Processing.AcknowledgedIsDealtWith` | src/ingest_worker/processor.py:28-32 | An acknowledged outcome whose key was unset means that the event is in the ledger, was refused by a constraint, or is of an unknown type |
| `IngestWorkers.EventProcessor.ProcessEvent` | src/ingest_worker/processor.py:62-83 | The processor, in place over keys, ledger and tables, does what the processing function says under every combination of faults |
| `IngestWorkers.EventProcessor.Apply` | src/ingest_worker/processor.py:85-116 | One transaction: ledger row and effect together, rollback on violation, on a duplicate id, on other exceptions, and on a database error before, between or after the two writes |
| `IngestWorkers.EventProcessor.Claim` | src/shared/messaging/dedupe.py:16-23 | The reservation succeeds if the key is new or Redis is down, and leaves the key set accordingly |
| `IngestWorkers.EventProcessor.Release` | src/shared/messaging/dedupe.py:25-34 | The key is removed unless the call is lost |
| `IngestWorkers.IngestWorker.Persist` | src/ingest_worker/main.py:91-114 | The batch loop computes world, ack list and dead-letter list of the batch specification |
| `IngestWorkers.MessageAdds` | src/ingest_worker/main.py:98-110 | What each message of a batch adds: to the acknowledgements if and only if it parses and ended PROCESSED, DUPLICATE or REJECTED; to the dead letters if and only if it does not parse or ended RETRY at its last delivery; nothing if and only if it ended RETRY before that |
| `IngestWorkers.BatchLists` | src/ingest_worker/main.py:91-114 | The two lists of a batch are the ids of exactly those messages, in the order of the batch |
| `IngestWorkers.AcknowledgedIsSafe` | src/ingest_worker/main.py:107-110 | An acknowledged event whose key was unset when its turn came is in the ledger after the batch, was refused by a constraint, or was rejected |
| `IngestWorkers.BatchSplits` | src/ingest_worker/main.py:98-110 | Each message of a batch is acknowledged or dead-lettered at most once and never both; all are, when all are at their last delivery |
| `IngestWorkers.BatchKeepsReplay` | src/ingest_worker/main.py:91-114 | A batch, whatever it contains and whatever fails, keeps the database a replay of its ledger |
| `UnitOfWorks.UnitOfWork.Commit` | src/shared/db/uow.py:44-45 | Tables and ledger become the transaction's, together |
| `UnitOfWorks.UnitOfWork.Rollback` | src/shared/db/uow.py:34-48 | The pending changes of every table and of the ledger are dropped |
| `UnitOfWorks.UnitOfWork.Register` | src/shared/db/repositories.py:286-291 | The ledger gains the event exactly when its id is new |
| `UnitOfWorks.UnitOfWork.UpsertClient` | src/shared/db/repositories.py:51-70 | In-place client upsert against its specification |
| `UnitOfWorks.UnitOfWork.UpsertVersion` | src/shared/db/repositories.py:88-127 | In-place versioning against the specification the refinement theorem is about |
| `UnitOfWorks.UnitOfWork.CreateOrder` | src/shared/db/repositories.py:146-190 | The order row and, by the loop, exactly its lines in order |
| `UnitOfWorks.UnitOfWork.Transition` | src/shared/db/repositories.py:192-203 | The status moves, and closed_at with it, exactly when the transition is allowed from the status the transaction saw |
| `UnitOfWorks.UnitOfWork.UpsertPayment` | src/shared/db/repositories.py:215-246 | In-place payment upsert by provider transaction, approval time set once |
| `UnitOfWorks.UnitOfWork.CreateInvoice` | src/shared/db/repositories.py:263-283 | The invoice is inserted exactly when both unique constraints allow it |
| `UnitOfWorks.UnitOfWork.Enqueue` | src/shared/db/repositories.py:298-316 | One fresh row, due at once |
| `UnitOfWorks.UnitOfWork.HandleClient` | src/ingest_worker/handlers/client_handler.py:13-24 | The handler's statements, in sequence, end as its specification says |
| `UnitOfWorks.UnitOfWork.HandleOrder` | src/ingest_worker/handlers/order_handler.py:15-56 | Likewise, with the repeated order, the missing client or address and the billing choice |
| `UnitOfWorks.UnitOfWork.HandlePayment` | src/ingest_worker/handlers/payment_handler.py:20-39 | Likewise, with the approval and the message queued in one transaction |
| `UnitOfWorks.UnitOfWork.HandleInvoice` | src/ingest_worker/handlers/invoice_handler.py:14-33 | Likewise, with the refused transition ignored |
| `OrderTables.HandleExtends` | src/shared/db/repositories.py:88-246 | A committed event only adds: keys, protected columns, versions, lines, invoices, payments and messages already written stay, and no status goes back |
| `OrderTables.HandleKeepsInv` | src/ingest_worker/handlers/payment_handler.py:20-39 | Every committed event keeps keys, references, life cycle, totals and payloads right |
| `Handlers.LineTotalIsProduct` | src/shared/db/repositories.py:176-190 | A line total is unit price times quantity |
| `OrderTables.NewItemsSummed` | src/shared/domain/events.py:72-74 | The total an order is created with is the sum of the lines written for it |
| `Transactions.CommitKeeps` | src/ingest_worker/processor.py:91-103 | Whatever other transactions committed between its lookups and its commit, a transaction that is not an overtaken approval keeps keys, references, life cycle, totals and payloads right, and only adds |
| `Transactions.InOrderIffNotOvertaken` | src/shared/db/repositories.py:192-199 | Exactly what must be serialised: a commit keeps the tables in order if and only if it is not an approval of an order that it read as PENDING and that has moved since |
| `Transactions.OvertakenQueuesTwice` | src/ingest_worker/handlers/payment_handler.py:35-39 | An overtaken approval leaves the order with two queued messages |
| `Transactions.PayloadDescribes` | src/shared/domain/order_payload.py:8-60 | The queued payload, put together from states of different ages, describes the order as it is at the commit |
| `Transactions.SerialIsHandle` | src/ingest_worker/processor.py:91-103 | A transaction none of whose lookups is out of date does exactly what the handler function does |
| `Transactions.ApprovalTimeKeptIff` | src/shared/db/repositories.py:236-246 | With overlapping transactions a recorded approval time survives a payment of the same provider transaction if and only if that is no approval at another time that read the payment before it was approved |
| `Transactions.StepKeepsInv` | src/ingest_worker/processor.py:85-116 | Each step of overlapping transactions keeps the tables, the current-address index and the order of the committed states |
| `TransactionRuns.OrderLifeCycle` | src/ingest_worker/handlers/invoice_handler.py:14-33 | In every reachable state of overlapping transactions: no queued message while PENDING and exactly one afterwards, INVOICED implies an invoice, closed_at null exactly while PENDING, total equal to the sum of lines |
| `TransactionRuns.StatusChangesAtMostTwice` | src/shared/domain/enums.py:26-31 | In every run of overlapping transactions an order changes status at most twice |
| `TransactionRuns.SnapshotsStayTrue` | src/shared/domain/order_payload.py:8-60 | However much later, transactions overlapping, a queued message matches its order's protected columns, items and addresses, and the pinned address versions read as when the order was created |
| `TransactionRuns.DeliveryIsTransaction` | src/ingest_worker/processor.py:62-103 | Any delivery, with any faults, processed alone is such a transaction: it begins, and commits having missed nothing or leaves nothing |
| `TransactionOutcomes.ClientColumnsSurvive` | src/shared/db/repositories.py:51-63 | A client update overwrites only the columns in which the event differs from what it read; concurrent changes of the others survive |
| `TransactionOutcomes.ClientAddedOrRefused` | src/shared/db/repositories.py:65-70 | A client it did not find is added, or refused if another transaction has added it |
| `TransactionOutcomes.AddressWritten` | src/shared/db/repositories.py:88-127 | It closes the version it read as current and opens a new one, unless that version reads as the event does |
| `TransactionOutcomes.OrderPinsWhatItRead` | src/ingest_worker/handlers/order_handler.py:15-56 | A new order pins the client and the versions its own lookups found current, or is refused if another transaction has placed it |
| `TransactionOutcomes.PaymentColumnsSurvive` | src/shared/db/repositories.py:227-246 | A payment found by its provider transaction gets the status and approval time the event changes; all other columns and rows stay |
| `TransactionOutcomes.PaymentAddedOrRefused` | src/shared/db/repositories.py:227-246 | One not found is added with the event's columns, or refused if another transaction has added it |
| `TransactionOutcomes.PaymentMoves` | src/ingest_worker/handlers/payment_handler.py:25-39 | Order and queue change exactly for an approval of an order read as PENDING |
| `TransactionOutcomes.InvoiceFromOutcome` | src/ingest_worker/handlers/invoice_handler.py:14-33 | Ignored, refused or added by what was read and what is there at the commit; the order moves if it read as APPROVED |
| `TransactionOutcomes.AnyLookupsMayCommit` | src/ingest_worker/processor.py:91-103 | A transaction may commit whichever committed states, in order since it began, each of its lookups read: shown for a client none of them knew, with the tables it leaves |
| `TransactionOutcomes.UnrelatedOverlap` | src/ingest_worker/handlers/client_handler.py:13-24 | Two unrelated clients handled at the same time both commit, though the second has read nothing of the first |
| `Messages.QueuedMessageIsRight` | src/shared/domain/order_payload.py:8-60 | In every reachable state each queued message names one order, carries its columns and its two pinned addresses, and lists its lines one by one, in order, each with its own product, summing to its total |
| `Messages.ApprovalMessageTells` | src/shared/domain/order_payload.py:8-74 | When queued, the message says of order, customer, addresses, lines and newest payment what the tables say, column by column |
| `Messages.CommitMessageTells` | src/shared/domain/order_payload.py:8-74 | With overlapping transactions it says what its transaction read: customer, addresses and lines as last looked at, order and payment as the transaction has them, or the newer payment it saw |
| `Messages.LinesOfOrder` | src/shared/domain/order_payload.py:14-14 | The lines of an order are all rows of the table that belong to it, each once, in order |
| `OrderRuns.RepeatedOrderAbsorbed` | src/ingest_worker/handlers/order_handler.py:18-19 | A repeated order.created under any event id, in any later state, changes nothing |
| `OrderRuns.RepeatedInvoiceAbsorbed` | src/ingest_worker/handlers/invoice_handler.py:21-22 | A repeated invoice.issued, in any later state, changes nothing |
| `OrderRuns.RepeatedPaymentAbsorbed` | src/shared/db/repositories.py:215-246 | A repeated approved payment, in any later state, adds no row anywhere; at most the payment status returns to APPROVED |
| `OrderRuns.ApprovalTimeIsFinal` | src/shared/db/repositories.py:236-246 | In every run of serial events a payment's approved_at, once set, never changes |
| `OrderRuns.RunRefinesUpsertLog` | src/ingest_worker/handlers/client_handler.py:13-24 | In every run on a clock that never goes back, the address table refines the log of the upserts the run commits |
| `HandlerOutcomes.OrderPinsCurrentVersions` | src/ingest_worker/handlers/order_handler.py:15-56 | A new order is pending and pinned to the address versions current at that moment, under the uids the event named, with one line per item in order |
| `HandlerOutcomes.ClientOutcome` | src/ingest_worker/handlers/client_handler.py:13-24 | A client event leaves one row for its client, column by column as the event says, and for its address a new current version, the one it replaces ending then, unless the current one reads the same |
| `HandlerOutcomes.TransitionsAre` | src/shared/domain/enums.py:26-31 | Which status changes are allowed: APPROVED from PENDING, INVOICED from APPROVED, CANCELLED from either |
| `HandlerOutcomes.MalformedIff` | src/shared/domain/events.py:40-98 | An event is malformed exactly if it does not decode, has no lines or a bad one, or a negative amount or total |
| `HandlerOutcomes.WaitsForOrder` | src/ingest_worker/handlers/payment_handler.py:41-46 | A payment or an invoice waits exactly as long as its order is missing |
| `HandlerOutcomes.RefusedIff` | src/shared/db/models.py:201-202 | Handled alone, exactly an invoice whose number is taken is refused by a constraint |
| `HandlerOutcomes.OrderIsRetriedUntilReady` | src/ingest_worker/handlers/order_handler.py:20-56 | After any deliveries, an order.created neither reserved nor committed is retried, leaving nothing behind, exactly as long as its client or a current version of an address is missing; once they have arrived, however long ago, it is placed |
| `HandlerOutcomes.ReadyStays` | src/ingest_worker/handlers/order_handler.py:20-56 | Client and current address versions once ingested are there after any further deliveries |
| `HandlerOutcomes.PaymentOutcome` | src/ingest_worker/handlers/payment_handler.py:20-39 | A payment moves its order if and only if it is approved and the order was pending; then it closes at the payment's time and one message is queued; otherwise orders and messages stay |
| `HandlerOutcomes.PaymentIsRecorded` | src/shared/db/repositories.py:215-246 | One row per provider transaction, found or added, carries the status just reported; no other payment changes |
| `HandlerOutcomes.InvoiceOutcome` | src/ingest_worker/handlers/invoice_handler.py:14-33 | An invoice is refused exactly when its number is taken and the order has none; it moves the order if and only if it was added and the order was approved |
| `Triggers.OrdersPassIff` | migrations/versions/0002_immutability_triggers.py:29-51 | A statement on orders does nothing if it deletes an order that is not PENDING or changes any column of one but status, closed_at and source_event_id, and all it says if not |
| `Triggers.ItemsPassIff` | migrations/versions/0002_immutability_triggers.py:62-77 | A statement on lines does nothing if a line it touches is or becomes one of an order that is not PENDING, and all it says if not |
| `Triggers.StatusColumnsAreFree` | migrations/versions/0002_immutability_triggers.py:29-44 | Those three columns of a closed order can be set to anything |
| `Triggers.ProtectedIffClosed` | migrations/versions/0002_immutability_triggers.py:17-77 | The triggers keep all columns of an order but those three, and its items, from every statement there is if and only if it is not PENDING |
| `Triggers.FrozenWhileClosed` | migrations/versions/0002_immutability_triggers.py:17-77 | Over every run of arbitrary statements that never leaves the status of this one order open, whatever happens to the others, all its columns but those three and its items stay |
| `Triggers.ClosedOrdersAreFrozen` | migrations/versions/0002_immutability_triggers.py:17-77 | In particular over every run of arbitrary multi-row statements whose status changes follow the allowed transitions: a closed order stays closed and keeps all columns but those three, and its items |
| `Triggers.StatusRollbackThaws` | migrations/versions/0002_immutability_triggers.py:29-44 | The status itself is not guarded: two statements that pass the triggers reopen any closed order and change its total |
| `Triggers.HandlersNeverTripTriggers` | migrations/versions/0002_immutability_triggers.py:17-77 | The statements of any event handled serially, run through the triggers, give exactly the tables the handler asked for |
| `Triggers.TransactionsNeverTripTriggers` | migrations/versions/0002_immutability_triggers.py:17-77 | So do those of every transaction of a run, whatever it overlapped with |
| `AddressHistory.VersionsRefineLog` | src/shared/db/repositories.py:88-134 | For every log of serial upserts and every time, exactly one version covers it from the first upsert on, and reads as the last upsert at or before it |
| `AddressHistory.UpsertRefines` | src/shared/db/repositories.py:88-127 | One upsert extends the refinement by itself |
| `AddressRaces.FinishOutcome` | src/shared/db/repositories.py:88-126 | A transaction that saw what is still the current version, with other fields, ends it and opens the new one at that time; in every other case the table stays; the other transactions remain open |
| `AddressRaces.AloneIsUpsert` | src/shared/db/repositories.py:88-126 | A transaction nobody comes between does what the upsert does |
| `AddressRaces.IndexRejectsStaleWriters` | src/shared/db/models.py:66-74 | The filtered unique index rejects a write if and only if the version its transaction saw is no longer the current one |
| `AddressRaces.ChainSurvivesStaleReads` | src/shared/db/repositories.py:88-127 | Under any interleaving of reads, writes and rollbacks, committed versions of an address form one contiguous chain, neighbours differing |
| `AddressRaces.OneCurrentVersion` | src/shared/db/models.py:66-74 | Every address with a version has exactly one current version, its newest |
| `Outbox.AttemptsAndHoldersBounded` | src/dispatch_worker/outbox_reader.py:14-38 | In every interleaving of claims, crashes, stale releases and late settlements: attempts at most max(dispatch_max_attempts, 1) plus the row's releases, and at most one holder plus the releases |
| `Outbox.StepKeepsInv` | src/dispatch_worker/main.py:93-146 | The inductive invariant over rows and outstanding claims that gives these bounds |
| `Outbox.SettledIsFinalIffUnheld` | src/shared/db/repositories.py:318-352 | A SENT or DLQ row reads the same in every continuation, to the last column, if and only if no claim of it is still being dispatched |
| `Outbox.SettledReopensIffEarlyClaim` | src/dispatch_worker/main.py:114-119 | Such a row can go back to work if and only if one of those claims was of an attempt short of the limit |
| `Outbox.SettledIsFinal` | src/shared/db/repositories.py:318-352 | In particular it is final if it is never released |
| `Outbox.RowsPersist` | src/shared/db/repositories.py:347-352 | No step changes a row's message or lowers its attempts |
| `OutboxLocks.ReleasedIffOverdue` | src/dispatch_worker/outbox_reader.py:29-38 | In every run: a row is released if and only if it is in flight and its last claim was made more than 120 seconds before; exactly these rows go back to the queue, and no other row changes |
| `OutboxLocks.ClaimWrites` | src/dispatch_worker/outbox_reader.py:14-27 | A claim takes at most a batch of rows, only queued and due ones, counts the attempt and locks them from now for its worker, and changes nothing else |
| `OutboxLocks.DeathDropsItsClaims` | src/dispatch_worker/main.py:52-78 | A dispatcher that dies changes no row; what it had claimed can no longer be settled, and every other outstanding claim still can |
| `OutboxLocks.SettlementWrites` | src/shared/db/repositories.py:318-352 | A settlement unlocks its row whatever has become of it and leaves it sent, to be tried after the delay, or dead, column by column; no other row changes |
| `OutboxLocks.CapDoublesUpToMax` | src/dispatch_worker/erp_client.py:71-76 | The longest delay starts at the base and doubles with each attempt up to the maximum |
| `OutboxLocks.BaseAboveMaxRules` | src/dispatch_worker/erp_client.py:71-76 | A base above the maximum is every delay's bound |
| `OutboxRuns.AttemptsBoundIsReached` | src/dispatch_worker/main.py:114-119 | For every number of releases some run uses every attempt the bound allows |
| `OutboxRuns.LateWorkerReopensSentRow` | src/shared/db/repositories.py:347-352 | A run with one release in which a late worker overwrites a SENT row, with PENDING, or with DLQ where a single attempt is allowed |
| `OutboxRuns.AlwaysFailingRowIsDeadLettered` | src/dispatch_worker/main.py:114-126 | A row that always fails temporarily and is never released is dead after exactly max(N, 1) posts and not before, the backoff scheduled lies within the stated bounds and at least that much time has passed |
| `OutboxRuns.RunDelays` | src/shared/db/repositories.py:328-336 | The clock keeps up with the backoff: over any run such a row is not posted again before the delays scheduled for it have passed |
| `OutboxRuns.TotalWait` | src/dispatch_worker/erp_client.py:71-76 | The total wait lies between (N-1) times the base and both base*(2^N - 2) and (N-1)*max(base, backoff_max) |
| `OutboxRuns.WaitsInTurn` | src/dispatch_worker/erp_client.py:71-76 | The k-th wait of such a row is one that attempt k may draw, and there is one per post but the last |
| `Dispatch.VerdictOf` | src/dispatch_worker/erp_client.py:48-68 | Which reply leads to SENT, to a retry or to the dead letters |
| `Dispatch.BackoffDelay` | src/dispatch_worker/erp_client.py:71-76 | The delay is drawn evenly from the attempt's backoff: the random number's share of the way from the base to the cap |
| `Dispatch.OutboxTable.Claim` | src/dispatch_worker/outbox_reader.py:54-60 | Due unlocked rows up to the batch size, fewer only if no other is due and unlocked; each claimed once, the items carrying the attempts after the increment, every other row untouched |
| `Dispatch.OutboxTable.ReleaseAbandoned` | src/dispatch_worker/outbox_reader.py:62-66 | Exactly the rows in flight locked for longer than that go back to the queue, unlocked and otherwise as they were, and are counted; the others stay |
| `Dispatch.OutboxTable.Update` | src/shared/db/repositories.py:347-352 | An update by id only; a missing id changes nothing |
| `Dispatch.DispatchWorker.Reschedule` | src/dispatch_worker/main.py:114-126 | Retry or dead letter, decided on the claim's attempts |
| `Dispatch.DispatchWorker.SendAndSettle` | src/dispatch_worker/main.py:93-103 | One reply settles one row by the verdict of that reply, a retry delayed within the backoff |
| `Dispatch.DispatchWorker.DispatchAll` | src/dispatch_worker/main.py:75-75 | Settling a claimed batch is a run of the protocol: for each item, some time later, a settlement by the verdict of its own reply |
| `Dispatch.DispatchWorker.ClaimBatch` | src/dispatch_worker/main.py:77-82 | The claim is a step of the protocol and every item an outstanding claim |
| `Dispatch.DispatchWorker.ReleaseWhenDue` | src/dispatch_worker/main.py:66-69 | Stale locks are released in every sixtieth cycle and only then |
| `Dispatch.DispatchWorker.PollOnce` | src/dispatch_worker/main.py:61-75 | One turn of the loop is exactly this run of the protocol: a release when due, one claim, and for each claimed item one settlement |
| `ErpRuns.OneErpOrderPerOrder` | src/erp_mock/main.py:42-57 | In every run of overlapping handler transactions, dispatch and ERP together, with late workers, lost answers and requests that arrive after their worker died, no order is registered twice |
| `ErpRuns.SentMeansHeld` | src/dispatch_worker/main.py:93-103 | A SENT row always means the ERP holds that order under that row's key |
| `ErpRuns.ErpHoldsOnlyApprovedOrders` | src/ingest_worker/handlers/payment_handler.py:35-39 | Every order the ERP holds is APPROVED or INVOICED in the tables, with the same total, number of lines and city |
| `ErpRuns.ErpIdIsFinal` | src/erp_mock/main.py:87-101 | Once an order has an ERP id it keeps it |
| `ErpRuns.AcknowledgementsAgree` | src/erp_mock/main.py:47-49 | All acknowledgements for an order name the same ERP order |
| `ErpRuns.TablesReplayLedger` | src/ingest_worker/processor.py:62-103 | In every run whose committing transactions missed nothing, dispatch included, the tables replay the ledger up to the columns dispatch writes |
| `ErpRuns.StaleApprovalRegistersTwice` | src/shared/db/repositories.py:192-199 | An overtaken approval queues a second row and the ERP registers the order twice |
| `ErpRuns.RunProjects` | src/dispatch_worker/outbox_reader.py:14-38 | Every run of the pipeline is, at the outbox, a run of the dispatch protocol |
| `ErpRuns.PostsBounded` | src/dispatch_worker/main.py:93-126 | In every run the ERP receives no more requests for a row than are made for it, and those, counted one by one, are at most the row's attempts, within the protocol's bound |
| `DispatchColumns.HandleIgnoresDispatch` | src/ingest_worker/handlers/payment_handler.py:63-71 | A handler ends the same way whatever the dispatcher did to the outbox |
| `ErpSafety.SettleKeeps` | src/dispatch_worker/main.py:93-103 | Settlement keeps the invariant: SENT only after the ERP acknowledged that row's key |
| `ErpSafety.ArriveKeeps` | src/erp_mock/main.py:42-57 | Receipt keeps the invariant: an unknown key is an order the ERP does not hold |
| `ErpSettlements.AcknowledgedPostIsSent` | src/dispatch_worker/main.py:93-103 | In every reachable state, settling an acknowledged post by its HTTP answer makes the row SENT, first acknowledgement or repeated |
| `ErpSettlements.AcknowledgedPostCanSettle` | src/erp_mock/main.py:42-57 | And such a settlement is possible while the claim is outstanding: the answer is a 201 |
| `ErpSettlements.RefusedPostIsRetried` | src/erp_mock/main.py:73-83 | A post the ERP failed on leaves its row queued, or dead at the limit, never SENT |
| `ErpSettlements.LateRequestArrives` | src/erp_mock/main.py:42-83 | In every reachable state a request posted and not yet received can reach the ERP, whatever has become of its claim, and fail there as a 500 or 503; a failure before the key is acknowledged leaves the ERP as it was |
| `ErpSettlements.CanGiveUp` | src/dispatch_worker/erp_client.py:48-59 | A dispatcher can give up on a request, answered or not, and its row is queued again, or dead at the limit |
| `ErpSettlements.TransactionsInterleave` | src/ingest_worker/processor.py:62-116 | Every run of overlapping handler transactions is a run of the whole pipeline, with the same tables |
| `ErpSettlements.ClaimCanBeDelivered` | src/dispatch_worker/main.py:93-103 | An outstanding claim can be posted, received and settled to SENT, also if the ERP had acknowledged its key before and the answer was lost; the ERP then registers nothing |
| `ErpSettlements.LostAnswerIsHealed` | src/dispatch_worker/main.py:93-126 | A post the ERP registered and whose answer was lost leaves its row queued; once due, some run claims and posts it again, the ERP registers nothing more, and the row is SENT |
| `ErpSettlements.AbandonedCanBeDelivered` | src/dispatch_worker/outbox_reader.py:29-38 | In every reachable state a message in flight, whatever became of its worker, can be released once its lock is old enough, claimed again and delivered |
| `ErpSettlements.QueuedCanBeDelivered` | src/dispatch_worker/outbox_reader.py:54-60 | In every reachable state any message queued and due can be claimed and delivered |
| `EndToEnd.KeysDiffer` | src/dispatch_worker/main.py:95-97 | Two outbox rows never share an idempotency key |
| `ErpMock.AcknowledgedKeyIsInert` | src/erp_mock/main.py:47-57 | Once a key is acknowledged, requests with it might as well not be sent, however many and among whatever others, and each is answered with the first id |
| `ErpMock.Service.ReceiveOrder` | src/erp_mock/main.py:42-57 | The endpoint over its two dictionaries computes the receipt function |
| `ErpMock.Service.Register` | src/erp_mock/main.py:87-101 | The record and the order dictionary |
| `BulkPlan.PlanChunks` | airflow/dags/ecommerce/generator.py:103-113 | Chunks numbered from zero, sizes summing to the row count, all full but the last; an error for arguments that are not positive |
| `BulkPlan.PlanIsUnique` | airflow/dags/ecommerce/generator.py:103-113 | These clauses determine the plan |
| `BulkPlan.SequencesDistinctIff` | airflow/dags/ecommerce/generator.py:52-65 | Order numbers are pairwise distinct if and only if there is one chunk or the chunk size divides the row count, and then they are exactly 0 to row_count - 1 |
| `BulkPlan.ShortLastRepeats` | airflow/dags/ecommerce/generator.py:52-56 | Otherwise the short last chunk starts inside numbers already used |
| `BulkLoad.GenerateRows` | airflow/dags/ecommerce/generator.py:42-81 | The rows of a chunk, numbered from its index times its own row count |
| `BulkLoad.ReadInBatches` | airflow/dags/ecommerce/bulk_loader.py:79-92 | Batches concatenate back to the lines after the header, none empty, all but the last of the batch size (one, if it is not positive) |
| `BulkLoad.OrderHistoryLoad.LoadWithExecutemany` | airflow/dags/ecommerce/bulk_loader.py:61-76 | All rows and their number, or, if the connection dies, exactly the rows before that |
| `BulkLoad.OrderHistoryLoad.LoadWithBulkInsert` | airflow/dags/ecommerce/bulk_loader.py:47-58 | Likewise; the count returned is that of the whole table |
| `BulkLoad.OrderHistoryLoad.GenerateAndLoad` | airflow/dags/load_order_history_dag.py:71-83 | One attempt at one chunk, failing while writing, loading or removing the file |
| `BulkLoad.OrderHistoryLoad.LoadFact` | airflow/dags/load_order_history_dag.py:85-96 | The fact table becomes the staging table, and its count |
| `BulkLoad.OrderHistoryLoad.Run` | airflow/dags/load_order_history_dag.py:55-130 | When every chunk's last attempt succeeded, the validation accepts if and only if no failed attempt left rows behind, and then the fact table holds each planned row exactly once |
| `BulkLoad.CountIsRightIffNothingLeftOver` | airflow/dags/load_order_history_dag.py:98-103 | The staging count is right if and only if nothing was left over, and then staging is the planned multiset |
| `BulkLoad.StagedIsPlannedPlusLeftover` | airflow/dags/load_order_history_dag.py:71-83 | In every order of attempts, staging contains the planned rows and exceeds them by exactly the leftovers |
| `BulkLoad.RowNumbers` | airflow/dags/ecommerce/generator.py:55-65 | The loaded rows carry the plan's order numbers |
| `WebhookBuffer.AcceptedIsTakenThenQueued` | src/webhook_api/buffer.py:35-73 | For any interleaving of requests and flushes: accepted events are, in order, the batches taken, the batch in flight and the queue; published counts the events of the batches whose publication returned, never more than reached the stream; depth respects a positive capacity |
| `WebhookBuffer.NothingLostWithoutFailure` | src/webhook_api/buffer.py:61-64 | In every run from the empty buffer, what reached the stream, is in flight and is queued is everything accepted, in order, if and only if every batch landed whole, as it does when its publication returns; the counter accounts for everything acknowledged if and only if every publication returned |
| `WebhookBuffer.TakenInTurn` | src/webhook_api/buffer.py:66-73 | First in, first out: an event has left the queue once the takes since could have removed it and those before it |
| `WebhookBuffer.EventBuffer.Submit` | src/webhook_api/buffer.py:35-39 | The event is queued exactly when the queue is not full; a capacity of zero or less never is |
| `WebhookBuffer.EventBuffer.TakeBatch` | src/webhook_api/buffer.py:66-73 | The longest prefix of at most buffer_max_batch events |
| `WebhookBuffer.EventBuffer.FinishFlush` | src/webhook_api/buffer.py:61-64 | A publication that returns counts its batch; one that raises counts nothing and may have put any of its events into the stream |
| `WebhookBuffer.EventBuffer.IngestEvents` | src/webhook_api/api/routes.py:45-64 | The longest prefix that fits is accepted, none if overloaded, and the status is 429 exactly when some event was not |

## Left out

- Commands on several stream messages at once (batch read, batch reclaim, batch ack): one step per message, so that every interleaving of the batch form is included; the idle-time condition of a reclaim is dropped, so more reclaims are possible than in the code.
- REJECTED events in the ingest protocol: the worker's registry covers all four event types; `Processing` has the branch.
- Overlapping ERP requests with the same key: the mock waits between its check and its write, so two such requests can register an order twice.
- Identity gaps: a rolled-back insert consumes a key in SQL Server and none here.
- Field lengths, upper-casing of the state and the other format checks of events: a message either decodes or does not; the amount, quantity and non-empty checks are modelled.
- SQL string comparison: exact equality, no collation, no truncation by column width.
- The error text kept in an outbox row: the prefixes and the cut to 1000 characters are modelled, the reply's own wording is not.
- Trimming of the dead-letter stream to its maximum length, and the reason text of an entry.
- Clocks that disagree: application and database time are one clock.
- `EventBuffer.stop`: one bounded flush after cancelling the flusher; not a full drain.
- The backpressure probe, its clamp and the Retry-After header: one-line bounds.
- The two retries a load task may take: `BulkLoad` lets a chunk fail any number of times before it succeeds, which includes those runs; a run that gives a chunk up ends before the copy and the count.
- The null check of validate_load: generated rows leave no column empty.
- Text of order numbers and file names, random columns of generated rows: one number and one opaque sample per row.
- The order of settlements in one polling turn: `Dispatch.DispatchWorker.PollOnce` settles the items one after the other, each at a later time; concurrent settlements are in `Outbox` and `EndToEnd`.
- Which due rows a claim prefers: the statement has no order; the model takes the oldest rows first, and no theorem about the protocol depends on it.
- IngestReclaimLoss.ReclaimIsFatalIffContended: exact for the last owed message of an event; for several owed ones only the harmless half is proved (`IngestReclaimLoss.HarmlessReclaim`), no converse.
- IngestRetries.DeadLetterCanRepeat: one way to a repeated entry; the number of entries of a message is not bounded here (deaths between append and ack, and reclaims while a dead-letter list still holds the message, each can add one).
- Dispatch.VerdictOf: a reply below 400 whose body is not JSON counts as delivered; in the code its decoding raises out of the polling turn, which is a death of the worker in `Outbox` and `EndToEnd`.
- OrderRuns.ApprovalTimeIsFinal: serial events only; overlapping transactions that use one provider transaction for two orders can overwrite the time, exactly as `Transactions.ApprovalTimeKeptIff` says.
- A reclaim of a message by the worker that itself still has it waiting: excluded from `IngestReclaimLoss.ReclaimIsFatalIffContended`; `IngestReclaims.NoEventIsLostWithoutDanger` covers it.
- CPF digits, columnstore, staging DDL, scripts, logging, configuration, Docker and Airflow scheduling.
