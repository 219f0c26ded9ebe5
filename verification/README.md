# A verified model of the engine's crash-safe order ledger

The engine trades one instrument for one bot. Two processes write one SQLite ledger: the trading worker submits
orders, the reconciliation worker listens to the exchange's user data stream and compares the ledger with the
exchange. Reports, executions and events arrive over REST and over the stream, twice, late, in any order, and either
process may die between any two transactions. A control plane written in PHP keeps a copy of the orders that is fed from
a transactional outbox. Beside the engine stands a backtester for the same strategy.

The model follows that structure. What the engine changes in place is a class whose methods are proved equal to a
function on values; what the design promises is proved about that function, over every run, as lemmas.

| files | part of the program |
|---|---|
| `Common`, `Orders`, `OrderLaws`, `OrderRecords` | the order entity, its status machine, the merge of a report into an order, and what the fields of an order say about one another |
| `Positions`, `PositionLaws`, `PositionRecords` | position and P&L accounting over fills, what a fill moves, and the fields of a position |
| `Ledger`, `LedgerService`, `LedgerLaws` | the tables, the transactions of every writer, and what every run of them keeps |
| `Confluence`, `Refusals`, `Interleaving` | an exchange with histories, and delivery of what it says in any order and any number of times, between the engine's own writes and refusals |
| `StreamOutcomes`, `CallOutcomes` | how a report, a stream event and each call of the order service end, and what each end does to the tables |
| `Submission`, `SubmissionOutcomes`, `SubmissionLaws`, `ServiceRuns` | submission, what each outcome leaves of the order, ambiguous submissions, racing and crashing workers, and the transactions a service call consists of |
| `Mirror` | the control plane's copy of the orders and its ledger of request ids |
| `Outbox`, `OutboxFlush`, `OutboxLaws`, `OutboxOrder` | dispatchers, one flush row by row, lease and bounded retries under a clock, and the order in which its messages are marked sent |
| `Attempts`, `Opening`, `SellExposure`, `TradingCycle` | retries of one decision, when a position was opened, and what may still be sold |
| `Discipline` | what the worker's own checks are enough for, with nothing trusted |
| `TradingWorker`, `WorkerRuns` | the order-placing methods, in place, and as runs of the trading machine |
| `CancelLaws`, `DoubleSale`, `Episode` | when a cancel and an exit are safe, and runs from an empty ledger in which they are not |
| `ReconState`, `Worker`, `Verdicts` | the saved reconciliation state, its gates, the reconciliation worker as a state machine, and what each run and event opens or closes |
| `Reconciliation`, `ReconciliationService`, `ReconciliationLaws`, `ReconciliationLoops`, `ReconciliationTheorems` | one reconciliation run, what HEALTHY means, and running it twice |
| `ReconciliationWindows`, `Findings`, `Completion` | how far back runs look, over successive runs, what exactly a run finds, and when it completes |
| `Paper`, `PaperLaws` | the simulated exchange of PAPER mode, and that it is an exchange as the theorems want one |
| `Sizing`, `SizingLaws`, `Pagination` | sizing and daily halt, reading trades page by page |
| `Backtest`, `BacktestLaws`, `BacktestTrades` | the backtester's bar loop, what it conserves, and when, why and at which price it trades |

Decimal and float quantities are `real`, times are `int`. The truncated SHA-256 of an intent id is taken to be
injective, so a client order id is either derived from an intent or foreign. A transaction of the store is one atomic
step; nested transactions are flat. The exchange, the clock and the network are parameters. Where a theorem needs
something from the exchange, it says so in a predicate: `Confluence.Consistent`, `SellExposure.Honest`,
`SubmissionLaws.Possible`, `ReconciliationLaws.AnswersAgree`. The trading machine keeps apart what the worker checks itself
(`TradingCycle.Allowed`) and what it trusts (`TradingCycle.Trusted`): its safety theorem is about trusted runs
(`TradingCycle.Reaches`), its counter-examples are runs of the worker's own checks alone (`TradingCycle.Runs`), and so are
the runs in which attempts follow one another and one SELL is live at a time (`Discipline`).

Where the comments of the source promise more than the code does, the model keeps the code and the lemmas say exactly
when the promise holds:

- A refusal that arrives after an acknowledgement is dropped without a trace in the status
  (`OrderLaws.SilentlyIgnoredExactly`, `OrderLaws.PairConfluenceExactly`).
- Equity and P&L differ by the money that was missed (`PositionLaws.EquityIdentity`). For purchases that received something
  for money, and sales, they agree exactly when no sale from a position that held something took more than that but not
  more than the tolerance beyond it (`PositionLaws.EquityAgreesExactly`). Given a clean order of execution, the rebuilt
  position agrees with the incremental one exactly when the fills arrived in a clean order (`LedgerLaws.RebuildAgreesExactly`).
- "Not found" is believed after a clock reading that follows the answer, so the grace period has to cover the latency of
  the answer too (`SubmissionLaws.NotFoundBelievableExactly`).
- Successive HEALTHY runs ask for every trade since the first exactly as long as each comes within the lookback of the one
  before (`ReconciliationWindows.GapExactly`, `ReconciliationWindows.EveryTradeHasItsRun`).
- HALTED is also left by a failing run, by a run with a pending ambiguous order and by a crash during a run
  (`Worker.LatchLeftExactly`, `Worker.LatchForgotten`).
- A failed outbox message is overtaken by later ones in spite of the `break` that should preserve the order: of the rows
  before a row of a batch exactly those are missing that are not pending or not due (`OutboxOrder.BatchExactly`). Over whole
  runs its messages are marked sent by id exactly when no row is delivered while the flush has gone past an earlier
  unsent one: dead, waiting, or rejected within the flush (`OutboxOrder.OrderKeptExactly`). Two runs from the start break it
  (`OutboxOrder.FailureBreaksOrder`, `OutboxOrder.RejectionBreaksOrder`).
- A cancel returns an order that has ended and is fully on record exactly when the acknowledgement and the answer ended it
  without contradicting each other, and what was on record and what the trade query brought make up the largest executed
  quantity they named (`CancelLaws.CancelSettlesExactly`). An exit, which sells the tracked quantity rounded down, is safe
  exactly when the unrecorded executions fit into the dust of the rounding (`DoubleSale.FullExitSafeExactly`). A cancel that is
  acknowledged with executions and followed by a failing refresh is neither, and the exit sells them a second time
  (`DoubleSale.CancelledExitOversells`, from an empty ledger in `Episode.CancelledExitHappens`).
- Attempts follow one another in every run, but that an earlier one has executed nothing lasts only as long as no report
  says otherwise: exactly when later reports of it are conflicts or name no executions (`Discipline.EmptyStaysExactly`,
  `Discipline.AttemptsFollowEnded`, `Discipline.RetriesAreDisciplined`).
- The opening time names the orders of a position, and a rebuild may change it: it keeps it exactly when the first recorded
  and the first executed fill since nothing was held have the same time (`Opening.RebuildKeepsOpeningExactly`,
  `Opening.EarliestOpensExactly`). Where it changes, a stop that fills between two reads of the worker no longer blocks the
  next attempt, and a second stop goes out against nothing (`DoubleSale.StaleReadOversells`, from an empty ledger in
  `Episode.StaleReadHappens`). The exposure theorem is restricted to rebuilds that keep it, and
  to those that come while no stop may still sell and no plan is held.

## Model

| member | source | states |
|---|---|---|
| `OrderModel.Order.Transition` | engine/domain/models.py:212-219 | a status changes only along an allowed edge, and a terminal one stamps the end |
| `OrderModel.Order.MarkSubmitting` | engine/domain/models.py:156-158 | only a new order starts submitting, stamped; anything else is left alone |
| `OrderModel.Order.MarkRejected` | engine/domain/models.py:160-165 | terminal orders stay, acknowledged ones cannot be rejected, others end REJECTED with the reason |
| `OrderModel.Order.ApplyReport` | engine/domain/models.py:167-210 | in place, a report has exactly the effect of the merge function, raising exactly when it contradicts the order |
| `OrderLaws.MergeProgress` | engine/domain/models.py:167-210 | no merge loses quantity, leaves a terminal status, lowers the rank or changes a known exchange id |
| `OrderLaws.AbsorbedExactly` | engine/domain/models.py:167-210 | a report changes nothing exactly when the order already knows its id, quantities, status and time |
| `OrderLaws.MergeIdempotent` | engine/domain/models.py:167-168 | the same report a second time changes nothing, whatever the clock says |
| `OrderLaws.SilentlyIgnoredExactly` | engine/domain/models.py:22-38 | which higher-ranked reports leave no trace: exactly a refusal after an acknowledgement, and non-refusals of an unsubmitted order |
| `OrderLaws.PairConfluenceExactly` | engine/domain/models.py:191-199 | two reports in both orders: both raise or neither does, and the final status depends on the order exactly for a refusal beside a non-final report |
| `OrderLaws.HistoryIsOrdered` | engine/domain/models.py:22-49 | along a valid exchange history quantities and ranks never fall |
| `OrderLaws.DeliveryReachesNewest` | engine/domain/models.py:167-210 | any sequence of deliveries of a history's reports raises nothing and leaves the order at the newest one delivered |
| `OrderLaws.Confluence` | engine/domain/models.py:167-210 | two sequences of deliveries with the same newest report leave the same status and quantities |
| `OrderLaws.RedeliveryChangesNothing` | engine/domain/models.py:167-168 | after any deliveries, delivering an earlier report again changes nothing |
| `OrderRecords.EdgesExactly` | engine/domain/models.py:22-49 | every allowed edge raises the rank, refusals come before the acknowledgement, an order that was never submitted can only be submitted or refused, and every such edge is allowed |
| `OrderRecords.ReportTakesFields` | engine/domain/models.py:167-210 | field by field what a report leaves: larger quantities, later exchange clock, stamps of end and acknowledgement, reason of a refusal, price paid per unit, and nothing else |
| `OrderRecords.EveryOrderAgrees` | engine/domain/models.py:156-219 | over every run of any writers: an order has a time of end exactly when it has ended, one of acknowledgement exactly when the exchange has confirmed it, a reason only when refused, and an average that is what was paid per unit |
| `PositionModel.Position.ApplyFill` | engine/application/position_service.py:33-76 | in place, a fill moves the position as the fold function does, with the realized amount and the anomalies it reports |
| `PositionModel.Position.ApplyBuy` | engine/application/position_service.py:43-53 | a BUY averages its cost in and opens the position when nothing was held |
| `PositionModel.Position.ApplySell` | engine/application/position_service.py:54-71 | a SELL realizes proceeds minus cost of what was held, never below zero, and closes at zero |
| `PositionModel.Position.TallyCommission` | engine/application/position_service.py:40-41 | commissions in a third asset are tallied per asset, no others |
| `PositionModel.Position.Mark` | engine/domain/models.py:263-265 | a mark revalues what is held and nothing else |
| `PositionModel.Rebuild` | engine/application/position_service.py:94-105 | the loop over fills computes the fold from an empty position, with all anomalies, keeping mark and stop |
| `PositionModel.PaperCash` | engine/application/position_service.py:133-141 | the loop computes the start balance plus the cash flow of every fill |
| `PositionLaws.Conservation` | engine/application/position_service.py:43-67 | for every history: quantity is net traffic plus what was clipped, basis is cash flow plus what was missed |
| `PositionLaws.EquityIdentity` | engine/application/position_service.py:133-149 | paper cash plus marked holdings is start plus all P&L up to the missed money, for every history |
| `PositionLaws.EquityAgreesExactly` | engine/application/position_service.py:57-61 | for purchases for money and sales, the two agree exactly when no sale from a position that held something fell into the tolerance band |
| `PositionLaws.MissedExactly` | engine/application/position_service.py:57-64 | what is missed is never in favour of the P&L, and nothing is missed exactly without such a sale |
| `PositionLaws.EquityErrorBound` | engine/application/position_service.py:57-61 | at ordinary fills the difference is at most the ceiling price times 1e-12 per sale inside the tolerance band |
| `PositionLaws.AverageInRange` | engine/application/position_service.py:50 | the average price stays between zero and the highest unit cost paid |
| `PositionLaws.OrderIndependence` | engine/application/position_service.py:33-76 | two clean orders of the same fills agree on quantity, third-asset fees, realized minus basis, total P&L at any mark, and realized when flat |
| `PositionLaws.SameQuantityExactly` | engine/application/position_service.py:67 | given a clean execution order, an arrival order ends with the same quantity exactly when it is clean, and never with less |
| `PositionLaws.AverageRemembersOrder` | engine/application/position_service.py:50-65 | average and realized do depend on the order: two clean orders of three fills differ |
| `PositionRecords.BuyMoves` | engine/application/position_service.py:43-53 | a BUY written out: base fee off what is received, quote fee onto the cost, basis in money |
| `PositionRecords.SellMoves` | engine/application/position_service.py:54-71 | a SELL written out: what is delivered, what is charged at the average, proceeds after the quote fee, and what is cleared at zero |
| `PositionRecords.CashMoves` | engine/application/position_service.py:133-141 | the paper balance: a SELL brings its money less the quote fee, anything else takes it with the fee |
| `PositionRecords.OtherMovesNothing` | engine/application/position_service.py:46-48 | a fill of no known side, or a BUY that brings nothing, moves at most the tally of third-asset fees |
| `PositionRecords.ThirdAssetIsTallied` | engine/application/position_service.py:40-41 | a fee in a third asset adds to the tally of that asset and no other |
| `PositionRecords.AnomaliesExactly` | engine/application/position_service.py:46-73 | a history has as many anomalies as fills that are a BUY of nothing, a SELL of more than held plus 1e-12, or neither; none exactly without such a fill |
| `PositionRecords.RebuildKeepsMarkAndStop` | engine/application/position_service.py:94-105 | from scratch the last mark survives, and the stop exactly while something is held |
| `PositionRecords.OnePositionIsWritten` | engine/application/position_service.py:94-119 | a stop, a mark and a rebuild write the position of one symbol and nothing else |
| `PositionRecords.EveryPositionAgrees` | engine/domain/models.py:263-265 | over every run of any writers a position shows the profit at its last mark, and has an average and an opening time only while something is held |
| `LedgerService.Store.Begin` | engine/infrastructure/store.py:185-203 | the outermost transaction remembers the committed tables; nesting only counts |
| `LedgerService.Store.Rollback` | engine/infrastructure/store.py:195-199 | only the outermost rollback restores the tables, so a caught inner error keeps the inner writes |
| `LedgerService.Store.InsertIntentAndOrder` | engine/infrastructure/store.py:212-234 | intent and order appear together, or neither when the intent exists |
| `LedgerService.Store.SaveOrder` | engine/infrastructure/store.py:236-252 | a save succeeds exactly on the version that was read and on a free exchange id, and then raises the version by one |
| `LedgerService.Store.InsertFill` | engine/infrastructure/store.py:304-317 | a fill is appended exactly when neither unique constraint knows it |
| `LedgerService.Store.MarkEventProcessed` | engine/infrastructure/store.py:377-382 | tells the first time from every later one |
| `LedgerService.Store.Put` | engine/infrastructure/store.py:431-437 | a message is appended unless its key is queued already |
| `LedgerService.OrderService.PersistIntent` | engine/application/order_service.py:49-62 | intent, order in SUBMITTING and announcement are one transaction that happens once per intent |
| `LedgerService.OrderService.SubmitIntent` | engine/application/order_service.py:41-95 | the network is called exactly when this call committed the order, and the ledger then follows the outcome |
| `LedgerService.OrderService.Conclude` | engine/application/order_service.py:73-94 | acknowledged, refused and ambiguous submissions each lead to the specified tables |
| `LedgerService.OrderService.ResolveAmbiguous` | engine/application/order_service.py:97-120 | an ambiguous order is resolved by an answer only, and given up only after the grace period |
| `LedgerService.OrderService.ApplyReport` | engine/application/order_service.py:123-150 | one transaction equal to the merge of the stored row; a conflict leaves it alone and is recorded outside transactions |
| `LedgerService.OrderService.IngestFill` | engine/application/order_service.py:152-177 | execution, position and announcements all happen, or for a duplicate or stranger none |
| `LedgerService.OrderService.Refresh` | engine/application/order_service.py:179-191 | report first, then executions; an unreachable exchange raises |
| `LedgerService.OrderService.Cancel` | engine/application/order_service.py:193-204 | whatever the cancel said the order is read again; only a conflict outlives a failing refresh |
| `LedgerService.OrderService.FlagAmbiguous` | engine/application/order_service.py:84-92 | the flag, its announcement and the alert are one transaction |
| `LedgerService.OrderService.Reject` | engine/application/order_service.py:77-82 | a definitive refusal ends the stored row, unless it has ended or was acknowledged |
| `LedgerService.PositionService.RebuildPosition` | engine/application/position_service.py:94-105 | the stored position becomes the fold of its fills in order of execution time and row id |
| `LedgerService.PositionService.Mark` | engine/application/position_service.py:114-119 | the stored position is marked in one transaction |
| `LedgerService.PositionService.SetStop` | engine/application/position_service.py:107-112 | the stored stop changes in one transaction |
| `LedgerService.StreamIngestionService.Handle` | engine/application/stream_ingestion.py:43-64 | mark, report and fill of an event are one transaction; a conflict undoes the mark so the event is not lost as a duplicate |
| `LedgerLaws.RunNeverGoesBack` | engine/domain/models.py:167-219 | over any run of any writers no order loses quantity, rank, exchange id or its terminal status and reason, and versions only grow |
| `LedgerLaws.StepAdvances` | engine/application/order_service.py:123-171 | every transaction moves each order forward and its version by at most one |
| `LedgerLaws.EveryRunIsSound` | engine/application/order_service.py:152-171 | from an empty ledger every run records no execution twice, explains every position by its fills and announces every version of every order once and truthfully |
| `LedgerLaws.FillIsTold` | engine/application/order_service.py:152-177 | an execution is recorded exactly when no row has its keys, field by field as the exchange tells it, at its time or else the local clock, and announced with the position |
| `StreamOutcomes.ReportEndsExactly` | engine/application/order_service.py:123-150 | which reports are ignored, conflicts, without news, or refused by the unique exchange id; any other replaces one row by its merge under the next version, announced, and touches no other |
| `StreamOutcomes.EventEndsExactly` | engine/application/stream_ingestion.py:43-64 | which events are of strangers, duplicates, conflicts or failures, all of which leave the tables alone but for the notice of a conflict; any other is marked and taken |
| `CallOutcomes.TakingEndsExactly` | engine/application/order_service.py:123-150 | taking a report raises a conflict exactly when it contradicts its order, an error exactly when the store refuses its exchange id, and touches no other order |
| `CallOutcomes.RefreshEndsExactly` | engine/application/order_service.py:179-191 | when a refresh returns, raises a conflict, or raises because the exchange was not reached for the order or its executions |
| `CallOutcomes.CancelEndsExactly` | engine/application/order_service.py:193-204 | a cancel raises a conflict exactly when the acknowledgement or then the answer contradicts the order; an unreachable refresh never gets out |
| `LedgerLaws.ByTimeIsSorted` | engine/infrastructure/store.py:322-327 | the fills a rebuild reads are in order of execution time |
| `LedgerLaws.ByTimeKeepsFills` | engine/infrastructure/store.py:322-327 | they are a permutation of the fills recorded |
| `LedgerLaws.RebuildFixpoint` | engine/application/position_service.py:94-105 | rebuilding twice is rebuilding once |
| `LedgerLaws.RebuildAgreesExactly` | engine/application/position_service.py:87-105 | the incremental and the rebuilt position have the same quantity exactly when the fills arrived in a clean order, and then the same fees and P&L |
| `Confluence.LedgerCatchesUp` | engine/application/order_service.py:123-177 | after any deliveries, with flags, marks, stops and rebuilds in between, every order stands at the newest report delivered, exactly the delivered executions are recorded once each, every row telling its trade field by field, and processed events have lost nothing |
| `Confluence.CaughtFillsTell` | engine/application/order_service.py:152-171 | in a ledger that has caught up every delivered trade has a row that tells it field by field, and every new row tells a delivered trade |
| `Confluence.NothingIsRefused` | engine/application/order_service.py:123-142 | nothing a consistent exchange says is ever refused, however it arrives |
| `Confluence.SkippedEventLosesNothing` | engine/application/stream_ingestion.py:54-60 | an event skipped as a duplicate has its report and its execution in the ledger |
| `Confluence.TwoRunsAgree` | engine/application/order_service.py:123-177 | two interleavings that cover the same reports and trades end with the same orders and the same executions |
| `Confluence.TwoRunsProfit` | engine/application/position_service.py:33-76 | and, where fills in an order in which nothing is oversold explain both positions, with the same quantity, fees and total P&L |
| `Confluence.RecordingOrderExplains` | engine/application/position_service.py:87-92 | as long as the position is not rebuilt, that order is the order of recording |
| `Interleaving.EveryLifeCatchesUp` | engine/application/order_service.py:41-177 | from an empty ledger, with orders persisted and refused at any time and everything about them arriving later in any order and any number of times, between flags, marks, stops and rebuilds, the ledger stands where what arrived puts it, its rows tell the trades that arrived, and orders given up before anything arrived stay so |
| `Interleaving.NothingArrivingIsRefused` | engine/application/order_service.py:123-142 | nothing that arrives is refused, except what is about an order that was given up: that is a conflict and changes no fact |
| `Refusals.RefusalKeeps` | engine/domain/models.py:160-165 | a refusal gives an order up exactly when nothing has arrived about it, and leaves every other fact |
| `Refusals.UnheardConflicts` | engine/domain/models.py:186-199 | by REST and by stream, whatever is said of an order that was given up is a conflict; an event is not marked as processed |
| `SubmissionOutcomes.PersistLeaves` | engine/application/order_service.py:49-62 | persisting a new intent adds one row in SUBMITTING, version 1, stamped and announced, and nothing else |
| `SubmissionOutcomes.RefusedSubmission` | engine/application/order_service.py:73-82 | in every sound ledger a refused submission ends REJECTED with the reason and the time, nothing executed, announced, no other row touched |
| `SubmissionOutcomes.AcknowledgedSubmission` | engine/application/order_service.py:73-76 | an acknowledged one is what the first report about it says, field by field, with every listed execution on record |
| `SubmissionOutcomes.AmbiguousSubmission` | engine/application/order_service.py:83-120 | an ambiguous one is flagged, alerted and announced; it stays open exactly when the exchange was not reached or knew nothing inside the grace period, and else ends by the answer or as not found |
| `CallOutcomes.AcknowledgementEndsExactly` | engine/application/order_service.py:73-76 | whatever an acknowledgement says: a conflict or a refused exchange id raises and records no execution, otherwise its executions follow |
| `CallOutcomes.KnownIntentIsLeftAlone` | engine/application/order_service.py:41-67 | exactly an intent that has no order goes out; any other is left alone |
| `CallOutcomes.OnlyItsOrder` | engine/application/order_service.py:73-120 | told only of its own order, a submission touches no other one |
| `SubmissionLaws.AtMostOneSubmission` | engine/application/order_service.py:41-67 | with any number of racing workers and a crash at any step the exchange is asked at most once per order, and only for one on record in SUBMITTING or later |
| `SubmissionLaws.EveryOrderIsSomewhere` | engine/application/order_service.py:41-67 | over every run each order on record is in exactly one place: asked for once, about to be asked for by one worker, or left by a crash in between |
| `SubmissionLaws.GivenUpExactly` | engine/application/order_service.py:97-117 | an order is given up exactly when the exchange answered "none" and the age read afterwards reached the grace period |
| `SubmissionLaws.GivenUpIsGuarded` | engine/domain/models.py:186-190 | in every later state any report that is no rejection is flagged as a conflict, by REST and by stream, and changes nothing |
| `SubmissionLaws.NotFoundBelievableExactly` | engine/application/order_service.py:110-112 | no accepted order is ever given up exactly when acceptance is instant or the grace period covers acceptance window plus latency |
| `SubmissionLaws.EpisodeInLedger` | engine/application/order_service.py:97-117 | the timed account of giving up is what happens in the ledger |
| `Mirror.ControlPlaneStore.RecordOrder` | laravel/app/Actions/Engine/RecordOrder.php:17-45 | only a newer version replaces the mirrored order |
| `Mirror.ControlPlaneStore.Handle` | laravel/app/Http/Middleware/EnsureIdempotentRequest.php:28-50 | a known request id is replayed or refused without acting; a crash before the ledger entry leaves the action done; a delivery that looked before a concurrent one was entered acts again and leaves its entry |
| `Mirror.MirrorNeverGoesBack` | laravel/app/Actions/Engine/RecordOrder.php:19-44 | whatever is delivered, lost, repeated or reordered, no mirrored order loses version, quantity or its terminal status |
| `Mirror.MirrorConverges` | laravel/app/Actions/Engine/RecordOrder.php:19-44 | in every reachable state a mirrored order equals the engine's exactly when the message of its current version has been acted on |
| `Mirror.CurrentVersionIsQueued` | engine/application/order_service.py:210-213 | in every reachable state every order has a version, and the message of its current one is in the outbox |
| `Mirror.PostExactly` | laravel/app/Http/Middleware/EnsureIdempotentRequest.php:28-50 | what one delivery enters in the ledger of requests and which single mirrored order it may replace, by a newer version only |
| `Mirror.RequestsStay` | laravel/app/Http/Middleware/EnsureIdempotentRequest.php:28-50 | a request id that was entered stays, under its endpoint, over every run |
| `Mirror.ActedOnce` | laravel/app/Actions/Engine/RecordOrder.php:19-44 | in every reachable state a message that was acted on once never changes the mirror again, even where the ledger of requests does not know it |
| `Outbox.OutboxStore.AcquireLease` | engine/infrastructure/store.py:458-469 | the lease is denied exactly while another owner's has not expired, else extended |
| `Outbox.OutboxStore.MarkSent` | engine/infrastructure/store.py:444-446 | exactly this row becomes SENT |
| `Outbox.OutboxStore.MarkFailed` | engine/infrastructure/store.py:448-452 | exactly this row counts an attempt and waits or is DEAD |
| `Outbox.OutboxDispatcher.Mark` | engine/application/outbox.py:99-113 | each outcome of a delivery marks the row as specified, dead at the last attempt or on a permanent rejection |
| `Outbox.DueAmong` | engine/infrastructure/store.py:439-442 | a batch is exactly the due rows, by id and without repetition |
| `Outbox.OutboxDispatcher.Flush` | engine/application/outbox.py:80-117 | without the lease nothing is touched; with it the due rows are delivered in order until the control plane fails |
| `Outbox.OutboxDispatcher.DeliverBatch` | engine/application/outbox.py:85-117 | the loop delivers and marks the batch as the recursive account of a flush does |
| `OutboxFlush.DelayDoubles` | engine/application/outbox.py:110 | the wait doubles with every attempt from two seconds to 512 |
| `OutboxFlush.MarkExactly` | engine/application/outbox.py:99-113 | when a row is SENT, DEAD or waits, with how many attempts and until when |
| `OutboxFlush.LeaseExactly` | engine/infrastructure/store.py:458-469 | the lease is taken for a minute exactly unless another owner's has not expired |
| `OutboxFlush.BatchIsFull` | engine/infrastructure/store.py:439-442 | a batch that is shorter than its limit holds every due row |
| `OutboxFlush.FlushExactly` | engine/application/outbox.py:80-117 | the rows a flush reaches, in order and each once, up to a failed message to the control plane; each is marked by its outcome, no other row is touched, and as many are counted as were delivered |
| `OutboxLaws.DeliveryIsExclusive` | engine/application/outbox.py:81-89 | in every reachable state at most one dispatcher is at work, its next renewal succeeds, and what it posts is a pending row |
| `OutboxLaws.PostsAreBounded` | engine/application/outbox.py:109-113 | every post is accounted for as an attempt, the delivery, a mark that a crash lost or under way, so a SENT row was posted, a pending one has attempts left, and none is posted more than max_attempts times beside lost marks |
| `OutboxOrder.BatchExactly` | engine/infrastructure/store.py:439-442 | of the rows before a row of a batch, exactly the pending and due ones are in the batch too |
| `OutboxOrder.FailureIsOvertaken` | engine/application/outbox.py:101-116 | a row that was not delivered is overtaken by each later row of the next batch exactly when it was rejected for good, had its last attempt, or still waits |
| `OutboxOrder.StepKeepsOrderExactly` | engine/application/outbox.py:85-116 | from any state that keeps the order, a step keeps it exactly when it is no delivery past an earlier unsent row |
| `OutboxOrder.OrderKeptExactly` | engine/application/outbox.py:115-116 | over every run from the start, the control plane's messages are marked sent by id throughout exactly when no delivery goes past an earlier unsent row |
| `OutboxOrder.FailureBreaksOrder` | engine/application/outbox.py:109-116 | the run from the start in which one failed delivery is overtaken by the next flush of the same dispatcher |
| `OutboxOrder.RejectionBreaksOrder` | engine/application/outbox.py:103-108 | the run from the start in which a permanent rejection is overtaken within its flush |
| `Attempts.IntentChooser.NextIntentId` | engine/application/trading_cycle.py:273-283 | the first attempt that is not used up, or none when all are |
| `Attempts.IntentIdInjective` | engine/application/trading_cycle.py:277 | one intent id belongs to one attempt of one decision |
| `Opening.OpenedByFirst` | engine/application/position_service.py:51-71 | for every history, the opening time is that of the first execution since nothing was held, a BUY that received something |
| `Opening.RebuildOpens` | engine/application/position_service.py:94-105 | after a rebuild, quantity and opening time are those of the executions in order of execution time and row id |
| `Opening.RebuildKeepsOpeningExactly` | engine/application/position_service.py:94-105 | a rebuild keeps the opening time of an incrementally kept position exactly when the first recorded and the first executed fill since nothing was held have the same time |
| `Opening.EarliestOpensExactly` | engine/application/position_service.py:51-52 | where both orders agree on which fills belong to what is held: exactly when the first recorded of them is the earliest |
| `Opening.OpeningMoves` | engine/application/position_service.py:51-52 | two fills of one entry recorded the other way round: equal quantity, another opening time after the rebuild |
| `SellExposure.LedgerKeepsSafe` | engine/application/trading_cycle.py:133-142 | every transaction of the other writers keeps exposure within the position, one live sell, and the discipline of attempts; a rebuild does where the executions are clean in their order, and the opening time stays or no stop may still sell |
| `SellExposure.RenameKeeps` | engine/application/position_service.py:94-105 | a rebuild that renames the position keeps the invariant while no stop is live that may still sell |
| `SellExposure.RebuildKeepsExactly` | engine/application/position_service.py:94-105 | a rebuild keeps the quantity exactly when nothing is clipped in order of execution, and the opening time exactly when it names the execution that opens there |
| `SellExposure.RebuildTakesNothingAway` | engine/application/position_service.py:94-105 | a rebuild never lowers a position that is the fold of its fills in a clean order |
| `SellExposure.WithinTracked` | engine/application/position_service.py:57-59 | a recorded SELL never takes more than is tracked and is never flagged |
| `TradingCycle.StepKeeps` | engine/application/trading_cycle.py:133-166 | each read, decision and submission of the worker keeps the invariant, with the other writers in between |
| `TradingCycle.SubmitKeeps` | engine/application/trading_cycle.py:222-255 | an order planned on an earlier read of the position still fits when it goes out: as long as the position keeps its opening time, the attempt of a stop that sold meanwhile blocks the id |
| `TradingCycle.ReadIsBacked` | engine/application/trading_cycle.py:145-146 | what may be relied on after the position is read with nothing but stops in flight |
| `TradingCycle.RestingIsKnown` | engine/application/trading_cycle.py:145-146 | whenever a position is read that way, one of the two accounts of what may still be resting is true, so no read is excluded |
| `TradingCycle.SellsStayWithinPosition` | engine/application/trading_cycle.py:222-255 | in every state of a trusted run all SELL orders together claim at most what is tracked, at most one is live, and no sale of theirs is an oversell |
| `Discipline.AttemptsFollowEnded` | engine/application/trading_cycle.py:273-283 | in every run of the worker's own checks a decision has at most one order, or three if it is no entry, each only after all earlier attempts ended as rejected, canceled or expired |
| `Discipline.RetriesAreDisciplined` | engine/application/trading_cycle.py:273-283 | where reports on ended orders are final besides, the earlier attempts have executed nothing and at most one attempt has executed |
| `Discipline.TrustedReportsFinal` | engine/application/trading_cycle.py:273-283 | trusted runs are such runs |
| `Discipline.TrustedRetriesAreDisciplined` | engine/application/trading_cycle.py:273-283 | so the same holds in every state of a trusted run |
| `Discipline.EmptyStaysExactly` | engine/domain/models.py:167-199 | a report leaves an ended, empty attempt empty exactly when it is a conflict or names no executions |
| `Discipline.OneSellIsLive` | engine/application/trading_cycle.py:133-142 | in every run of the worker's own checks at most one SELL order is live, never an exit beside a stop, and at most one order that is not a stop |
| `CancelLaws.CancelSettlesExactly` | engine/application/order_service.py:193-204 | a live order comes back ended and fully on record exactly when the answers end it, do not contradict each other, and the records and the trades that were reached make up the largest quantity named |
| `CancelLaws.CancelLeavesUnrecorded` | engine/application/order_service.py:193-204 | an acknowledged cancel with executions, whatever id it carries, and an unreachable refresh return an ended order with executions missing |
| `DoubleSale.FullExitSafeExactly` | engine/application/trading_cycle.py:229-235 | with nothing live, selling the tracked quantity rounded down keeps the SELL orders within the position exactly when the unrecorded executions fit into the dust of the rounding |
| `DoubleSale.CancelledExitOversells` | engine/application/trading_cycle.py:222-242 | from a live stop whose cancel is acknowledged with unrecorded executions, the worker's own checks allow an exit after which the SELL orders claim more than is held |
| `DoubleSale.StaleReadOversells` | engine/application/trading_cycle.py:244-255 | from a live stop, a rebuild that renames the position and a fill between two reads let a second stop for the whole quantity go out against nothing |
| `Episode.StopAccepted` | engine/application/trading_cycle.py:133-255 | from an empty ledger, a trusted run to a live stop for all that is held, so the theorem and both counter-examples are about reachable states |
| `Episode.CancelledExitHappens` | engine/application/trading_cycle.py:222-242 | from an empty ledger, the run of the cancelled exit to an exposure above the position |
| `Episode.StaleReadHappens` | engine/application/trading_cycle.py:244-255 | from an empty ledger, the run of the stale read to an exposure with no position left |
| `TradingWorker.TradingWorker.Submit` | engine/application/trading_cycle.py:257-271 | one order, rounded down, exactly when the first free attempt has none; an existing order or exhaustion leaves everything alone |
| `TradingWorker.TradingWorker.CancelStop` | engine/application/trading_cycle.py:225-228 | the stop is canceled and read again: it is seen to have ended, the exit waits, or the cancel raises, each exactly then |
| `TradingWorker.TradingWorker.CancelStops` | engine/application/trading_cycle.py:223-228 | success means that no protective stop of the instrument is live; anything else that one was tried and is stuck; with none live nothing is done |
| `TradingWorker.TradingWorker.SellAll` | engine/application/trading_cycle.py:222-242 | an exit goes out exactly when every stop was brought down, the tracked quantity rounded down is accepted by the exchange rules, and the first free attempt has no order |
| `TradingWorker.TradingWorker.EnsureProtectiveStop` | engine/application/trading_cycle.py:244-255 | a stop for the quantity that was read, rounded down, goes out exactly while none is live, there is a stop price, the exchange rules accept it, and the first free attempt has no order |
| `ServiceRuns.CancelCommits` | engine/application/order_service.py:193-204 | a cancel is a run of single reports and executions, between which other writers may commit |
| `ServiceRuns.ConclusionCommits` | engine/application/order_service.py:73-120 | whatever becomes of a submission after the order is on record is such a run, with refusals and flags |
| `WorkerRuns.SubmitIsRun` | engine/application/trading_cycle.py:257-283 | a submission under the first free attempt is a run of the trading machine: looks at each attempt, one submission, and the transactions of its outcome |
| `WorkerRuns.ExhaustedIsRun` | engine/application/trading_cycle.py:259-263 | with all attempts used up the machine ends without an order |
| `WorkerRuns.SellAllIsRun` | engine/application/trading_cycle.py:222-242 | an exit that goes out is a run: other transactions until no stop is live, the two reads, and one submission |
| `WorkerRuns.EnsureStopIsRun` | engine/application/trading_cycle.py:244-255 | a protective stop that goes out is a run: the list of live stops after the read of the position, and one submission |
| `Worker.ReconciliationWorker.constructor` | workers/reconciliation_worker.py:137-139 | a start resets the saved state unless it is HALTED |
| `Worker.ReconciliationWorker.SetState` | engine/application/reconciliation_service.py:63-71 | status, stamp, success time and stream flag change as given, nothing else |
| `Worker.ReconciliationWorker.OnState` | workers/reconciliation_worker.py:53-74 | connecting and disconnecting degrade every state but HALTED |
| `Worker.ReconciliationWorker.BeginRun` | engine/application/reconciliation_service.py:81-83 | a run remembers the state it found and marks RECONCILING |
| `Worker.ReconciliationWorker.EndRun` | engine/application/reconciliation_service.py:199-216 | the outcome by exception, critical finding, pending order, latch |
| `Worker.ReconciliationWorker.Release` | workers/reconciliation_worker.py:91-97 | HEALTHY without a stream becomes DEGRADED when the lock is released |
| `Worker.EveryRunKeeps` | workers/reconciliation_worker.py:53-97 | the worker's invariant holds over every interleaving of callbacks, runs, crashes and restarts |
| `Verdicts.VerdictExactly` | engine/application/reconciliation_service.py:199-212 | from any earlier state: DEGRADED is a run that failed, HALTED one with a finding outside the four harmless kinds or an unacknowledged latch, RECONCILING one with only pending orders, HEALTHY one with nothing against it |
| `Verdicts.EndExactly` | engine/application/reconciliation_service.py:199-216 | what the end of a run saves, which gates it opens, and that the time of success moves exactly with HEALTHY |
| `Verdicts.CriticalHalts` | engine/application/reconciliation_service.py:207-209 | a critical finding halts from any state: latched, and nothing allowed, before and after the lock is released |
| `Verdicts.FindingsAreSaved` | engine/application/reconciliation_service.py:207-216 | after a run with a halting finding the worker is latched and allows nothing; HEALTHY is saved only without one |
| `Verdicts.RunIsSaved` | engine/application/reconciliation_service.py:207-216 | what the worker saves is the verdict of the run |
| `Verdicts.ConnectingBlocks` | workers/reconciliation_worker.py:53-59 | a start and a new connection block everything until the next run; HALTED stays |
| `Verdicts.DropLeavesExits` | workers/reconciliation_worker.py:60-67 | a dropped stream closes entries at once and leaves exits open, unless HALTED |
| `Verdicts.RunBlocks` | engine/application/reconciliation_service.py:81-83 | while a run is on nothing is allowed, and it remembers the state it found |
| `Verdicts.ReleaseNeedsStream` | workers/reconciliation_worker.py:91-97 | without a stream a run that ended HEALTHY leaves exits only |
| `Worker.HealthyMeansConnected` | workers/reconciliation_worker.py:90-97 | entries are allowed with no run in progress only while the stream is connected, and after a crash no longer than the maximum age |
| `Worker.LatchLeftExactly` | engine/application/reconciliation_service.py:199-213 | HALTED is let go exactly by a failing run, a pending run, an acknowledged clean run or a crash in a run |
| `Worker.LatchHolds` | engine/domain/models.py:279-285 | without such a step HALTED holds over any run and blocks entries; exits open only when the stream drops during a run |
| `Worker.LatchForgotten` | engine/application/reconciliation_service.py:199-205 | the run of two reconciliations that leaves HALTED for HEALTHY without an acknowledgement |
| `ReconciliationRun.ReconciliationService.CheckOpenOrder` | engine/application/reconciliation_service.py:99-109 | one listed order is resolved or refreshed, and a conflict is a finding |
| `ReconciliationRun.ReconciliationService.CheckOpenOrders` | engine/application/reconciliation_service.py:95-109 | the loop over open orders is the fold of its step |
| `ReconciliationRun.ReconciliationService.VerifyTerminalOrders` | engine/application/reconciliation_service.py:116-129 | the loop over recently ended orders is the fold of its step |
| `ReconciliationRun.ReconciliationService.CheckExchangeOrders` | engine/application/reconciliation_service.py:132-138 | unknown open orders are found, critical when they are the bot's |
| `ReconciliationRun.ReconciliationService.RecoverTrades` | engine/application/reconciliation_service.py:145-160 | the loop over recent trades is the fold of its step, in which even a conflict ends the run |
| `ReconciliationRun.ReconciliationService.FillQuantity` | engine/application/order_service.py:207-208 | the loop sums the recorded executions of an order |
| `ReconciliationRun.ReconciliationService.ExplainOrders` | engine/application/reconciliation_service.py:163-172 | the loop over recent orders asks for missing executions and reports what stays unexplained |
| `ReconciliationRun.ReconciliationService.CheckBalances` | engine/application/reconciliation_service.py:175-186 | position from scratch, its anomalies, and the balance behind it |
| `ReconciliationRun.ReconciliationService.Examine` | engine/application/reconciliation_service.py:89-199 | the steps in their order until one raises |
| `ReconciliationRun.ReconciliationService.Run` | engine/application/reconciliation_service.py:79-222 | a whole run: tables, status and saved state |
| `ReconciliationLaws.TakeGrows` | engine/application/order_service.py:123-142 | taking the exchange's report of an order leaves it without further effect and touches no other order |
| `ReconciliationLaws.OrderFillsGrow` | engine/application/order_service.py:187-191 | asking for the executions of an order takes them all |
| `ReconciliationLoops.AllOpenChecked` | engine/application/reconciliation_service.py:95-109 | after the loop no listed order has anything left to give, and without findings the exchange has answered about each |
| `ReconciliationLoops.AllVerified` | engine/application/reconciliation_service.py:113-129 | after the loop every verified order is settled, and without findings confirmed in quantity and status |
| `ReconciliationLoops.AllRecovered` | engine/application/reconciliation_service.py:145-160 | after the loop every recent trade is recorded or accounted for, and without findings none is an unknown order of the bot |
| `ReconciliationTheorems.AllExplained` | engine/application/reconciliation_service.py:163-172 | after the loop every order is explained or has no more executions, and without findings explained within tolerance |
| `ReconciliationTheorems.PositionChecked` | engine/application/reconciliation_service.py:175-186 | without findings the position is the anomaly-free fold of all fills and covered by the balance |
| `ReconciliationTheorems.SecondWindow` | engine/application/reconciliation_service.py:112-115 | an order that enters the window of verified orders later has nothing left to verify |
| `ReconciliationTheorems.SecondRunChangesNothing` | engine/application/reconciliation_service.py:3-5 | after any completed run a second one completes and leaves the whole ledger as it is |
| `ReconciliationTheorems.HealthyIsSound` | engine/application/reconciliation_service.py:94-216 | what a HEALTHY run has established about pending, open, terminal and executed orders, the trades since lookback and ten minutes before the last success, position, balance and latch |
| `ReconciliationWindows.NewestExactly` | engine/application/reconciliation_service.py:163 | a run looks at the hundred newest orders of its symbol: all of them, none else, newest first |
| `ReconciliationWindows.VerifiesExactly` | engine/application/reconciliation_service.py:112-115 | of these it verifies the twenty newest that ended inside the lookback with an exchange id and were not given up as not found |
| `ReconciliationWindows.HealthyExplains` | engine/application/reconciliation_service.py:163-172 | after a HEALTHY run every order that fewer than a hundred later ones follow has its executed quantity on record, up to a step or 1e-8 |
| `ReconciliationWindows.HealthyConfirms` | engine/application/reconciliation_service.py:112-129 | and the twenty newest that ended recently are confirmed by the exchange |
| `ReconciliationWindows.NoGapBetween` | engine/application/reconciliation_service.py:141-145 | two successive HEALTHY runs leave no gap: what the second is told of inside its lookback, executed since ten minutes before the first, is accounted for |
| `ReconciliationWindows.GapExactly` | engine/application/reconciliation_service.py:141-145 | every instant since the last success is asked for exactly if the next run comes within the lookback |
| `ReconciliationWindows.EveryTradeHasItsRun` | engine/application/reconciliation_service.py:141-160 | over any chain of HEALTHY runs, a trade executed between the first and the last falls between two that follow each other and is accounted for by the later |
| `Findings.PositionFindings` | engine/application/reconciliation_service.py:175-186 | exactly which findings the check of position and balance adds |
| `Findings.FindingsExactly` | engine/application/reconciliation_service.py:94-186 | a completed run notes a finding exactly when its cause is there in what the run leaves, for every kind and element, and an order is pending exactly when one was found to wait |
| `Findings.HealthyExactly` | engine/application/reconciliation_service.py:94-216 | a completed run ends HEALTHY exactly when nothing is wrong with what it leaves and no latch is left unacknowledged |
| `Completion.ServedRunCompletes` | engine/application/reconciliation_service.py:89-205 | a run completes whenever the exchange answers, gives no id to two orders and does not contradict the ledger where that has no finding, so a DEGRADED end means that it was not served |
| `Paper.PaperExecutor.Submit` | engine/execution/paper.py:42-62 | duplicates, other order types and missing prices are refused, anything else fills at once |
| `Paper.PaperExecutor.QueryOrder` | engine/execution/paper.py:81-83 | answers what the book holds |
| `Paper.SubmitKeepsFiled` | engine/execution/paper.py:42-62 | a submission leaves every earlier order of the book as it is, each under its own id |
| `Paper.PaperAnswersExactly` | engine/execution/paper.py:42-79 | a fresh market order with a reference price fills at once, its rounded quantity at that price with the fee in quote; anything else is refused |
| `Paper.PaperIsConsistent` | engine/execution/paper.py:64-99 | the simulated exchange keeps the assumptions of the reconciliation theorems |
| `Paper.PaperRunIsRepeatable` | engine/execution/paper.py:81-104 | so in PAPER mode a completed run can always be repeated without effect |
| `Paper.PaperOrderIsFilled` | engine/execution/paper.py:42-62 | the production path ends FILLED, executed in full and explained by its fill |
| `PaperLaws.PaperIsConsistentExchange` | engine/execution/paper.py:42-79 | the book, under distinct row ids, is a consistent exchange: ids are distinct, and an execution has one key and one content |
| `PaperLaws.PaperIsHonest` | engine/execution/paper.py:42-79 | whatever of it a ledger has been told, the next report or execution keeps what the exposure theorem trusts an exchange with |
| `PaperLaws.FreshPaperOrderIsFilled` | engine/execution/paper.py:42-62 | an order about which nothing has arrived ends FILLED, executed in full and explained by its fill: its id is free and its execution new |
| `Sizing.RoundsDown` | engine/domain/models.py:75-78 | rounding goes towards zero by less than a step onto a multiple of the step |
| `Sizing.RoundsToLargest` | engine/domain/models.py:75-78 | and to the largest multiple that fits |
| `Sizing.RoundingIsIdempotent` | engine/domain/models.py:92-93 | rounding again at submission changes nothing, for every step |
| `Sizing.SizeBounds` | risk_manager.py:12-23 | a size costs at most the equity and loses at most the risk share at the stop |
| `Sizing.EntryIsBounded` | engine/risk/manager.py:33-42 | an entry is accepted, on the step, covered by free quote and equity, and loses at most the risk share at the unrounded stop |
| `SizingLaws.SizeExactly` | risk_manager.py:12-23 | a size spends all the equity or loses exactly the risk share at the stop, whichever is less; nothing is bought exactly on bad inputs |
| `SizingLaws.PlaceableExactly` | engine/risk/manager.py:33-42 | the largest number of steps that is wanted and can be paid for, and zero exactly when the exchange takes no number that fits |
| `SizingLaws.EntryExactly` | engine/risk/manager.py:33-42 | an entry is the largest number of steps that equity, free quote and the risk share all cover, and none exactly when no such number is accepted |
| `SizingLaws.LossExactly` | risk_manager.py:26-32 | a day is lost exactly when its limit or more of the day's first equity is gone |
| `Sizing.RiskManager.UpdateDaily` | engine/risk/manager.py:21-28 | one cycle's update of the persisted daily state |
| `Sizing.HaltedExactly` | risk_manager.py:26-32 | after any run of cycles entries are halted exactly when the loss limit was reached at some cycle since the day began |
| `Pagination.RecentFills` | engine/execution/binance.py:110-122 | exactly the trades since the given time, in order and once, as of the page that was not full; an error exactly when every page is full |
| `Pagination.OneBook` | engine/execution/binance.py:116-118 | with no trade coming in, an error exactly when the trades fill all the pages |
| `Pagination.NextPage` | engine/execution/binance.py:119 | asking behind the last id gives exactly the rest |
| `Backtest.Run` | research/backtest.py:49-117 | the bar loop computes the fold over the bars and the final mark-out |
| `Backtest.Simulation.ClosePosition` | research/backtest.py:63-72 | a sale moves cash, fees, quantity and the list of trades as specified |
| `Backtest.Simulation.Enter` | research/backtest.py:84-95 | an entry spends at most the cash with its fee and records price, bar and stop |
| `Backtest.Simulation.OnBar` | research/backtest.py:74-106 | open, stop and close of one bar in their order |
| `BacktestLaws.EveryBarConserves` | research/backtest.py:57-110 | after any bars: no borrowing, no short, no negative equity, and cash plus open cost is initial cash plus closed profits |
| `BacktestLaws.RunConserves` | research/backtest.py:63-110 | the run ends flat with the initial cash and the profits as last equity, and trades follow one another |
| `BacktestLaws.NoLookahead` | research/backtest.py:74-106 | histories that agree on the bars so far and the signals before the last bar lead to the same account |
| `BacktestLaws.HaltLastsTheDay` | research/backtest.py:75-106 | once halted, positions are at most closed for the rest of the day |
| `BacktestTrades.EveryTradeIsWell` | research/backtest.py:63-110 | every trade: entered at the slipped open after a positive signal, for all the cash or the risked share, held while no reason to leave came up, left for the first that did at its price, the gapped stop at the lower open, with its profit |
| `BacktestTrades.EntersExactly` | research/backtest.py:81-95 | a bar enters exactly when nothing is held, the signal before says buy, its day is not halted and there is money for it |
| `BacktestTrades.EquityIsMarked` | research/backtest.py:102-105 | the equity of each bar is its cash and its holdings at its close |
| `BacktestTrades.HaltExactly` | research/backtest.py:75-106 | after any bar the halt is on exactly if some close of that day so far was below the limit of the last close of the day before |
| `BacktestTrades.FeesExactly` | research/backtest.py:63-95 | the fees of a run are those of its trades, on both sides |

## Left out

- Findings.FindingsExactly: about runs that complete, against an exchange that answers consistently (`ReconciliationLaws.AnswersAgree`); `Completion.ServedRunCompletes` gives a sufficient condition for completing, not an exact one, because a run that fails stops at the first request that does.
- SubmissionOutcomes.AcknowledgedSubmission: for an acknowledgement about this order, under a free exchange id; `CallOutcomes.AcknowledgementEndsExactly` covers every other one.
- SubmissionOutcomes.AmbiguousSubmission: for an answer about this order, under a free exchange id; any other answer is a refresh (`ReconciliationLoops.ResolveIsRefresh`), whose ends are `CallOutcomes.RefreshEndsExactly`.
- Decimal and float rounding: quantities, prices and P&L are exact reals, so 28-digit contexts and float noise are not modelled.
- The raw payload of a report and the wall-clock copy of its time on the order row; the exchange's millisecond time is kept.
- The wording of events and reasons, except the prefix that marks an order as not found; event messages carry no payload here.
- Limit, stop and reference prices, order type, strategy name and signal id of an intent: they are stored and passed on, never decided on.
- Clock readings inside one handling step are one value; a submission has two, before and after the network call.
- The prefix of bot order ids: with an empty configured prefix the ids start with "cb-" while reconciliation and stream ingestion look for "-"; the model takes them to agree.
- Telegram and other outbox kinds beyond orders, fills, positions and events; messages of reconciliation runs carry run keys that are not modelled.
- The warning PROTECTIVE_STOP_MISSING and the stored summary of a run: they never influence its outcome.
- Gating in run_once by control plane, configuration, market data and emergency stop: it only removes steps, and the theorems hold for every subset of them.
- TradingCycle.SellsStayWithinPosition: the exposure bound is about trusted runs; it does not cover positions read while ended sales are unrecorded, rebuilds that change the quantity, rebuilds that rename the position while a stop may still sell or a plan is held, and exchanges that report more than was asked for; `DoubleSale` gives two runs in which the code then oversells. One live SELL is proved for all runs in `Discipline.OneSellIsLive`.
- TradingCycle.StepKeeps: the same assumptions, step by step.
- SellExposure.LedgerKeepsSafe: rebuilds that clip a sale in order of execution, or that rename the position under a stop that may still sell, are not covered.
- Discipline.RetriesAreDisciplined: that at most one attempt executes is claimed for runs whose reports on ended orders are final; `Discipline.EmptyStaysExactly` says why.
- Outbox.OutboxDispatcher.Flush: one dispatcher's flush with no other writer and the lease kept; the machine of `OutboxLaws` and `OutboxOrder` interleaves dispatchers, clock and crashes step by step.
- Outbox.OutboxDispatcher.DeliverBatch: rows do not change between deliveries of the batch, see the line above.
- TradingWorker.TradingWorker.CancelStops: no other writer commits between the reads of the loop; the interleaved account is the trading machine, of which `WorkerRuns` shows these methods to be runs.
- TradingWorker.TradingWorker.SellAll: no other writer commits between cancels, read and submission, as above.
- TradingWorker.TradingWorker.EnsureProtectiveStop: no other writer commits between the list of stops and the submission, as above.
- ReconciliationRun.ReconciliationService.Run: the recorded run row, its outbox messages and concurrent writers are not part of it.
- Paper.PaperIsConsistent: most clauses hold because the simulated exchange has no account-wide trades and no look-up by exchange id; `PaperLaws` shows the assumptions of the confluence and exposure theorems.
- Paper.PaperOrderIsFilled: takes a free exchange id and a new execution as given; `PaperLaws.FreshPaperOrderIsFilled` derives both.
- Interleaving.EveryLifeCatchesUp: an order the exchange itself reports as REJECTED is not also given up, and one refused for good has nothing said of it; executions in events of orders that were given up are not on record unless they arrive otherwise.
- The unlocked read-modify-write in touch, on_event and the acknowledgement token: each handler is one step.
- The confluence theorem's trades carry their client order id; trades without one are treated in the reconciliation modules.
- acknowledged_at, terminal_at and the reject reason are not claimed to be confluent: they depend on which report came first.
- run_dca, metrics and the return column of the backtester: sums over what is proved here.
- BUY orders and other instruments in the exposure invariant: the bot trades one instrument, and only SELL orders claim the position.
- SQLite, threads, asyncio, HTTP, the WebSocket transport, Binance payloads, signing, logging, and the other actions and views of the control plane.
