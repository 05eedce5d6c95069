# Verified model of the microtx trading core

microtx trades one Taiwan index future. Strategies turn price ticks into signals; signals become orders, pass a
risk check, and go through a router to a broker; fills come back as events and are booked in a position tracker; a
kill switch can flatten everything at any time. This project models that loop in Dafny and proves what it promises
over every run: conservation of contracts and money, exposure that closing orders can only shrink, protection of
open positions, at-most-once submission under concurrency, and bounded, orderly emergency closing.

`dafny verify dfyconfig.toml` checks everything.

## How the model is laid out

An object whose methods change its fields is a class with the same fields. Each method is proved equal to a
function on a value that collects those fields, and the theorems are about that function, over every sequence of
calls. Interleavings of threads are runs of the sections that hold a lock.

| files | what they hold |
|---|---|
| `Domain` | orders, fills, positions, directions, intents |
| `FifoLedger` | the lot ledger that broker and tracker keep separately, mark-to-market, the unit-by-unit queue |
| `PositionTracker` | the tracker class, daily resets, reconciliation |
| `MatchingEngine`, `PaperGateway` | the paper broker: specification, and the class proved against it |
| `GatewayHistory`, `GatewayTheorems`, `GatewayPrices` | invariants of the broker and what they promise for every run |
| `GatewayTurns`, `GatewayReports` | what each turn does to an order and reports, counted in prices and contracts; progress over many ticks |
| `OrderRouter`, `RouterProtocol`, `RouterCompensation` | the router class, its concurrent runs, compensation of abandoned entries |
| `RouterBroker`, `RacedEntry`, `OrderNumbers` | router and paper broker in one concurrent system, the race inside one submission, and the cached order numbers |
| `OrderThrottle` | the risk check in plain terms, and its cooldown over the router's runs |
| `EmergencyRules`, `EmergencyCloser`, `EmergencyTheorems`, `EmergencyReports`, `EmergencyReentry` | the kill switch against an arbitrary environment, what it reports, and concurrent triggers of it |
| `CloseEffects` | the exact effect of closing, compensating and neutralizing orders on the paper broker |
| `EmergencyFlatten` | kill switch, router and paper broker composed |
| `RiskManager`, `RiskBound`, `RiskExact`, `RiskEscape` | the risk check, the limits over whole runs of broker and tracker, exactly which entries are harmless, and a run that escapes the limits |
| `StrategyBase`, `ScalpRules`, `ScalpStrategy`, `ScalpTheorems`, `ScalpLevels`, `ScalpMirror` | the one-sided strategy, and its answers in plain prices |
| `StrandedExit` | a strategy's exits at the paper broker, at market and at a limit |
| `OcoRules`, `OcoStrategy`, `OcoTheorems`, `OcoLevels` | the two-sided strategy, its simulation by a lone leg, and its answers in terms of its setup |
| `FeedProtocol`, `MarketFeed` | the bounded drop-oldest queue and its statistics |
| `Scheduler` | trading days, sessions, daily reset, forced close |

Prices and money are exact reals. Whatever the program draws from outside is an argument: random rejects, cancel
outcomes, clock readings, new client ids, and every answer of the emergency closer's environment.

## What the code does that its text does not say

The model follows the code. These facts are proved, each with a run that shows it or the exact condition under
which the expected behaviour holds.

- The split between realized and unrealized profit depends on the order in which fills are booked
  (`RealizedDependsOnOrder`), except when the history ends flat or at the same average price
  (`FlatHistoriesRealizeTheSame`, `RealizedAgreesExactlyWhen`); net position and total profit never do
  (`OrderIndependence`). The broker emits events after releasing its lock, so only the latter is promised when
  callers race (`AnyDeliveryOrder`).
- An immediate order whose price the daily limits lock stays on the book instead of expiring, and no other does
  (`ImmediateRestsExactlyWhen`).
- The paper broker queues the events of an entry before its call returns. If the worker thread handles them before
  the submitting thread is back, the router takes every immediate entry, filled or expired, for one that a cancel-all
  orphaned, and closes its whole quantity (`RacedEntryIsOrphaned`, `RacedEntryIsUndone`, `RaceHappens`).
- The router's orphan test also fires on an entry that filled completely before its submission finished
  (`FullFillLooksOrphaned`; in general `OrphanExactlyWhen`), and a cancel-all misses an entry whose submission falls
  between its sweep at the broker and the clearing of the ledger (`SlipsThroughCancelAll`, `SlipsExactlyWhen`).
- Neutralizing a late entry leaves its partial fill open if the rest can still be cancelled, and closes older
  contracts, too few, or none, if the entry is already finished (`LateEntryUndoneExactlyWhen`).
- The cooldown between orders counts from the last submission that finished, so entries whose submissions overlap pass
  it together (`EntriesKeepDistance`, `OverlappingEntriesPass`).
- A successful retry of an abandoned entry's cancel keeps the old count, so a fill that arrives before the entry is
  abandoned again is never compensated (`GapFillIsMissed`, `NothingMissedExactlyWhen`).
- The risk check looks only at the position after the whole entry, and not at entries still at work. A reversing entry
  that leaves more than the limit working is approved, and so are two entries that fit the limit only one at a time;
  either can end at twice the limit (`LimitEscapedByReversal`, `LimitEscapedByTwoEntries`), and two approved entries
  can exceed the daily trade count (`TradesEscapedByTwoEntries`). An entry is harmless to the position exactly when it
  has room beside the others at work (`EntryIsSafeExactlyWhen`, `ApprovedLacksRoomExactlyWhen`); alone, it is unless
  it is such a reversal (`CheckSufficesExactlyWhen`).
- A market exit is an immediate order whose cancellation the strategy never hears of. When one match cannot hold the
  whole quantity, or the price is locked, the strategy keeps waiting with contracts left and sends nothing more
  (`ExitStrandsExactlyWhen`).
- Cancelling a strategy, or a reject, after a partial entry fill ends it with contracts still held, although the
  method is described as cancelling a strategy without a position (`CancelledMayHold`, `CanStrandExactlyWhen`).
- A delivery that found the queue full evicts the oldest tick even if a consumer has meanwhile made room
  (`EvictsDespiteRoom`, `EvictsExactlyWhen`).
- The settings allow a forced close at the very end of the session, which never fires (`WindowExistsExactlyWhen`),
  and a day boundary after 15:00, which splits night sessions (`NightIsWholeExactlyWhen`).
- A flatten lets the engine run again even when positions remain (`FlattenResumesWhileHolding`), and does so before
  it clears its flag (`RunsWhileClosing`, `EngineWhileClosing`). A panic triggered while a flatten runs is dropped
  (`PanicDuringFlattenIsLost`).

## Model

| member | source | states |
|---|---|---|
| FifoLedger.ApplyNet | src/microtx/engine/position.py:53-65 | a fill moves the net position by exactly its signed size, however many lots it consumes |
| FifoLedger.ApplyOneSided | src/microtx/engine/position.py:53-65 | the open lots never hold both directions |
| FifoLedger.NetIsSignedTotal | src/microtx/engine/position.py:81-83 | the size of the net position is the total of the lots and its side is that of the first lot |
| FifoLedger.AverageValuation | src/microtx/engine/position.py:82-93 | unrealized profit computed from the average price equals the lot-by-lot sum |
| FifoLedger.ApplyMarkToMarket | src/microtx/engine/position.py:53-65 | at every mark price a fill changes realized plus unrealized profit by its own cash flow only |
| FifoLedger.ResidualMeaning | src/microtx/engine/position.py:63-65 | a fill opens exposure exactly by what exceeds the opposite position |
| FifoLedger.MarkToMarket | src/microtx/engine/position.py:48-69 | for every fill history and mark price, realized plus unrealized profit is the signed sum of size times distance to the mark |
| FifoLedger.FlowsArePermutable | src/microtx/engine/position.py:48-69 | cash flow and net flow are the same for any order of the same fills |
| FifoLedger.OrderIndependence | src/microtx/engine/position.py:48-69 | net position and total profit do not depend on the order of the fills |
| FifoLedger.RealizedDependsOnOrder | src/microtx/engine/position.py:53-62 | two orders of the same three fills realize different profit |
| FifoLedger.FlatHistoriesRealizeTheSame | src/microtx/engine/position.py:53-65 | histories that end flat realize the same profit in every order |
| FifoLedger.RealizedAgreesExactlyWhen | src/microtx/engine/position.py:53-65 | two histories of the same fills that end holding contracts realize the same profit exactly when they end at the same average price; this relates the two results and is no test on the fills |
| FifoLedger.ApplyRefinesUnits | src/microtx/engine/position.py:53-65 | the lot loop does what trading the fill one contract at a time against a queue would do |
| FifoLedger.SplitFill | src/microtx/engine/position.py:53-65 | splitting a fill in two leaves the same contracts queued and the same profit realized |
| PositionTracker.PositionTracker.constructor | src/microtx/engine/position.py:38-46 | a new tracker is flat and has counted nothing |
| PositionTracker.PositionTracker.OnFill | src/microtx/engine/position.py:48-69 | the closing loop, the new lot and the once-per-order trade count, equal to booking the fill |
| PositionTracker.PositionTracker.OnTick | src/microtx/engine/position.py:71-74 | only the latest price changes |
| PositionTracker.PositionTracker.TakeSnapshot | src/microtx/engine/position.py:76-93 | the snapshot has the size and side of the net position and the lot-by-lot unrealized profit |
| PositionTracker.PositionTracker.TotalPnl | src/microtx/engine/position.py:102-105 | total profit is realized plus the lots valued at the latest price |
| PositionTracker.PositionTracker.ResetDaily | src/microtx/engine/position.py:113-118 | a new day clears profit and counts and keeps the lots |
| PositionTracker.PositionTracker.RestoreDaily | src/microtx/engine/position.py:120-129 | refused exactly for a negative count or a second attempt, and then without effect |
| PositionTracker.PositionTracker.Reconcile | src/microtx/engine/position.py:131-152 | no difference is reported exactly when the broker confirms side, size and average price |
| PositionTracker.BookAllIsReplay | src/microtx/engine/position.py:48-69 | the tracker's ledger is the replay of the fills it was fed |
| PositionTracker.ResetsConserve | src/microtx/engine/position.py:113-118 | daily resets only move realized profit off the books; lots are those of the whole history |
| PositionTracker.ProfitAcrossDays | src/microtx/engine/position.py:102-118 | over any number of days, banked plus current total profit is the cash flow of all fills |
| PositionTracker.SplitReport | src/microtx/engine/position.py:48-69 | one fill of q1 + q2 and two fills of q1 and q2 of one order leave the same contracts, profit and trade count |
| PositionTracker.TradesAreOrdersThatOpened | src/microtx/engine/position.py:48-69 | in every history the trade count is the number of different orders of which a fill since the day began exceeded the opposite position |
| MatchingEngine.DecideIsSound | src/microtx/broker/paper_gateway.py:317-380 | a trade never exceeds the order, the liquidity or, for a close, the opposite position; fill-or-kill trades whole, and an immediate order loses its remainder |
| GatewayPrices.ImmediateRestsExactlyWhen | src/microtx/broker/paper_gateway.py:199-356 | an immediate order is on the book after its placement exactly when the market has reached it and the daily limits lock its price |
| GatewayPrices.EveryFillIsFair | src/microtx/broker/paper_gateway.py:305-356 | in every run every fill lies within the daily limits then in force, a limit order at its limit once reached, any other at the market moved by its slippage and no better than the market |
| GatewayTurns.DecidesDue | src/microtx/broker/paper_gateway.py:317-380 | one attempt trades exactly what is due, at the due price: nothing unless the market is at or past the limit and the price inside the daily limits; else what one match can give, for a close at most the opposite position, all or nothing for fill-or-kill |
| GatewayTurns.TurnIsServed | src/microtx/broker/paper_gateway.py:317-402 | one attempt changes its order, the net position of its symbol and nothing else, by exactly what is due; the order leaves the book exactly when it may not keep working |
| GatewayTurns.PlacedIsServed | src/microtx/broker/paper_gateway.py:199-225 | a new order is served so by its first attempt, at the latest price |
| GatewayTurns.TickServesAll | src/microtx/broker/paper_gateway.py:305-356 | every tick serves every working order so, whatever its intent, at its turn |
| GatewayTurns.TickMovesExactlyWhen | src/microtx/broker/paper_gateway.py:312-345 | a tick leaves an order as it was exactly when the market has not reached it or its price is locked; any other shrinks or leaves the book |
| GatewayTurns.LoneOrderServed | src/microtx/broker/paper_gateway.py:305-375 | an order alone on its symbol trades its due of the position held before the tick |
| GatewayTurns.ReachedOrdersFinish | src/microtx/broker/paper_gateway.py:305-356 | an order that stays in reach loses a contract at least on every tick and is off the book after as many ticks as it has contracts |
| GatewayTurns.EntryFillsOut | src/microtx/broker/paper_gateway.py:305-402 | a day entry that stays in reach has max(0, q - k * m) left after k ticks of m contracts of liquidity |
| GatewayReports.TurnReports | src/microtx/broker/paper_gateway.py:317-356 | a turn reports one fill of what is due at the due price, and one cancel of the rest, with its cause, exactly if the order leaves the book with contracts left |
| GatewayReports.PlacedReports | src/microtx/broker/paper_gateway.py:440-458 | a new order is acknowledged before its events, or right after its fill, as the setting says |
| GatewayReports.EveryOrderIsAnsweredOnce | src/microtx/broker/paper_gateway.py:199-225 | in every run every order number is acknowledged once if its order was accepted, and else rejected once |
| PaperGateway.PaperGateway.constructor | src/microtx/broker/paper_gateway.py:67-120 | a new broker is disconnected, flat and empty |
| PaperGateway.PaperGateway.SetConnected | src/microtx/broker/paper_gateway.py:134-147 | only the connection flag changes |
| PaperGateway.PaperGateway.SetPriceLimits | src/microtx/broker/paper_gateway.py:283-288 | inverted limits are refused without effect |
| PaperGateway.PaperGateway.PlaceOrder | src/microtx/broker/paper_gateway.py:199-225 | no answer when disconnected, refusal of a known client id, otherwise registration and an immediate match; events and state equal the specification |
| PaperGateway.PaperGateway.CancelOrder | src/microtx/broker/paper_gateway.py:227-236 | true exactly for an open order, which leaves the book with one cancel event for its remainder |
| PaperGateway.PaperGateway.CancelAllOrders | src/microtx/broker/paper_gateway.py:238-249 | the book is empty afterwards, the count is right, and the effect is cancelling each order in turn |
| PaperGateway.PaperGateway.FeedTick | src/microtx/broker/paper_gateway.py:305-315 | a tick re-marks positions and then offers itself to a snapshot of the open orders, oldest first; what that gives each order is `GatewayTurns.TickServesAll` |
| PaperGateway.PaperGateway.MatchOrder | src/microtx/broker/paper_gateway.py:317-356 | one matching attempt performs the decided outcome and reports its events |
| PaperGateway.PaperGateway.Execute | src/microtx/broker/paper_gateway.py:342-356 | the fill is booked and the remainder that may not keep working is cancelled |
| PaperGateway.PaperGateway.FillableQuantity | src/microtx/broker/paper_gateway.py:358-380 | the tradable quantity and the reason a close loses its remainder |
| PaperGateway.PaperGateway.ApplyFill | src/microtx/broker/paper_gateway.py:382-402 | position and order change together, and the fill event names both |
| PaperGateway.PaperGateway.UpdatePosition | src/microtx/broker/paper_gateway.py:404-430 | the second copy of the lot loop and the rebuilt cache equal booking the fill |
| PaperGateway.PaperGateway.RebuildPosition | src/microtx/broker/paper_gateway.py:422-430 | the cached position is rebuilt from the lots, and goes with the last of them |
| PaperGateway.PaperGateway.RefreshUnrealizedPnl | src/microtx/broker/paper_gateway.py:432-438 | every cached position is re-marked at the latest price |
| PaperGateway.PaperGateway.ListPositions | src/microtx/broker/paper_gateway.py:278-281 | every position is listed exactly once |
| PaperGateway.ArrangedIsLogged | src/microtx/broker/paper_gateway.py:440-458 | acknowledging first or after the fill changes only the order of the events |
| GatewayHistory.DoFillHolds | src/microtx/broker/paper_gateway.py:382-430 | booking an allowed fill keeps every invariant; only its own order may still have a remainder to settle |
| GatewayHistory.DoDropHolds | src/microtx/broker/paper_gateway.py:318-356 | cancelling a remainder keeps every invariant and settles the order |
| GatewayHistory.RegisterHolds | src/microtx/broker/paper_gateway.py:199-219 | admitting a new order keeps every invariant |
| GatewayHistory.StepHolds | src/microtx/broker/paper_gateway.py:199-315 | every request keeps every invariant of the broker |
| GatewayHistory.Preserved | src/microtx/broker/paper_gateway.py:199-315 | every run keeps every invariant of the broker |
| GatewayTheorems.OrderConservation | src/microtx/broker/paper_gateway.py:199-402 | filled plus cancelled plus remaining is the ordered quantity, an order is on the book exactly while something remains, fill-or-kill fills all or nothing, an immediate order fills at most once |
| GatewayTheorems.OneOrderPerClientId | src/microtx/broker/paper_gateway.py:203-206 | a client id opens at most one order in any run |
| GatewayTheorems.RunLater | src/microtx/broker/paper_gateway.py:199-315 | later histories only extend earlier ones |
| GatewayTheorems.FinishedStaysFinished | src/microtx/broker/paper_gateway.py:227-356 | an order that left the book never fills, cancels or returns |
| GatewayTheorems.CloseOnlySafety | src/microtx/broker/paper_gateway.py:358-375 | over every run, exposure is at most entry fills less close fills, and never opposite to a single entry direction |
| GatewayTheorems.CloseTradeShrinks | src/microtx/broker/paper_gateway.py:358-375 | a close-only trade shrinks the position by its quantity and keeps its side |
| GatewayTheorems.PositionsAreRecomputed | src/microtx/broker/paper_gateway.py:422-438 | in every run the cached position equals the one recomputed from lots and latest price |
| GatewayTheorems.BookedIsTracked | src/microtx/engine/position.py:48-69 | a tracker fed the logged fills holds the broker's ledger |
| GatewayTheorems.TrackerAgrees | src/microtx/engine/position.py:131-152 | in every run on one symbol, tracker and broker hold the same lots and realized profit, and reconciliation finds nothing |
| GatewayTheorems.AnyDeliveryOrder | src/microtx/broker/paper_gateway.py:493-501 | delivered in any order, the fills still give the broker's net position and total profit |
| OrderRouter.OrderRouter.constructor | src/microtx/engine/order_router.py:50-60 | a new router knows nothing |
| OrderRouter.OrderRouter.Submit | src/microtx/engine/order_router.py:74-92 | without interruption: a known id or a failed risk check, on the broker's price limits and the last submission, changes nothing; a close first completes or abandons exactly its strategy's working entries, every other order staying as it was; the reply is finalized, and an error leaves no trace |
| OrderRouter.OrderRouter.SubmitUnchecked | src/microtx/engine/order_router.py:94-124 | what the emergency path sends and records, with and without the lock before and after the broker call |
| OrderRouter.OrderRouter.TryReserve | src/microtx/engine/order_router.py:172-176 | an id is reserved exactly when it is neither in flight nor completed |
| OrderRouter.OrderRouter.GiveUp | src/microtx/engine/order_router.py:179-182 | a failed broker call returns the reservation |
| OrderRouter.OrderRouter.MarkDone | src/microtx/engine/order_router.py:338-341 | completing an id takes it out of flight for good |
| OrderRouter.OrderRouter.Conclude | src/microtx/engine/order_router.py:183-190 | finalizes exactly an id still in flight, else asks to neutralize exactly an accepted entry |
| OrderRouter.OrderRouter.NeutralizeLateEntry | src/microtx/engine/order_router.py:192-213 | a late entry that cannot be cancelled is answered by an opposite emergency order for its whole quantity |
| OrderRouter.OrderRouter.FinalizeAck | src/microtx/engine/order_router.py:215-223 | an acceptance is timed, a refusal completes the id, the broker number is remembered |
| OrderRouter.OrderRouter.ClearLedger | src/microtx/engine/order_router.py:133-139 | cancel-all completes everything in flight and forgets fills and abandoned entries |
| OrderRouter.OrderRouter.OnEvent | src/microtx/engine/order_router.py:141-156 | the ledger change and compensation order for each kind of event |
| OrderRouter.OrderRouter.RecordFillOf | src/microtx/engine/order_router.py:309-316 | fills accumulate and a complete fill completes the id |
| OrderRouter.OrderRouter.PrepareCompensation | src/microtx/engine/order_router.py:318-336 | an opposite order of the same size, and the watch ends when the quantity is reached |
| OrderRouter.OrderRouter.CancelWorkingEntries | src/microtx/engine/order_router.py:240-277 | exactly the entries in flight of the strategy, if it has a name, end up cancelled or abandoned, as the cancel of each went, and nothing else changes |
| OrderRouter.OrderRouter.CancelOrAbandon | src/microtx/engine/order_router.py:257-276 | one target is completed if its cancel succeeded and watched otherwise |
| OrderRouter.OrderRouter.RetryAbandoned | src/microtx/engine/order_router.py:291-307 | exactly the entries whose cancel now succeeds are forgotten |
| OrderRouter.ClosingMakesWay | src/microtx/engine/order_router.py:240-277 | a closing order of a named strategy completes each of its entries in flight whose cancel went through, abandons each other one with its own request, and leaves every other order in flight, completed and abandoned as it was |
| OrderRouter.SubmissionMakesWay | src/microtx/engine/order_router.py:74-92 | the same of the whole submission, its own id aside, whatever the broker answers |
| OrderRouter.NoEntryReopensUnseen | src/microtx/engine/order_router.py:141-164 | afterwards each such entry was cancelled or each of its fills is answered by the opposite emergency order |
| RouterProtocol.StepKeeps | src/microtx/engine/order_router.py:94-190 | every locked section and broker reply keeps the ledger disjoint, outstanding ids known and answered at most once |
| RouterProtocol.AtMostOnce | src/microtx/engine/order_router.py:78-92 | over every interleaving, in-flight and completed stay disjoint, an id gets at most one successful broker call, and is refused for ever after |
| RouterProtocol.OrphanMeansCompleted | src/microtx/engine/order_router.py:184-190 | at the end of any submission the id is missing from flight exactly when it is completed |
| RouterProtocol.BarrierOrphans | src/microtx/engine/order_router.py:130-139 | a submission outstanding across cancel-all is orphaned at its end, whatever happens in between |
| RouterProtocol.OrphanExactlyWhen | src/microtx/engine/order_router.py:184-190 | in every run the orphan test finds an outstanding id missing exactly when, since its submission began, the ledger was cleared, its cancel succeeded, or an event said it was refused, cancelled or completely filled |
| RouterProtocol.FullFillLooksOrphaned | src/microtx/engine/order_router.py:185-189 | a run without cancel-all in which the orphan test fires on a filled entry |
| RouterProtocol.SlipsExactlyWhen | src/microtx/engine/order_router.py:130-139 | in every run a cancel-all leaves an order at work at the broker, completed, unwatched and never undone exactly when the broker took it after the sweep and neither cancelled, refused nor filled all of it, and its submission finished before the clearing, the orphan test not firing |
| RouterProtocol.SlipsThroughCancelAll | src/microtx/engine/order_router.py:130-139 | the shortest run that leaves such an order |
| RouterCompensation.RunBalances | src/microtx/engine/order_router.py:141-164 | the compensation books balance in every run |
| RouterCompensation.CompensationConserves | src/microtx/engine/order_router.py:309-336 | fills received while abandoned and compensation orders sum to zero, the count is fills before plus fills compensated, and over a whole watch compensation never exceeds what the entry could still fill |
| RouterCompensation.WatchStartsExact | src/microtx/engine/order_router.py:270-276 | the watch on an uncompleted entry starts from its true fill count |
| RouterCompensation.WatchEndsOnlyWhenFull | src/microtx/engine/order_router.py:332-335 | a fill ends a watch only when the whole quantity has been received |
| RouterCompensation.MissedExactlyWhenPaused | src/microtx/engine/order_router.py:148-151 | a fill of an entry under watch is missed exactly when the entry is not abandoned at that moment |
| RouterCompensation.NothingMissedExactlyWhen | src/microtx/engine/order_router.py:291-336 | in every run nothing is missed exactly when no fill came between a forgotten cancel or a completing fill and the next time the entry was abandoned |
| RouterCompensation.GapFillIsMissed | src/microtx/engine/order_router.py:305-307 | a run in which a fill after a successful retry is never counted |
| RouterBroker.StepLinked | src/microtx/engine/order_router.py:130-190 | every step of router, broker and event queue keeps the link: an order in flight is unfinished and counted exactly, any other is cleared or finished |
| RouterBroker.AnswerIsTheBrokers | src/microtx/broker/paper_gateway.py:199-225 | in the composed system a submission hears what the broker's placement answers |
| RouterBroker.FlightIsWhatWorks | src/microtx/engine/order_router.py:141-190 | in every run, once all events are handled, the answered ids in flight are exactly those of orders working at the broker, less those a cancel-all cleared, each with its exact fill count |
| RouterBroker.NeutralizedExactlyWhen | src/microtx/engine/order_router.py:183-190 | an accepted entry whose events are all handled before its submission ends is neutralized exactly when it was cleared or is finished |
| OrderNumbers.CacheReachesOwnOrder | src/microtx/engine/order_router.py:215-231 | in every run a cancel under a client's cached number leaves the orders of every other client alone |
| OrderNumbers.CacheIsComplete | src/microtx/engine/order_router.py:145-147 | once all events are handled the router has the number of every order ever accepted, and cancelling under it takes the order off the book |
| OrderNumbers.FinishedIsCached | src/microtx/engine/order_router.py:215-223 | from the end of a recorded submission on, whatever happens later, the cached number of an accepted order is the right one |
| OrderThrottle.EntriesKeepDistance | src/microtx/engine/order_router.py:82-88 | in every run an entry that would otherwise pass is let through exactly when the cooldown has run since the last recorded acceptance |
| OrderThrottle.OverlappingEntriesPass | src/microtx/engine/order_router.py:81-92 | a run in which two entries pass the check at one instant and are both accepted |
| RacedEntry.RacedEntryIsOrphaned | src/microtx/engine/order_router.py:183-190 | in every run an immediate entry, its price not locked, is neutralized if its events are handled before its submission ends, and is not if they are handled after, unless cleared |
| RacedEntry.RacedEntryIsUndone | src/microtx/engine/order_router.py:192-213 | the exposure left then: up to the whole quantity is closed of the exposure before the entry and its fill |
| RacedEntry.RaceHappens | src/microtx/broker/paper_gateway.py:199-225 | for every immediate entry there is such a run from the start |
| EmergencyCloser.EmergencyCloser.Execute | src/microtx/engine/emergency.py:101-141 | a repeated trigger repeats the last report and changes nothing; any other call runs, reports and leaves the flag clear |
| EmergencyCloser.EmergencyCloser.Body | src/microtx/engine/emergency.py:143-181 | halt, tradability, deferral, connection, lock and cancel-all, in that order |
| EmergencyCloser.EmergencyCloser.CloseOut | src/microtx/engine/emergency.py:182-226 | query, comparison, rounds and report |
| EmergencyCloser.EmergencyCloser.CloseRounds | src/microtx/engine/emergency.py:190-202 | bounded rounds, each ended by a fresh query |
| EmergencyCloser.EmergencyCloser.SubmitAll | src/microtx/engine/emergency.py:194-200 | every listed position is tried once, failures are noted |
| EmergencyCloser.EmergencyCloser.CloseRequest | src/microtx/engine/emergency.py:282-302 | the opposite order at market, or at the far limit, falling back to market when the limits fail |
| EmergencyCloser.EmergencyCloser.EnsureConnected | src/microtx/engine/emergency.py:235-248 | three reconnection attempts, exceptions included |
| EmergencyCloser.EmergencyCloser.ListPositions | src/microtx/engine/emergency.py:250-252 | a query under the bounded lock |
| EmergencyCloser.EmergencyCloser.EmergencyLock | src/microtx/engine/emergency.py:254-273 | after one timeout the lock is bypassed for the rest of the execution |
| EmergencyCloser.EmergencyCloser.FinishStrategiesAndState | src/microtx/engine/emergency.py:304-313 | strategies are dropped, and a flatten asks the engine to run |
| EmergencyTheorems.RoundsTidy | src/microtx/engine/emergency.py:190-204 | the rounds follow the protocol, ask at most once per retry, and end with the last answer as residual |
| EmergencyTheorems.ExecutionIsOrderly | src/microtx/engine/emergency.py:143-226 | against every environment: a report, no close before cancel-all returned, every listed position tried in order before the next query, every query with the lock just had or after it was given up, a bounded number of queries |
| EmergencyTheorems.SuccessMeansFlat | src/microtx/engine/emergency.py:204-219 | success exactly when nothing failed and the last query was empty; the residual is always the last answer |
| EmergencyTheorems.ResumesExactlyWhen | src/microtx/engine/emergency.py:304-313 | the engine is asked to halt first, and then to run exactly by a flatten that was not deferred; a deferral is remembered |
| EmergencyTheorems.FailedCancelSendsNothing | src/microtx/engine/emergency.py:114-133 | when cancel-all raises, no close is even tried and the report admits failure |
| EmergencyReports.DefersExactlyWhen | src/microtx/engine/emergency.py:146-168 | against every environment a close is deferred exactly when the halt succeeded, the tradability test answered no, and the strategies were dropped; then nothing was cancelled, asked or sent; a test that raises does not defer |
| EmergencyReports.LinkTells | src/microtx/engine/emergency.py:235-248 | one look at the link, then up to three reconnections until it is up, all three if none helps |
| EmergencyReports.ReportTellsAll | src/microtx/engine/emergency.py:143-226 | the report against the calls made: closing by hand exactly when three reconnections failed, then nothing cancelled or sent; else the count cancel-all returned, the positions first listed, every mismatch, every failed submission with its round, and whether the lock was given up; each order at market, or at the far limit if the limits were had; the strategies dropped in every case |
| EmergencyReentry.OneBodyAtATime | src/microtx/engine/emergency.py:105-141 | under any interleaving at most one body runs, the flag says so, and others hear the last completed report |
| EmergencyReentry.EngineWhileClosing | src/microtx/engine/emergency.py:111-147 | while a body runs the engine is halted exactly between a successful halt and a successful resumption, else as it was found |
| EmergencyReentry.EngineBetweenClosings | src/microtx/engine/emergency.py:304-313 | afterwards it runs exactly when the last body resumed it, or neither halted it nor found it halted |
| EmergencyReentry.ExecutionIsARun | src/microtx/engine/emergency.py:101-226 | every execution against every environment is such a run, resuming exactly when its trace does |
| EmergencyReentry.RunsWhileClosing | src/microtx/engine/emergency.py:111-147 | the two windows in which a running engine is being closed |
| EmergencyReentry.PanicDuringFlattenIsLost | src/microtx/engine/emergency.py:105-112 | a run in which a panic during a flatten leaves the engine running |
| CloseEffects.CloseOrderEffect | src/microtx/broker/paper_gateway.py:199-375 | the exact effect of an immediate close-only order on exposure and book |
| EmergencyFlatten.FreshIdsExist | src/microtx/broker/base.py:14-20 | fresh, distinct ids can be drawn at every venue, so the exact results below apply to all of them |
| EmergencyFlatten.LeftClosedForm | src/microtx/engine/emergency.py:191-202 | what rounds of limited liquidity leave is max(0, q - rounds * m), or nothing after one round without a limit |
| EmergencyFlatten.RoundsExact | src/microtx/engine/emergency.py:190-202 | the closer's own rounds at the paper broker leave exactly what liquidity cannot reach, or everything when the price is locked, on the same side, and end knowing what is left |
| EmergencyFlatten.EmergencyCloseExact | src/microtx/engine/emergency.py:143-226 | closer, router and broker composed: exactly max(0, q - R * m) left, or all when locked, same side, at most R close-only orders on the book; the residual reported is what the broker holds, and success exactly when that is nothing |
| EmergencyFlatten.FlattenResumesWhileHolding | src/microtx/engine/emergency.py:204-226 | a flatten that cannot close everything resumes the engine all the same |
| CloseEffects.NeverReversed | src/microtx/broker/paper_gateway.py:358-375 | with only close-only orders working, no later run without entries grows or reverses the position |
| EmergencyFlatten.EmergencyCloseIsFinal | src/microtx/engine/emergency.py:177-205 | after an emergency close of any reachable book, no ticks, cancels or closes take the position past flat |
| CloseEffects.CompensationNeutralizes | src/microtx/engine/order_router.py:318-336 | the exact exposure after an abandoned entry's fill and its compensation order |
| CloseEffects.LateEntryNeutralized | src/microtx/engine/order_router.py:192-213 | the exact exposure after a late entry is neutralized at the broker |
| CloseEffects.LateEntryUndoneExactlyWhen | src/microtx/engine/order_router.py:192-213 | from any position before it, exactly when that restores the exposure, locked price and reversal included |
| RiskManager.Check | src/microtx/engine/risk.py:54-83 | approval holds exactly for emergencies and for permitted orders; closes are never refused for halt, loss, count, size or cooldown |
| OrderThrottle.PassesExactlyWhen | src/microtx/engine/risk.py:54-97 | which orders pass, by intent: emergencies always, other closes when the session is open and the price allowed, entries only while loss, trades, position and cooldown permit |
| RiskBound.ApprovedLacksRoomExactlyWhen | src/microtx/engine/risk.py:91-97 | an approved entry lacks room exactly when what it leaves working, the other entries at work on its side and the position held there after its immediate fill exceed the limit together; alone on its side, exactly when it is still a reversal and leaves more than the limit working, so only if it rests or its price is locked |
| RiskBound.CheckSufficesExactlyWhen | src/microtx/engine/risk.py:66-69 | with no other entry at work an approved entry may be sent, for position and trade count, exactly when it is no such reversal |
| RiskBound.EntryLands | src/microtx/broker/paper_gateway.py:199-380 | the exact effect of an accepted entry: what it fills within its call, and what it leaves working that can still fill |
| RiskBound.FillSafe | src/microtx/engine/position.py:63-69 | one fill keeps position and trade count within the limits, with room for what still works |
| RiskBound.StepWithin | src/microtx/engine/risk.py:66-69 | every request, tick and new day keeps broker and tracker within the limits, at each fill on the way |
| RiskBound.DayStarts | src/microtx/engine/position.py:113-118 | a new day forgets what was counted, and the entries at work still fit its count |
| RiskBound.LimitsHold | src/microtx/engine/risk.py:54-74 | over every run of approved entries, any number at work, that have room beside one another, position and daily trade count stay within their limits at every fill, and broker and tracker hold the same lots |
| RiskExact.WorstIsReached | src/microtx/broker/paper_gateway.py:305-375 | from any book and for either side: requests without another entry that close all that is held against the side and then fill all that its entries at work can still fill |
| RiskExact.StaysExactlyWhen | src/microtx/engine/risk.py:68-69 | the position stays within the limit, whatever follows short of another entry, exactly when on either side what is held and all that the entries at work can still fill are within it |
| RiskExact.EntryIsSafeExactlyWhen | src/microtx/engine/risk.py:66-69 | where the position stays within the limit whatever follows, it still does once an entry is sent exactly when the entry had room before |
| RiskEscape.LimitEscapedByReversal | src/microtx/engine/risk.py:68-69 | on the paper broker, for all limits that allow two trades: a run of approved entries, the second a resting reversal, that ends at twice the limit |
| RiskEscape.LimitEscapedByTwoEntries | src/microtx/engine/risk.py:68-69 | for all limits: a run of two approved entries, both within the limit and at work together, that ends at twice the limit |
| RiskEscape.TradesEscapedByTwoEntries | src/microtx/engine/risk.py:66-67 | with one trade a day allowed: a run of two approved entries that are both counted |
| StrandedExit.ExitSignalIsForAll | src/microtx/strategies/scalp.py:259-287 | an exit signal is for everything held and leaves the strategy waiting for its fills |
| StrandedExit.MarketExit | src/microtx/engine/engine.py:326-339 | an immediate exit at the paper broker: both sides lose what one match allows, the rest expires, max(0, held - m) stay |
| StrandedExit.ExitStrandsExactlyWhen | src/microtx/engine/engine.py:253-276 | the exit is complete exactly when the price is not locked and one match holds all; otherwise contracts stay and nothing more is sent |
| StrandedExit.LimitExitKeepsWorking | src/microtx/engine/engine.py:326-339 | an exit at a limit strands nothing: what the strategy still holds after its order's first attempt is exactly what the order still works for |
| StrandedExit.OwnEntryIsInTheWay | src/microtx/engine/engine.py:326-339 | the orders made of a strategy's signals are such that its exit clears its own entry out of the way |
| StrategyBase.TransitionsRise | src/microtx/strategies/base.py:26-62 | every legal transition raises the rank, and exactly the terminal states have none |
| ScalpRules.AlignedMeansWholeTicks | src/microtx/strategies/scalp.py:297-299 | the alignment test accepts exactly the positive whole numbers of ticks |
| ScalpStrategy.ValidateAbsolutePrices | src/microtx/strategies/scalp.py:289-306 | no refusal exactly when both prices are aligned and lie on their sides of the trigger |
| ScalpStrategy.Validate | src/microtx/strategies/scalp.py:36-64 | the sequence of refusals leaves exactly the setups with one complete, positive, ordered mode |
| ScalpStrategy.Construct | src/microtx/strategies/scalp.py:36-81 | construction fails exactly when a refusal applies, and else starts idle and flat |
| ScalpStrategy.ScalpStrategy.Transition | src/microtx/strategies/base.py:95-108 | the state changes only along the table; anything else raises without effect |
| ScalpStrategy.ScalpStrategy.OnTick | src/microtx/strategies/scalp.py:118-145 | entry trigger while armed, exit check while exposed, silence otherwise |
| ScalpStrategy.ScalpStrategy.OnFill | src/microtx/strategies/scalp.py:147-178 | partial entry fills, averaging and immediate protection; exit fills down to closed; errors without effect |
| ScalpStrategy.ScalpStrategy.OnReject | src/microtx/strategies/scalp.py:180-189 | a rejected entry cancels, a rejected exit is an error |
| ScalpStrategy.ScalpStrategy.CloseOut | src/microtx/strategies/scalp.py:191-198 | a forced close cancels a flat strategy and exits an exposed one |
| ScalpStrategy.ScalpStrategy.CheckExit | src/microtx/strategies/scalp.py:213-248 | stop first, then take profit, against the updated best price |
| ScalpStrategy.ScalpStrategy.EmitExit | src/microtx/strategies/scalp.py:259-287 | at most one exit signal, for the filled quantity, at a limit only when allowed |
| ScalpStrategy.ScalpStrategy.CurrentStop | src/microtx/strategies/scalp.py:93-104 | the effective stop in absolute, trailing and point mode |
| ScalpTheorems.CheckProtects | src/microtx/strategies/scalp.py:213-248 | a check exits the whole quantity exactly when the price has left the bracket, on the side it left |
| ScalpTheorems.StepIsSound | src/microtx/strategies/scalp.py:106-198 | every call keeps quantities and bracket, raises exactly in the listed cases, and an error changes nothing |
| ScalpTheorems.OneEntryOneExit | src/microtx/strategies/scalp.py:118-198 | over every event sequence at most one entry and one exit, the exit for exactly what was bought, open quantity is bought less sold, the entry price is the weighted average |
| ScalpTheorems.StatesFixQuantity | src/microtx/strategies/base.py:26-114 | each live state fixes its range of quantity, and at most five transitions ever happen |
| ScalpTheorems.NoUnprotectedExposure | src/microtx/strategies/scalp.py:123-178 | until an exit is emitted, the latest price is strictly between stop and take profit |
| ScalpTheorems.NeverBoth | src/microtx/strategies/scalp.py:227-248 | on no check of any run are stop and take profit triggered together, trailing and averaging included |
| ScalpTheorems.TrailingNeverLoosens | src/microtx/strategies/scalp.py:93-104 | while contracts are held a trailing stop never moves against the position |
| ScalpTheorems.LimitExits | src/microtx/strategies/scalp.py:266-278 | an exit has a limit only in price mode, only at its own level, and not when the entry fill was already past it |
| ScalpTheorems.CancelledMayHold | src/microtx/strategies/scalp.py:180-184 | a cancelled strategy still holds contracts exactly when it was cancelled or rejected after a partial fill |
| ScalpTheorems.CanStrandExactlyWhen | src/microtx/strategies/scalp.py:118-184 | some run ends a setup cancelled with contracts held exactly when its entry is for more than one contract |
| ScalpLevels.AcceptedExactlyWhen | src/microtx/strategies/scalp.py:37-64 | the accepted setups are those with positive size and trigger that exit by positive distances, or at whole-tick prices on both sides of the trigger |
| ScalpLevels.CheckExitsAt | src/microtx/strategies/scalp.py:213-287 | a check stops out at or past entry minus stop distance, or best minus trailing distance, or the stop price, else takes profit at or past entry plus take-profit distance or the take-profit price; with a limit at that level exactly when asked for and not jumped by the entry fill |
| ScalpLevels.AnswersExactly | src/microtx/strategies/scalp.py:106-198 | in every run every call is answered with exactly these signals, this next state, this quantity held and this best and latest price remembered |
| ScalpLevels.TrailingExitsExactlyWhen | src/microtx/strategies/scalp.py:93-104 | a full position watched over any number of ticks stops out on the next one exactly at the trailing distance from the best price since the entry |
| ScalpLevels.BestOverIsBest | src/microtx/strategies/scalp.py:250-257 | that price is one of those seen and none of them is better |
| ScalpMirror.MirrorSymmetry | src/microtx/strategies/scalp.py:118-287 | reflecting prices and swapping sides gives, call by call, the mirrored signals and the same transitions and errors |
| ScalpMirror.FreshMirrors | src/microtx/strategies/scalp.py:76-81 | two fresh strategies mirror each other, and mirroring a setup twice gives it back |
| OcoStrategy.Construct | src/microtx/strategies/oco.py:34-77 | the composite's refusals and then those of each leg leave exactly the accepted setups |
| OcoStrategy.OcoStrategy.OnTick | src/microtx/strategies/oco.py:100-121 | delegation to the active leg, or the first tick that triggers one |
| OcoStrategy.OcoStrategy.ChooseLeg | src/microtx/strategies/oco.py:110-121 | the triggered leg is kept and the other cancelled |
| OcoStrategy.OcoStrategy.OnFill | src/microtx/strategies/oco.py:123-129 | fills go to the active leg, then the states are synchronized |
| OcoStrategy.OcoStrategy.OnReject | src/microtx/strategies/oco.py:131-137 | rejects go to the active leg |
| OcoStrategy.OcoStrategy.CloseOut | src/microtx/strategies/oco.py:139-150 | a forced close cancels both waiting legs or closes the active one |
| OcoStrategy.OcoStrategy.CancelStrategy | src/microtx/strategies/oco.py:85-92 | cancels both waiting legs or the active one, then itself |
| OcoStrategy.OcoStrategy.AbortStrategy | src/microtx/strategies/oco.py:94-98 | aborts legs and composite without a signal |
| OcoStrategy.OcoStrategy.SyncActiveState | src/microtx/strategies/oco.py:160-162 | the composite follows its active leg, by a legal transition only |
| OcoTheorems.LegStepIsLegal | src/microtx/strategies/base.py:26-62 | however often a leg moves in one call, the composite step is one legal transition |
| OcoTheorems.NoTickTriggersBoth | src/microtx/strategies/oco.py:35-36 | no price triggers both sides |
| OcoTheorems.WaitingStep | src/microtx/strategies/oco.py:100-121 | exactly when a waiting composite commits to a side, and that until then each leg does what it would do alone |
| OcoTheorems.OcoIsItsActiveLeg | src/microtx/strategies/oco.py:79-162 | in every run errors are exactly the listed ones, never a failed synchronization; state is the active leg's; the other leg is finished and flat |
| OcoTheorems.OcoSimulatesLeg | src/microtx/strategies/oco.py:100-162 | call by call the composite returns the signals of a strategy that only ever had the chosen side |
| OcoTheorems.OcoIsALoneStrategy | src/microtx/strategies/oco.py:79-162 | once a side has triggered, the whole history is that of a lone strategy on that side |
| OcoLevels.OcoAcceptedExactlyWhen | src/microtx/strategies/oco.py:34-77 | the accepted setups, in the terms of the composite's own fields |
| OcoLevels.OcoAnswersExactly | src/microtx/strategies/oco.py:49-150 | in every run the entry has the side, size and trigger price of the side reached, and the exits have that side's own distances or prices and styles, at the entry actually paid |
| FeedProtocol.StepKeeps | src/microtx/market/feed.py:95-155 | every step of every producer and consumer keeps the balance of the statistics and the order of the queue |
| FeedProtocol.StatsAddUp | src/microtx/market/feed.py:106-155 | whenever the lock is free: received is filtered plus delivered, delivered is consumed plus depth plus evicted, depth is queue length plus consumers not yet counted |
| FeedProtocol.QueueIsNewestSuffix | src/microtx/market/feed.py:138-151 | the queue is the newest unbroken stretch of delivered ticks, within capacity, and what left it is the rest in order |
| FeedProtocol.SecondPutNeverFull | src/microtx/market/feed.py:143-151 | however consumers interleave, the second put finds room |
| FeedProtocol.EvictsExactlyWhen | src/microtx/market/feed.py:138-151 | in every run, when a delivery makes room, the free places are the ticks consumers took since it found the queue full; so there is room exactly when one did, and a tick is evicted unless they took all |
| FeedProtocol.EvictsDespiteRoom | src/microtx/market/feed.py:143-150 | the smallest run in which a tick is evicted although a consumer has made room |
| MarketFeed.DeliverAtOnce | src/microtx/market/feed.py:138-155 | a delivery that no consumer interrupts runs the protocol's steps to one enqueue, in which the oldest tick gives way to the newest if the queue was full |
| MarketFeed.MarketFeed.OnRawTick | src/microtx/market/feed.py:126-136 | trial ticks are counted and dropped, others captured and delivered |
| MarketFeed.MarketFeed.Enqueue | src/microtx/market/feed.py:138-155 | the newest tick always gets in, the oldest gives way when the queue is full, counters to match |
| MarketFeed.MarketFeed.Get | src/microtx/market/feed.py:95-104 | the oldest waiting tick, counted as consumed |
| Scheduler.TradingDateIsShiftedDate | src/microtx/engine/trading_day.py:20-26 | the trading date is the date of a clock set back by the boundary |
| Scheduler.TradingDateMonotone | src/microtx/engine/trading_day.py:20-26 | trading dates never go back |
| Scheduler.SessionsAreIntervals | src/microtx/engine/scheduler.py:38-55 | it is day exactly within one weekday's session, and night exactly from 15:00 of a weekday to 5:00 of the next day when it is not day |
| Scheduler.SessionHasOneTradingDate | src/microtx/engine/scheduler.py:38-55 | day sessions, and nights that begin after the boundary, have one trading date over midnight |
| Scheduler.NightIsWholeExactlyWhen | src/microtx/config.py:198-199 | nights have one trading date exactly when the boundary is not after 15:00 |
| Scheduler.Scheduler.Check | src/microtx/engine/scheduler.py:83-96 | one poll: which callbacks it makes and what it remembers |
| Scheduler.ResetMarksDateChange | src/microtx/engine/scheduler.py:85-88 | the daily reset fires exactly at polls that see a new trading date |
| Scheduler.NoResetInsideSession | src/microtx/engine/scheduler.py:85-88 | no reset fires between two polls of one session |
| Scheduler.ForceCloseAtFirstPoll | src/microtx/engine/scheduler.py:89-96 | the forced close fires exactly at the first poll inside a date's window |
| Scheduler.ForceCloseOncePerDate | src/microtx/engine/scheduler.py:89-96 | exactly one forced close per weekday polled in its window, none otherwise |
| Scheduler.WindowExistsExactlyWhen | src/microtx/config.py:193-197 | the window is empty exactly when the close is set at the end of the session |
| Scheduler.SessionOpensBeforeWindow | src/microtx/config.py:193-197 | every weekday session begins before its window, so the settings always leave time to trade |

## Left out

- Timers: the broker's `fill_delay_sec` is zero, so fills are emitted with the matching attempt; a positive delay lets a cancel drop events of fills already booked.
- Floating point: prices and money are exact reals, so rounding and infinite default price limits are not studied; limit-priced emergency closes are modelled once limits are set.
- Random rejects are a Boolean argument of a placement.
- Broker order numbers are their sequence numbers; timestamps, message texts, exchange numbers, subscriptions and callbacks are not part of the model.
- The tick callback of `feed_tick` runs between requests; it is not nested inside a tick.
- The order of positions in `list_positions` is not modelled, only that each appears once.
- RouterProtocol.AtMostOnce: does not cover emergency orders sent while the shared lock could not be had at all (order_router.py:97-101), because that path bypasses the ledger on purpose.
- RouterProtocol.StepKeeps: a broker call and its retries are one step that answers or fails; the retry delays are not modelled.
- EmergencyFlatten.EmergencyCloseExact: one symbol, a connected broker, no ticks or rejects during the close and a free lock; every other environment is covered by `EmergencyTheorems`, which knows nothing of fills.
- OrderRouter.OrderRouter.Submit: a submission that nothing interrupts; interleaved submissions are the runs of `RouterProtocol`.
- EmergencyReentry.EngineWhileClosing: start and shutdown of the engine, which also set its state, are not steps of the model.
- EmergencyTheorems.ExecutionIsOrderly: notifications and log lines are not calls of the model; they cannot fail outward.
- GatewayTheorems.TrackerAgrees: one symbol, as in the program, where the tracker keeps a single book.
- RiskBound.LimitsHold: one symbol, and the tracker is fed each fill before the next check, as when the event queue is drained. For the position its condition is also necessary (`StaysExactlyWhen`); for the daily trade count it is only sufficient, because orders on both sides can fill in one tick, and whether the later one opens exposure then depends on the sizes of both.
- RouterBroker.FlightIsWhatWorks: events are handled in the order in which they were logged, and every order comes through the router's ledger; emergency orders sent around it are not steps.
- FeedProtocol.StatsAddUp: normalization of raw ticks and the subscription life cycle are not modelled.
- Scheduler.Scheduler.Check: conversion from other time zones is taken as done; threads and the one-second wait are not modelled.
- The Shioaji gateway wraps a library that cannot be seen; the router and the closer are proved against arbitrary brokers instead.
- `should_halt`, the status, quote and log writers, notifiers, the command line, the terminal view and process control are presentation or input and output.
- Settings beyond the numeric bounds and the session window, and the daily state file, are not modelled.
