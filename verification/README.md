# A verified model of the paper-trading runtime

This project models the runtime of a small crypto paper-trading system in Dafny and proves properties of the
model that hold for every input, every run and every interleaving. It covers five connected parts:

- **The ledger and its closed loop.** The average-cost account (`Ledger`, `Accounting`), the simulated executor
  (`PaperExecutor`), risk checks and sizing (`Risk`), exit rules (`Exits`), one trading cycle (`PaperCycle`,
  `CycleTrace`) and the runs that rebuild the account from the fill log they write (`Runner`, `ClosedLoop`,
  `DoubleSales`, `LoopBounds`, `DailyBaseline`, `DailyLimits`). Two other folds over the same log, runtime status
  and analytics, are compared with the account (`FillFolds`, `Analytics`, `Agreement`), and so is reconciliation
  (`Reconciliation`).
- **The supervisor.** Two worker threads with bounded restarts, a shared stop flag and the joining main thread
  as interleaved steps (`Supervisor`, `SupervisorRuns`), the thread body as written (`SupervisorThread`), the
  heartbeat monitor (`Heartbeat`), and what the dashboard reads back from the event log.
- **The control plane.** Mode and lock requests split into their reads and writes (`Gate`, `ControlPlane`).
- **Indicators and features** (`Indicators`, `FeatureBuilder`).
- **Order submission.** Decimal quantization, exchange filters, idempotent placement over a lossy network and
  alert deduplication (`Decimals`, `BinanceOrderFilters`, `LiveExecutor`, `Dedup`).

`dafny verify dfyconfig.toml` checks the whole project.

How the program is represented:

- Amounts are exact `real` numbers; the order filters alone use coefficient and exponent, because there
  `quantize` works on exponents. Times are integers, in seconds, and a day is 86400 of them.
- The database is one append-only sequence of rows; an event id is the position of the row among the events.
  Any write or query of a run may fail, handlers and notifier included: the store keeps the writes made so far, and
  the exception goes where the program lets it go. Between runs any rows of the runner may be written.
- What the program reads from outside (candles, mode, lock, candidate, AI score, network outcomes, crash points,
  thread schedule) is arbitrary.
- The procedures that change state are methods proved against functions; the laws are lemmas about those
  functions. Concurrent parts are step machines over which an adversary picks every step.

Where the code and its documentation or comments differ, the model follows the code:

- `trading/execution/live_executor.py:346-347` calls 429 and 5xx retriable; the code accepts every status from
  429 up.
- `trading/dashboard_api/routes_analytics.py:97` says the account cannot apply SELL fills; it can, and the loop
  below that comment does not shrink the cost basis on a SELL (`FillFolds.PartialSaleDiverges`).
- `trading/features/indicators.py:38-39` announces the first RSI after twice the period; it comes after one.
- `trading/execution/binance_filters.py:84-92` floors to the step size; it floors to the step's last decimal
  place, which is the same only for a step written as a bare power of ten (`Decimals.MultipleIff`).
- `trading/risk/pre_flight.py:154-167` and `trading/runtime/mode.py:57-72` ask for opposite lock states, so the
  change they guard never happens (`ControlPlane.NeverLiveSmallAuto`).
- `trading/execution/live_executor.py:80` says a retry with the same id is safe. It never creates a second order,
  but a result that must not be retried can be untrue: exactly when the order was there before or the POST got
  through (`LiveExecution.FinalFailureTrueIff`), as after a refused retry, an unreadable answer or an error status
  on the way back.
- `trading/portfolio/accounting.py:82-86` gives no sale a share of negative entry fees, so the sale that closes
  such a position loses them; no fill of this program has a negative fee (`Ledger.BalancesIff`).

## Model

| member | source | states |
|---|---|---|
| Accounting.PortfolioAccount.ApplyBuyFill | trading/portfolio/accounting.py:23-49 | a BUY debits cost and fee and re-averages the position exactly as the book function says; what is already changed when it raises is stated too |
| Accounting.PortfolioAccount.ApplySellFill | trading/portfolio/accounting.py:51-105 | a SELL either raises one of four errors and changes nothing, or pays out, realizes the profit it returns and shrinks or removes the position |
| Accounting.PortfolioAccount.TotalEquity | trading/portfolio/accounting.py:111-116 | cash plus every position at its market price, or at its average price when none is known, in any order of the positions |
| Accounting.PortfolioAccount.UnrealizedPnl | trading/portfolio/accounting.py:118-123 | the sum of the gains of all positions over their average prices, in any order |
| Accounting.Rebuild | trading/runtime/runner.py:84-102 | the replay loop raises exactly when the log is not accepted, with that error, and otherwise ends in the replayed book |
| Accounting.ErrorPersists | trading/runtime/runner.py:86-102 | an error in a prefix of the log is the error of the whole log |
| Ledger.RefusedIff | trading/portfolio/accounting.py:23-76 | a fill is refused exactly for: an invalid first BUY, a BUY that cancels the open quantity, a SELL of nothing held, of a quantity that is not positive, or of more than is held |
| Ledger.UnpricedAtAverage | trading/portfolio/accounting.py:111-123 | a position without a market price counts, in equity and in unrealized profit, as if its average were the price |
| Ledger.AllUnpriced | trading/portfolio/accounting.py:111-123 | with no open symbol priced equity is cash plus cost and nothing is unrealized |
| Ledger.PriceMoves | trading/portfolio/accounting.py:111-123 | raising the price of one symbol raises equity and unrealized profit by the held quantity times the difference, and by nothing if it is not held |
| Ledger.SplitSale | trading/portfolio/accounting.py:78-98 | selling in two parts at one price realizes what one sale of both realizes |
| Ledger.FeesPerUnit | trading/portfolio/accounting.py:82-98 | a partial sale leaves the average and the positive entry fees per unit as they were |
| Ledger.OpenedAt | trading/portfolio/accounting.py:37-49 | on every accepted log an open position carries the time of the BUY that opened it and no stop |
| Ledger.Conservation | trading/portfolio/accounting.py:29-105 | for every accepted log, whatever its fees: cash + cost of the open positions + their open fees = initial cash + realized profit + the negative entry fees that closing sales lost |
| Ledger.BalancesIff | trading/portfolio/accounting.py:82-98 | the books balance without that last term exactly when no sale closes a position whose entry fees sum to less than zero |
| Ledger.NothingDropped | trading/portfolio/accounting.py:41-49 | fills without negative fees lose none, and all open fees stay non-negative |
| Ledger.NegativeFeeVanishes | trading/portfolio/accounting.py:82-98 | three accepted fills at one price with fees 1, -2 and 0: cash ends one above the start, realized profit is zero and nothing is held |
| Ledger.EquityDecomposition | trading/portfolio/accounting.py:111-123 | for every accepted log and price map: equity = initial cash + realized + unrealized - open fees + lost fees |
| Ledger.FeeShareBounds | trading/portfolio/accounting.py:82-86 | of positive entry fees a sale realizes a share between none and all, and all exactly when it closes the position; of others it realizes none |
| Ledger.ClosePnl | trading/portfolio/accounting.py:78-87 | closing a position realizes proceeds less its whole cost and the fees of both sides, entry fees below zero counting as nothing |
| Ledger.QuantitiesPositive | trading/portfolio/accounting.py:47-98 | if every BUY is positive, every open quantity of an accepted log is positive |
| Ledger.AverageWithinBuys | trading/portfolio/accounting.py:44-48 | without negative BUY quantities the average price lies between the lowest and the highest BUY price since the position was last flat, across partial sales |
| PaperExecution.BuyFill | trading/execution/paper_executor.py:78-102 | a paper BUY is well formed, costs exactly the approved notional fee included, fills no lower than the market and is worth no more than the notional there |
| PaperExecution.SellFill | trading/execution/paper_executor.py:112-152 | a paper SELL of a positive quantity fills it whole, between nothing and the market price, with a fee below the proceeds |
| PaperExecution.SlippedPrices | trading/execution/paper_executor.py:46-53 | SELL price, market price and BUY price are ordered |
| PaperExecution.BuyCostsNotional | trading/execution/paper_executor.py:78-80 | applied to any book with positive quantities, a paper BUY is accepted and lowers cash by exactly the notional |
| PaperExecution.RoundTrip | trading/execution/paper_executor.py:46-152 | from flat, buying N and selling it all at the same market price realizes N * ((1-f)(1-f)(1-s)/(1+s) - 1), which is never positive |
| PaperExecution.LossBound | trading/execution/paper_executor.py:78-80 | at any fill price of at least (1 - fee) * entry, quantity * (entry - stop) stays within multiplier * max loss; where the symbol cap does not bind, a lower fill price always breaks it |
| PaperExecution.BuyInBps | trading/execution/paper_executor.py:62-104 | a BUY fills exactly if its size is approved and the price positive, else with the reason; price, fee and quantity in basis points of slippage and fee |
| PaperExecution.SellInBps | trading/execution/paper_executor.py:112-152 | a SELL fills exactly if quantity and price are positive, else with the reason; price and fee in basis points |
| PaperExecution.RoundTripInBps | trading/execution/paper_executor.py:46-152 | the factor of the round trip in basis points: the fee twice, and slippage down on one side over slippage up on the other |
| Risk.SizeBounds | trading/risk/position_sizing.py:32-64 | an approved notional lies between the minimum notional and the symbol cap and risks no more than the allowed loss, exactly the allowed loss when the cap does not bind |
| Risk.LossWithinHardCap | trading/risk/position_sizing.py:41-47 | the allowed loss exceeds neither the target nor the hard-cap percentage of equity |
| Risk.MaxLossIs | trading/risk/position_sizing.py:41-47 | the allowed loss is the smaller of the target and the hard-cap percentage of equity, and the cap is the symbol percentage |
| Risk.SizesIff | trading/risk/position_sizing.py:32-64 | for an approved snapshot a size is approved exactly if the stop is below the entry and both the symbol cap and the notional that loses the allowed share at the stop reach the minimum |
| Risk.EvaluatePreTradeRisk | trading/risk/pre_trade.py:38-115 | the check-by-check procedure returns the specified decision, every reason in order |
| Risk.ApprovedIff | trading/risk/pre_trade.py:40-108 | approval holds exactly when the switch is off, data is fresh, the daily loss is below the no-new-positions threshold and every limit is unmet; it gives the multiplier |
| Risk.LimitReasonsIff | trading/risk/pre_trade.py:72-100 | each of the five limits is named in the reasons exactly if it is met, and nothing else is |
| Risk.RefusalIs | trading/risk/pre_trade.py:40-115 | the decision check by check: switch, stale data, the loss of the day, and then the limits met; it raises exactly for an opening equity that is not positive |
| Risk.MultiplierRange | trading/risk/pre_trade.py:102-115 | a rejected multiplier is 0, an approved one is one half from the caution threshold on and 1 below it |
| Risk.DailyLossThresholds | trading/risk/state.py:20-53 | the most severe threshold the loss has reached decides the risk state |
| Risk.TiersPartition | trading/risk/profiles.py:60-74 | the built-in tiers partition the non-negative equities, so the fallback is never used |
| Risk.BuiltInProfile | trading/risk/profiles.py:22-74 | the profile of every non-negative equity, number by number |
| Risk.SelectedProfile | trading/risk/profiles.py:60-74 | of any list the first profile whose range contains the equity, the last one if none does, and two errors |
| Exits.ExitEngine.Evaluate | trading/strategies/exits.py:160-199 | building the rule list and looping to the first signal gives the specified decision |
| Exits.FullExit | trading/strategies/exits.py:187-197 | whatever rule fires, the signal is for the whole position |
| Exits.Priority | trading/strategies/exits.py:94-199 | the stop of the position or else the default one, then average * (1 + take profit / 100), then the hours held: the first that is due gives reason and exit price, and there is no signal exactly when none is due |
| PaperCycle.RunPaperCycle | trading/runtime/paper_cycle.py:284-1001 | the staged procedure on a store that may fail at any write carries out exactly the specified plan up to the fault, with the specified result and event ids |
| PaperCycle.RunExitScan | trading/runtime/paper_cycle.py:155-278 | the exit scan writes what its plan says, up to a fault |
| PaperCycle.RunGate | trading/runtime/paper_cycle.py:741-897 | the gate stage blocks, records a shadow execution or goes on to the paper BUY as its plan says |
| PaperCycle.RunBuy | trading/runtime/paper_cycle.py:899-1001 | the execution stage persists the fill and the two events, or only the failure, as its plan says |
| TradingLog.TradingStore.RecordAll | trading/storage/repositories.py:34-52 | writes commit in order until one fails, and the collected ids are those of the tracked events |
| TradingLog.TrackedIncrease | trading/runtime/paper_cycle.py:315-340 | collected event ids are strictly increasing and belong to rows these writes added |
| TradingLog.CountedIff | trading/storage/repositories.py:34-52 | every row takes an event id except those of the two execution tables |
| CycleTrace.CycleTrail | trading/runtime/paper_cycle.py:324-1001 | every cycle logs one cycle_started first and one cycle_finished last with the status of its result (none if the risk checks raise), and stages never go back in pipeline order |
| CycleTrace.EventIdsOfCycle | trading/runtime/paper_cycle.py:315-1001 | the returned ids increase strictly, are ids of this cycle, start with cycle_started and end with cycle_finished |
| CycleTrace.CycleFills | trading/runtime/paper_cycle.py:244-1001 | exactly one fill is persisted if the result reports an executed order or exit, none otherwise, and never both |
| CycleTrace.ExitSellFacts | trading/runtime/paper_cycle.py:172-248 | a persisted SELL sells the whole position the cycle was shown, at a positive price |
| CycleTrace.EntryBuyFacts | trading/runtime/paper_cycle.py:498-913 | a persisted BUY was neither rejected by the AI nor scored below 50, passed pre-trade, sizing and gate of the same cycle in paper_auto, and costs between the minimum notional and the symbol cap |
| CycleTrace.EntryBuyIff | trading/runtime/paper_cycle.py:498-913 | a BUY is persisted exactly when there is a candidate whose hint is not reject and whose score is at least 50, the snapshot keeps every limit, the size reaches the minimum, the mode is paper_auto and the price positive |
| CycleTable.CycleIs | trading/runtime/paper_cycle.py:315-1001 | for every cycle the status it ends with, or that it raises, and the kinds of all its rows in order, as a table over candidate, AI hint and score, snapshot, size, mode, lock and price |
| CycleTable.AiRejectsIff | trading/runtime/paper_cycle.py:497-545 | a cycle ends ai_rejected exactly if it has not sold, there is a candidate, and the hint is reject or the score below 50 |
| CycleTable.CycleTells | trading/runtime/paper_cycle.py:315-1001 | result and last row of every cycle, case by case: flags, risk state, reject reasons, stage, side and reason |
| CycleTable.ExitSellIff | trading/runtime/paper_cycle.py:172-248 | a cycle sells exactly if stop, target or clock is due on an open, priced position and the price is positive |
| CycleTable.EntryBuyCosts | trading/runtime/paper_cycle.py:668-913 | a persisted BUY costs, fee included, the notional that loses the allowed loss at the stop or the symbol cap, whichever is less, at the market price and its slippage |
| CycleTable.CycleShadows | trading/runtime/paper_cycle.py:820-868 | a cycle records one shadow execution exactly if it ends so, of the notional of its size, at the market price and the slipped one; otherwise none |
| CycleTable.CycleIds | trading/runtime/paper_cycle.py:315-1001 | an id is returned exactly if its row starts or finishes the cycle, signals, executes or records a shadow execution |
| CycleWords.CycleWorded | trading/runtime/paper_cycle.py:155-970 | every row of every cycle has the stage, side and reason that its kind, the approvals and the exit rules call for |
| Runner.RunOnce | trading/runtime/runner.py:203-305 | one run: loop_started, replay, one snapshot, one guarded cycle per symbol, loop_finished; any of them may raise, and the log, the result of every cycle and the exception let out are exactly the specified ones |
| Runner.RunGuarded | trading/runtime/runner.py:243-295 | a cycle that raises leaves a prefix of its writes and a cycle_error row and becomes an error result; the run ends only where that row or the notifier raises too |
| RunReport.UnreportedIff | trading/runtime/runner.py:243-295 | a persisted fill is reported exactly if both rows after it got through too; with one of them lost the trade stays in the log and the run reports an error |
| RunReport.ReportedIsPersisted | trading/runtime/runner.py:243-295 | a reported order or exit is in the log |
| RunReport.RunRaisesIff | trading/runtime/runner.py:203-305 | a run does not raise exactly if it comes to its cycles, none escapes and its last row is written |
| Runner.BuildInputs | trading/runtime/runner.py:73-200 | all snapshot fields as computed from the log, the account and the latest candles: floored equity, percentages, orders of the day and per symbol among the last thousand, loss streak, freshness, baseline |
| Runner.CountLosses | trading/runtime/runner.py:157-168 | the backward loop counts the specified streak |
| Runner.StreakSeesOpenOnly | trading/runtime/runner.py:152-168 | dropping the fills of closed symbols never changes the streak |
| Runner.StreakPositiveIff | trading/runtime/runner.py:152-168 | the streak is positive exactly when the newest fill of an open symbol is of one below its average price |
| RunSnapshot.StreakIs | trading/runtime/runner.py:157-168 | the streak is n exactly if the last n fills of open symbols, and no more, are of symbols priced below their average |
| RunSnapshot.FreshIff | trading/runtime/runner.py:114-121 | the data is fresh exactly if the last candle of the first quoted symbol is younger than 1800 s |
| RunSnapshot.BuyOfRun | trading/runtime/runner.py:104-200 | a run that adds a BUY saw fewer than four losing fills in a row among the last ten and a fresh first symbol, and the cycle of the BUY passed the AI in paper_auto |
| RunSnapshot.PriceIs | trading/runtime/runner.py:104-111 | the price of a symbol is the close of its last candle |
| RunSnapshot.NewestThousand | trading/runtime/runner.py:141-146 | the counters look at the newest thousand orders, or at all of them if there are fewer |
| RunSnapshot.EquityFloor | trading/runtime/runner.py:132-133 | the equity of the snapshot is that of the account, or the initial cash if that is more |
| RunSnapshot.PercentagesIn | trading/runtime/runner.py:135-139 | both percentages are of that equity, the switch is off and every open symbol counts |
| RunSnapshot.DayStartIs | trading/runtime/runner.py:52-63 | the newest baseline row counts if it is of today, and nothing is added |
| RunSnapshot.NewBaseline | trading/runtime/runner.py:64-70 | otherwise the baseline is the equity now but not below zero, in a row of today |
| Runner.GetOrCreateDayBaseline | trading/runtime/runner.py:40-70 | the baseline of today is reused, or written from the current equity unless the write fails |
| RunReport.FaultTells | trading/runtime/runner.py:203-305 | the exception a run lets out: of a query, of the replay with its error, of an escaping cycle, or else of a row that could not be written |
| Runner.RunLoop | trading/runtime/runner.py:308-453 | interval check, runner_started, iterations up to max_cycles or the stop event with a crash row for each run that raises, runner_stopped; either runner row and every handler may fail, and in each case the steps taken and the count or exception are stated |
| RunReport.LoopRuns | trading/runtime/runner.py:344-440 | the loop runs the runs of its iterations, each once and in order |
| RunReport.LastRowTells | trading/runtime/runner.py:344-440 | an iteration ends the loop exactly if its run raises and its handler too; after any other the last row says whether the run raised |
| ClosedLoop.ReplaySafety | trading/runtime/runner.py:85-102 | after any runs over distinct symbols from an empty log, raising anywhere, replaying the chronological fills never raises, every SELL closes its position exactly and all quantities are positive |
| ClosedLoop.ReplaySafeIff | trading/runtime/runner.py:85-102 | over any lists of symbols the log is healthy and replays if and only if no run has sold one position twice; otherwise every replay raises |
| ClosedLoop.RunSafeIff | trading/runtime/runner.py:172-255 | one run on a healthy log, wherever it raises, keeps it healthy if and only if it does not reach two cycles of one symbol with an exit due that both get their sale into the log |
| ClosedLoop.RowsKinds | trading/runtime/paper_cycle.py:155-278 | with an exit due a cycle persists that sale exactly if its first three writes get through, and otherwise at most its BUY |
| DoubleSales.DoubleSaleJams | trading/runtime/runner.py:84-102 | from a run that sells one position twice on, no run trades again and every replay raises, whatever follows |
| DoubleSales.ListedTwice | trading/runtime/cli.py:70-77 | cash 500, one unit of A bought at 100, target 5%, A at 200: a run over A listed twice sells the unit twice and jams every later run |
| ClosedLoop.RunKeepsHealth | trading/runtime/runner.py:243-295 | one run on a healthy log leaves a healthy log: all its symbols share one snapshot, so each may only close or extend its own position |
| ClosedLoop.HealthyBook | trading/storage/repositories.py:208-210 | on a healthy log the order by filled_at and id is the stored order |
| LoopBounds.NoGrowth | trading/runtime/paper_cycle.py:741-913 | over any stretch of runs in which no cycle reads paper_auto, no replayed quantity ever grows |
| LoopBounds.ExitsIgnoreMode | trading/runtime/paper_cycle.py:244-278 | a due exit is persisted in every mode, paused included |
| LoopBounds.ExposureBound | trading/runtime/runner.py:123-139 | a run over k symbols that buys anything ends with open value below (max_total% + k * max_symbol%) of the snapshot equity, and the bought symbol below twice its cap |
| LoopBounds.BuyNeedsRoom | trading/risk/pre_trade.py:75-87 | a BUY is planned only while total, symbol and both daily counts are below their limits in the snapshot, and is worth at most the cap |
| LoopBounds.RunFillsPlanned | trading/runtime/runner.py:243-255 | every fill a run adds is the planned fill of one of its cycles, and the only one of its symbol in the run |
| DailyBaseline.SameDayBaseline | trading/runtime/runner.py:52-70 | all runs of a day that reach their cycles share one baseline, whatever raises or trades in between |
| DailyBaseline.DailyLossStop | trading/risk/state.py:31-39 | a BUY in any run of a day means the equity it was sized on had not lost the no-new-positions percentage of the first baseline of that day |
| DailyLimits.CountersExact | trading/runtime/runner.py:141-150 | on a healthy log with fewer than a thousand orders of the day, the two counters are the numbers of fills of the day and of the symbol on it |
| DailyLimits.BuyWithinLimits | trading/risk/pre_trade.py:82-87 | in every reachable log a BUY is preceded by fewer than 4 orders of its symbol from its day, and by fewer than 15 plus the other symbols of a run in all |
| DailyLimits.BuysOfADay | trading/risk/pre_trade.py:82-87 | in every reachable log at most 4 BUYs of one symbol fall on one day, and at most 14 plus the number of symbols in all |
| FillFolds.ReadLocal | trading/dashboard_api/routes_runtime.py:193-237 | the status loop computes the runtime fold on every log without raising |
| FillFolds.RuntimeAgrees | trading/dashboard_api/routes_runtime.py:197-232 | on every accepted log the runtime fold has the cash, quantities and averages of the account |
| FillFolds.AcceptedNeverRaises | trading/dashboard_api/routes_analytics.py:103-125 | on every accepted log analytics does not raise and has the cash, open symbols and quantities of the account |
| FillFolds.PositiveNeverRaises | trading/dashboard_api/routes_analytics.py:107-112 | a log of positive quantities never makes the analytics average divide by zero |
| FillFolds.AnalyticsExact | trading/dashboard_api/routes_analytics.py:103-125 | on every accepted log of positive fills analytics has the quantity of an open symbol, and its average if and only if the symbol was not bought again after a partial sale; otherwise a higher one |
| FillFolds.PartialSaleDiverges | trading/dashboard_api/routes_analytics.py:107-125 | buy 2 at 100, sell 1, buy 1 at 100: the account averages 100, analytics 150 |
| FoldLaws.FoldsAgree | trading/dashboard_api/routes_runtime.py:193-237 | on every log, refused fills included, both endpoints show one cash, the same open symbols and the same quantities, unless analytics raises |
| FoldLaws.RuntimeCash | trading/dashboard_api/routes_runtime.py:197-218 | on every log the balance is the initial cash and the cash of all fills |
| FoldLaws.AnalyticsRaisesIff | trading/dashboard_api/routes_analytics.py:103-112 | analytics raises exactly if some BUY brings an open quantity to zero |
| FoldLaws.RuntimeAverage | trading/dashboard_api/routes_runtime.py:205-214 | a BUY adds its gross to average times quantity; with nothing left the average is the price of the fill |
| FoldLaws.AnalyticsAverage | trading/dashboard_api/routes_analytics.py:103-118 | a BUY adds its gross to the stored cost, whatever has been sold since, and the average is cost over quantity |
| Analytics.ReadAnalyticsSummary | trading/dashboard_api/routes_analytics.py:81-228 | on every log: it raises exactly for negative initial cash or a BUY that brings a lot to quantity zero, and otherwise the grouping, nested loops, day-start fold and 30-day window report what the fold over all fills up to each day gives |
| Analytics.GroupByDay | trading/dashboard_api/routes_analytics.py:89-94 | each group holds the fills of its day in order, and the keys are the days first seen |
| Analytics.RunDay | trading/dashboard_api/routes_analytics.py:103-127 | one day of the nested loop: after it the state is the fold over all fills up to that day, and its equity is the snapshot |
| Analytics.FindDayStart | trading/dashboard_api/routes_analytics.py:132-164 | equity before today if today has fills, else the initial cash; after a first pass that did not raise, this one does not either |
| Analytics.DailyHistory | trading/dashboard_api/routes_analytics.py:216-227 | the last thirty differences of consecutive day-end equities, the first one from the initial cash |
| Analytics.HistoryTelescopes | trading/dashboard_api/routes_analytics.py:216-227 | the displayed daily profits add up to current equity less initial cash on every log, however many days are cut off |
| Analytics.ShownDifferences | trading/dashboard_api/routes_analytics.py:216-227 | each profit shown is the difference of two snapshots shown, the first from the initial cash |
| Analytics.SnapshotIs | trading/dashboard_api/routes_analytics.py:103-130 | the snapshot of a day is the current equity of the log cut off after the last fill of the day |
| Analytics.ThirtyDays | trading/dashboard_api/routes_analytics.py:206-227 | snapshots and history show the last thirty days with fills |
| Analytics.DailyPercent | trading/dashboard_api/routes_analytics.py:164-172 | the profit of the day in percent of what the day started with, zero if that is not positive |
| Analytics.EachLotCounts | trading/dashboard_api/routes_analytics.py:119-130 | analytics equity is the cash and each open lot at its average price |
| Analytics.TodayIsLastEntry | trading/dashboard_api/routes_analytics.py:132-227 | on a day with fills the reported daily profit is the last history entry |
| Analytics.QuietDayShowsEverything | trading/dashboard_api/routes_analytics.py:132-166 | on a day without fills the reported daily profit is the whole profit since the start |
| Agreement.AnalyticsEquityExact | trading/dashboard_api/routes_analytics.py:119-130 | analytics equity is at least initial cash + realized - open fees + lost fees, and equal to it exactly when no open symbol was bought again after a partial sale |
| Agreement.NeverReduced | trading/runtime/paper_cycle.py:172-248 | the loop never leaves a position partly sold |
| Agreement.ReachableThreeWay | trading/dashboard_api/routes_analytics.py:103-130 | after any runs that sell nothing twice the runtime and analytics folds show the cash, symbols, quantities and averages of the replayed account, and analytics equity is initial + realized - open fees |
| Reconciliation.RunReconciliation | trading/runtime/reconciliation.py:132-208 | both set loops, in any order, find exactly the keys out of tolerance, their largest difference and their number, and the status follows |
| Reconciliation.CompareBalances | trading/runtime/reconciliation.py:147-158 | mismatch and largest difference over the assets out of tolerance |
| Reconciliation.ComparePositions | trading/runtime/reconciliation.py:167-178 | the number of symbols out of tolerance |
| Reconciliation.UniqueAndSymmetric | trading/runtime/reconciliation.py:147-201 | the result does not depend on the visiting order, and swapping the two sides changes nothing |
| Reconciliation.UsdtDecides | trading/runtime/reconciliation.py:73-78 | only the USDT totals can cause a balance mismatch |
| Reconciliation.OkIff | trading/runtime/reconciliation.py:181-201 | the status is ok exactly when USDT totals and all quantities are within tolerance and the critical count is positive |
| Reconciliation.StatusIff | trading/runtime/reconciliation.py:180-201 | every status in terms of the USDT difference, the number of symbols out of tolerance and the two critical limits |
| Reconciliation.DefaultPause | trading/runtime/reconciliation.py:180-201 | with the default thresholds a pause is recommended exactly for more than 10 USDT or from three symbols on |
| Reconciliation.LedgerReconciles | trading/dashboard_api/routes_runtime.py:193-243 | on every accepted log, reconciling the account with the runtime fold is ok with no difference |
| Supervisor.StepSound | trading/runtime/supervisor.py:352-422 | every worker step keeps the relation between restart count, calls, retry flags and exhaustion, despite the reset of the count |
| Supervisor.StepLogs | trading/runtime/supervisor.py:375-419 | every worker step keeps the restart log equal to what its position in the protocol determines |
| Supervisor.StepRanks | trading/runtime/supervisor.py:352-422 | every step of a live worker lowers a rank bounded by 5 * limit + 7 |
| SupervisorThread.WorkerTarget | trading/runtime/supervisor.py:352-422 | the thread body as written, with k crashes in a row: min(k, limit) + 1 calls, the exact log, flags and stop event; and it is a run of the step machine |
| SupervisorThread.HandleCrash | trading/runtime/supervisor.py:383-422 | the except block restarts with one or two attempted events, or records exhaustion, the exception, stop and the component error |
| SupervisorRuns.AlwaysReachable | trading/runtime/supervisor.py:352-612 | the invariant of workers, main thread, stop flag and log holds under every interleaving and crash pattern |
| SupervisorRuns.CallsBounded | trading/runtime/supervisor.py:336-422 | each worker calls its loop at most max_restarts + 1 times, and its loop condition never ends it, even after stop is set |
| SupervisorRuns.RestartLog | trading/runtime/supervisor.py:375-419 | at every moment the restart events of a component are attempts 1 to k with k at most max_restarts, then possibly half a doubled attempt, one success (k) or one exhaustion (max_restarts) |
| SupervisorRuns.AttemptsInOrder | trading/runtime/supervisor.py:391-407 | attempts are numbered 1 to n in order, each doubled exactly when the cooldown is positive |
| SupervisorRuns.FinishedWorker | trading/runtime/supervisor.py:383-422 | a dead worker failed exactly when it used up its restarts, and its last restart event says so; otherwise it logs a success exactly when it was restarted |
| SupervisorRuns.ExitFaithful | trading/runtime/supervisor.py:569-612 | the supervisor leaves only after both workers are dead; without an interrupt it returns exactly when neither failed and raises what failed; supervisor_stopped is logged exactly when it returns |
| SupervisorRuns.StopHasACause | trading/runtime/supervisor.py:411-422 | stop is set only after an interrupt or an exhausted component |
| SupervisorRuns.WorkersEnd | trading/runtime/supervisor.py:352-498 | a started worker is dead after 5 * limit + 7 of its own steps under every schedule |
| SupervisorRuns.MainLeaves | trading/runtime/supervisor.py:569-612 | once both workers are dead the main thread leaves within eight of its steps |
| SupervisorRuns.ReadExhausted | trading/dashboard_api/routes_runtime.py:318-359 | the newest-first loop finds the newest success or exhaustion of each component |
| SupervisorRuns.FlagExact | trading/dashboard_api/routes_runtime.py:345-359 | in every reachable state the dashboard flag is the exhaustion of the worker once it has logged an outcome, and the flag of the earlier log until then |
| SupervisorRuns.FlagTruthfulIff | trading/dashboard_api/routes_runtime.py:345-359 | the flag implies exhaustion and equals it outside the logging step in all runs if and only if the earlier log does not already show the component as exhausted |
| Heartbeat.HeartbeatMonitor.CheckHeartbeatStale | trading/runtime/supervisor.py:148-191 | one check updates the flag, the last confirmed beat and the log as specified |
| Heartbeat.StepAlerts | trading/runtime/supervisor.py:172-189 | heartbeat_lost is logged exactly when the flag rises, and then the beat is over 120 s old; heartbeat_recovered exactly when it falls on a beat at most 60 s old |
| Heartbeat.CheckTimes | trading/runtime/supervisor.py:148-191 | when the flag rises, falls, and falls silently, in seconds since the last beat |
| Heartbeat.RecoveriesSeparated | trading/runtime/supervisor.py:172-189 | in every run a lost event lies between any two recovered ones, and none is recovered first |
| Heartbeat.ReadStaleAlerting | trading/dashboard_api/routes_runtime.py:290-316 | the newest-first loop computes the latest lost and recovered times and their comparison |
| Heartbeat.AlertingIff | trading/dashboard_api/routes_runtime.py:290-316 | the dashboard shows an alert exactly if some lost event is younger than every recovered one, in any order of the log |
| Heartbeat.AlertedIsShown | trading/dashboard_api/routes_runtime.py:308-316 | whenever the monitor is alerted the dashboard shows it |
| Heartbeat.FlagsEqualIff | trading/dashboard_api/routes_runtime.py:308-316 | the two flags are equal throughout a run if and only if the earlier log shows no alert and every clearing check sees a beat at most 60 s old |
| Heartbeat.SilentRecoverySticks | trading/runtime/supervisor.py:176-183 | after a silent recovery the dashboard keeps showing the alert as long as beats stay fresh |
| Heartbeat.SilentRecoveryHappens | trading/runtime/supervisor.py:176-183 | beat 0, check 121, beat 130, check 200 is such a recovery |
| Gate.GateRoutes | trading/execution/gate.py:60-125 | the gate takes the route of the mode or a block, allows exactly the unblocked ones, and needs paper_auto and risk approval for paper, live_shadow and an open lock for shadow |
| Gate.GateSays | trading/execution/gate.py:60-125 | the reason of every decision: the switch, the lock with its own reason, then the mode |
| Gate.BlockIs | trading/risk/pre_flight.py:55-252 | the block of the pre-flight over its inputs, in the order of the checks |
| Gate.TransitionIff | trading/runtime/mode.py:40-75 | the guard stops exactly the ways into live_small_auto, except from live_shadow with unlock and lock on |
| Gate.RunPreFlight | trading/risk/pre_flight.py:212-252 | all checks run, the first failure names the block, and the suite passes exactly when every condition holds |
| Gate.GuardsContradict | trading/runtime/mode.py:57-72 | over one lock snapshot no change into live_small_auto passes both the transition guard and the pre-flight |
| ControlPlane.ControlStore.SetMode | trading/dashboard_api/routes_runtime.py:633-789 | a mode request handled without interruption is its step machine run alone, response included |
| ControlPlane.ControlStore.SetLiveLock | trading/dashboard_api/routes_runtime.py:902-927 | a lock request handled without interruption is its step machine run alone, response included |
| ControlPlane.CommitIff | trading/dashboard_api/routes_runtime.py:637-755 | a request writes the mode if and only if it asks for another mode than the current one and than live_small_auto and is not a dry run |
| ControlPlane.RefuseIff | trading/dashboard_api/routes_runtime.py:659-732 | preflight_blocked is logged, dry run or not, exactly for unlocked requests from live_shadow with the lock on and all inputs available; the risk state is never the reason |
| ControlPlane.NeverLiveSmallAuto | trading/dashboard_api/routes_runtime.py:633-773 | from any other mode, no interleaving of requests with any flags and aborts ever makes the mode live_small_auto, and no event, response or decision mentions it |
| ControlPlane.DecisionsOverRun | trading/execution/gate.py:60-125 | every gate decision of such a run, with the mode read earlier than the lock, is paper in paper_auto, shadow in live_shadow or a block |
| ControlPlane.AloneEffect | trading/dashboard_api/routes_runtime.py:633-789 | an uninterrupted request leaves the mode it asked for or the old one, and logs exactly when it commits or is refused |
| ControlPlane.AbortedRequest | trading/dashboard_api/routes_runtime.py:633-795 | a mode request aborted after n of its steps, for every request and n: the mode is changed exactly if the request may commit and n >= 5, the log has grown exactly if its log step ran, and the answer is the failure exactly before the last step |
| ControlPlane.UnsuccessfulIff | trading/dashboard_api/routes_runtime.py:754-795 | an answer without success leaves the mode alone exactly if it is not the failure of a committed change hit between its write and its answer |
| ControlPlane.AbortedLockRequest | trading/dashboard_api/routes_runtime.py:902-933 | a lock request aborted after n steps: lock, log and answer for every n; from its write to its answer the failure reports the lock as off whatever was written |
| ControlPlane.FailedHasWrittenIff | trading/dashboard_api/routes_runtime.py:754-795 | in every interleaving a request that answers with the failure was hit by an exception, and has written exactly if that was between its write and its answer |
| ControlPlane.FailedButChanged | trading/dashboard_api/routes_runtime.py:754-795 | paused to paper_auto, failing after the write: the answer is a failure, the mode is changed and nothing is logged |
| Indicators.EmaSeries | trading/features/indicators.py:10-32 | entry i is the EMA of the values up to i alone, None before the period; a period below 1 is an error |
| Indicators.RsiSeries | trading/features/indicators.py:41-87 | entry i is the RSI of the values up to i alone, None up to the period |
| Indicators.AtrSeries | trading/features/indicators.py:115-143 | entry i is the ATR of the candles up to i alone; bad period and unequal lengths are errors |
| Indicators.SplitChanges | trading/features/indicators.py:53-60 | gains and losses of every change |
| Indicators.EmaWithin | trading/features/indicators.py:25-30 | the EMA lies within all bounds of the values seen |
| Indicators.EmaSteps | trading/features/indicators.py:21-30 | the first EMA is the mean of the first values; every later value pulls it by 2 / (period + 1) of the distance |
| Indicators.WilderSteps | trading/features/indicators.py:63-85 | the first smoothed average is the mean; every later value pulls it by 1 / period of the distance |
| Indicators.RsiRising | trading/features/indicators.py:53-85 | RSI is 100 when no value falls |
| Indicators.RsiFalling | trading/features/indicators.py:53-85 | RSI is 0 when none rises and some smoothed loss is left |
| Indicators.TrueRangeIs | trading/features/indicators.py:130-137 | the true range is the candle stretched to the previous close |
| Indicators.EmaAffine | trading/features/indicators.py:25-30 | the EMA of a*x + b is a * EMA + b |
| Indicators.RsiRange | trading/features/indicators.py:69-85 | RSI lies between 0 and 100 |
| Indicators.RsiMirrors | trading/features/indicators.py:69-85 | RSI(c - x) = 100 - RSI(x) exactly where average gain and average loss are not both zero |
| Indicators.StrengthFraction | trading/features/indicators.py:73-74 | 100 - 100 / (1 + gain / loss) is the share of the gain in all movement |
| Indicators.AtrWithin | trading/features/indicators.py:130-141 | the ATR lies within all bounds of the true ranges seen |
| FeatureBuilder.BuildFeatures | trading/features/builder.py:27-58 | each row is computed from its candle and the earlier ones only |
| FeatureBuilder.OrderIrrelevant | trading/features/builder.py:28-28 | as long as candles of equal open time are equal, the result does not depend on the input order |
| FeatureBuilder.NoLookAhead | trading/features/builder.py:27-70 | the rows up to time t are the rows of the candles up to t alone, in any input order and with ties |
| FeatureBuilder.TiesShowOrder | trading/features/builder.py:28-28 | with equal open times the input order shows |
| FeatureBuilder.RowsHideOrderIff | trading/features/builder.py:27-58 | if no input order shows in the rows, candles of one open time agree in symbol, timeframe and close; on fewer than fourteen candles exactly then |
| FeatureBuilder.FeaturesMirror | trading/features/builder.py:27-84 | in the market upside down (x becomes c - x) every average flips, the trend is opposite, RSI is 100 less the old one exactly where prices moved, and range and volume features stay |
| FeatureBuilder.TrendIs | trading/features/builder.py:73-84 | Unknown below 26 candles; Up exactly if close and EMA 12 are above EMA 26, Down exactly if both are below |
| FeatureBuilder.StepDecidesTrend | trading/features/builder.py:27-84 | after 26 or more closes at one value the next close decides: Up above it, Down below it, Neutral at it |
| FeatureBuilder.NextCandle | trading/features/builder.py:27-58 | one more candle moves each average that is there: its close pulls the EMAs by 2/13, 2/27 and 2/201 of the distance, its range from the close before the ATR by 1/14 |
| FeatureBuilder.ColumnsAppear | trading/features/builder.py:31-58 | which average fills which column, and from how many candles on |
| FeatureBuilder.VolumeRatioIs | trading/features/builder.py:61-70 | the ratio times the mean volume of the twenty candles before is the volume; None below 21 candles or without volume |
| FeatureBuilder.SteadyVolume | trading/features/builder.py:61-70 | against a steady volume of the previous twenty candles the ratio is the current volume over it |
| StableSort.SortCorrect | trading/features/builder.py:28-28 | sorting gives an ordered permutation |
| StableSort.SortFilter | trading/features/builder.py:28-28 | the sort is stable: it commutes with dropping elements |
| StableSort.OrderHiddenIff | trading/features/builder.py:28-28 | every order of the input sorts alike if and only if elements of equal keys are equal |
| Decimals.QuantizeDown | trading/execution/binance_filters.py:92-92 | a nonnegative number loses less than one unit of the last place of the step |
| Decimals.QuantizeNegative | trading/execution/binance_filters.py:92-92 | truncation is toward zero |
| Decimals.QuantizeAgain | trading/execution/binance_filters.py:116-117 | quantizing again changes nothing |
| Decimals.MultipleIff | trading/execution/binance_filters.py:91-92 | quantized numbers are always multiples of the step if and only if the step is written as a bare power of ten |
| BinanceOrderFilters.FromBinance | trading/execution/binance_filters.py:27-42 | each value is that of the last filter of its kind, or the default if there is none |
| BinanceOrderFilters.BinanceFilters.Store | trading/execution/binance_filters.py:68-77 | a symbol with a trading entry that is asked for gets the filters of its last such entry, every other symbol keeps what it had |
| BinanceOrderFilters.PassesIff | trading/execution/live_executor.py:278-296 | an order passes if and only if its symbol is cached, the rounded quantity is positive and the rounded product reaches the minimum notional |
| BinanceOrderFilters.PassedOrder | trading/execution/live_executor.py:278-296 | what passes is positive, the request cut off at the places of step and tick, worth the minimum notional, and a fixed point of the filters |
| LiveExecution.IdsInjective | trading/execution/live_executor.py:237-249 | ids are injective when strategy and symbol contain no dash, although cycle ids do |
| LiveExecution.DashCollides | trading/execution/live_executor.py:237-249 | a strategy name with a dash shares every id with another strategy |
| LiveExecution.SymbolDashCollides | trading/execution/live_executor.py:237-249 | a symbol with a dash shares its ids with another symbol and cycle |
| LiveExecution.Exchange.PostOrder | trading/execution/live_executor.py:342-353 | the assumed exchange accepts an id at most once, and either half of the exchange can be lost |
| LiveExecution.AnswersAreTrue | trading/execution/live_executor.py:317-451 | the assumed exchange answers a POST exactly if it takes the order and a query exactly if it has it |
| LiveExecution.FetchedOnce | trading/execution/live_executor.py:483-506 | the filters are fetched once for the allowed symbols, the last trading entry of each deciding; a broken body leaves what was read before |
| LiveExecution.RetriableAfterPost | trading/execution/live_executor.py:342-400 | after the POST alone a retry is offered exactly for a network error and from status 429 on |
| LiveExecution.LiveExecutor.PlaceMarketOrder | trading/execution/live_executor.py:453-532 | the placement procedure ends in exactly the specified state, requests and result |
| LiveExecution.LiveExecutor.SubmitOrder | trading/execution/live_executor.py:317-400 | status, code and retriable flag for every outcome of the POST, and the exception for an accepted order whose answer cannot be interpreted |
| LiveExecution.LiveExecutor.ResolvePendingUnknown | trading/execution/live_executor.py:402-451 | status and code for every outcome of the query |
| LiveExecution.CallRequests | trading/execution/live_executor.py:453-532 | each call sends at most one POST, one GET only after a network error on it, and posts a positive filtered quantity of at most the request under its own id |
| LiveExecution.CallBook | trading/execution/live_executor.py:508-530 | a call only ever adds an order under its own id, and success means the exchange has it |
| LiveExecution.AnsweredStatus | trading/execution/live_executor.py:177-187 | a successful result has the status the exchange reported in the answer, one for each of its six names and Failed exactly for any other |
| LiveExecution.RefusedIs | trading/execution/live_executor.py:453-506 | a call that sends nothing says which of the four checks stopped it, and a call sends exactly if all pass |
| LiveExecution.SentFailures | trading/execution/live_executor.py:317-451 | status, code and retriable flag of every failure after something was sent |
| LiveExecution.RetriableIff | trading/execution/live_executor.py:342-451 | which results can be retried, and that the fate of an order is unknown exactly when the POST met a network error and the query did not find it |
| LiveExecution.RaisedIff | trading/execution/live_executor.py:317-492 | the executor lets an exception out exactly for an unreadable exchange-info body, an answer to the POST that cannot be interpreted, or an answer to the query that cannot be read or interpreted |
| LiveExecution.OneOrder | trading/execution/live_executor.py:237-249 | any number of calls for one strategy, cycle and symbol create at most one order, and none if there is one |
| LiveExecution.OrderLiveIff | trading/execution/live_executor.py:317-400 | after any call the exchange has the order exactly if it had it before or the POST got there |
| LiveExecution.FinalFailureTrueIff | trading/execution/live_executor.py:342-451 | a final failure is true exactly if the exchange had no such order before and the POST, if one was sent, did not get there |
| LiveExecution.FinalFailureAfterAll | trading/execution/live_executor.py:342-451 | the same over any sequence of calls: no order at the start, no earlier POST for the id got there, nor its own |
| LiveExecution.UnreadableAnswer | trading/execution/live_executor.py:363-380 | the POST gets there and its answer is unreadable: failed for good although the order is live |
| LiveExecution.UnusableAnswer | trading/execution/live_executor.py:382-388 | an accepted order with a bad quantity in its fills: an exception although the order is live |
| LiveExecution.RefusedOnTheWayBack | trading/execution/live_executor.py:342-354 | the POST gets there and a status below 429 comes back: rejected for good although the order is live |
| LiveExecution.RetryReportsRejected | trading/execution/live_executor.py:342-354 | the answer is lost, the query fails and the retry is refused as a duplicate: rejected for good although the order is live |
| Dedup.AlertDeduplicator.ShouldNotify | trading/notifications/dedup.py:42-64 | the answer is that of the unbounded history, and the map is the unexpired entries plus, on True, this key |
| Dedup.EvictionExact | trading/notifications/dedup.py:52-55 | after eviction the map represents exactly the calls no later call has outlived |
| Dedup.NotifiedForward | trading/notifications/dedup.py:52-64 | with a clock that never goes back: True exactly when no True was returned for the key within the last window |
| Dedup.MapHoldsUnexpired | trading/notifications/dedup.py:52-64 | the map then holds exactly the keys unexpired at the last call, and that of the call itself |
| Dedup.SameKeyIff | trading/notifications/dedup.py:30-40 | two alerts share a key exactly if type, component and symbol agree, no symbol and an empty one being the same |
| Dedup.NotificationsSpaced | trading/notifications/dedup.py:49-64 | two notifications for one key are at least a window apart unless the clock leaves the window of a call and is back inside it later |
| Dedup.ForwardTakesNoDetour | trading/notifications/dedup.py:49-64 | a clock that never goes back does not do that |
| Dedup.RepeatsIff | trading/notifications/dedup.py:48-64 | for any times of the calls, in any order, some keys make an alert repeat inside its window if and only if the clock does that |
| Dedup.ClockBackRepeats | trading/notifications/dedup.py:52-64 | with a clock that steps back a repeat inside the window can be sent |

## Left out

- Rounding: 28-digit decimal contexts, the numeric columns of the database and the error `quantize` raises on
  longer coefficients; amounts round-trip exactly.
- Event rows carry kind, stage, status, side and reason; trace ids, cycle ids, messages, context and the score in
  the reject reason of the AI are omitted,
  and so is the strategy and feature work inside a cycle, which yields an arbitrary candidate.
- The account shares `Position` objects by reference; here a position is a value in the map, so an alias kept
  by a caller is not modelled.
- One process writes the log: two overlapping runs are not modelled, and neither is the sleep between runs.
- An interrupt inside a run; one during the sleep counts as the stop event.
- The day of an order is that of its UTC timestamp; naive timestamps, which the comparison would refuse, do not occur.
- Event writes of the supervisor and the monitor succeed; the program ignores a failing one.
- Interrupts outside the main thread's wait loop, and exceptions that are not subclasses of `Exception`.
- The heartbeat and monitor threads need not end when the workers do; only the two workers are shown to end.
- An alert is stamped with the time of the check that raises it, and check times increase.
- The dashboard reads the last 500 events; the model reads all of them. Hourly counters are omitted.
- The latest candle query, which returns the oldest rows of its window, and candle data quality checks.
- Win and loss statistics of the analytics endpoint, the error they raise when the BUYs of a sold symbol add up to
  zero, and text formatting.
- HTTP, signing, Telegram, AI clients, YAML loading, the release-gate report and the shutdown endpoint.
- `get_order_status` and the legacy result records of the live executor; message texts.
- Cash may go negative: all symbols of a run share one snapshot. The exposure bound takes the place of that claim.
- A minimum notional of zero or less, and fees or slippage of 10000 basis points or more, are excluded.
