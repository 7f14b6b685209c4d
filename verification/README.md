# Verification model of the backtest engine and its durable protocols

This project models, in Dafny, the parts of the platform whose correctness spans many steps, and proves
properties of them for all inputs, all runs and all interleavings.

- **The engine-v2 backtest.** `EventLoop` is the run as a fold over trading days: settle, execute the pending
  orders at the open, mark to market at the close, feed the drawdown monitor, build features, rank, select, size,
  queue for the next day. `Runner` is the same loop as the program performs it, with a ledger object and a monitor
  object that change in place, a dictionary of pending orders and running lists, and is proved to compute the same
  run. `Ledger`, `Settlement`, `Drawdown`, `Allocation`, `Ranking`, `Selection`, `Strategy`, `Simulator` and
  `Costs` are its components. `Backtest` adds the comparison series that are drawn up after the loop.
- **What each stage of a run means**, told without the functions that compute it, from bars, entries, orders and
  fills: `Preparation` (which bars, dates and symbols, and what a run is refused for), `DayOrder`, `TradeRules`,
  `LedgerRules`, `RunTrades` (the trading day order by order), `Marking` (equity at last closes), `EntrySignals`
  and `RankedOrder` (who is ranked, in which order, with which score), `SaleReasons` (what is sold and why),
  `Sizing`, `PurchasePlans` and `RunPurchases` (what is bought and how much), `Recoveries` (when the risk gate
  would reopen), `CashBook`, `PeriodEnds`, `WorstFalls` and `PoolSeries` (what the reported figures and series are
  made of).
- **What whole runs keep.** `OrderBook`, `Planning`, `RunSafety`, `RunTheorems`, `RunExits`, `RoundTrips`,
  `Progress`, `RiskGate`, `BarLists`, `NoLookAhead`, `BareTrades`, `TradesAlike` and `CompletedRuns`.
  `LookAheadExample`, `StuckExample` and `SegmentExample` are concrete inputs, over `Quotes` and `FirstPurchase`.
- **The figures of a run.** `Metrics`, `LotQueue`, `RunAccounting`, `Returns` and `Series`: one-pass maximum
  drawdown, first-in-first-out lot matching and its agreement with the ledger, period and segment returns, and the
  comparison series, with `SeriesAlike` on what they depend on.
- **Eligibility.** `Universe` is the point-in-time stock-pool selector, `Eligibility` the one-pass loop of a
  backtest run that must give the same verdicts; `UniverseRules` and `EligibilityRules` say what they decide by.
- **The job-run protocol.** `JobRuns` is the store and its in-memory adapter, `JobRows` what its steps do to the
  rows, `JobProtocol` the interleaving of submitters, workers and administrators, `StepRows` what its steps do,
  `JobCare` what they must see to, `JobHazards` its harmful interleavings, `JobTask` one task call, `Recovery` the
  recovery at startup, `ActiveJobs` the SQL table under its partial unique index, and `TableRows` what its
  statements and a task call do to the rows.
- **The HTTP idempotency store.** `Reservation` has both adapters and runs of calls over a clock.

Money is `real`: the decimal context's 28 digits are idealised. Dates are ordinals, security codes ordered
integers, timestamps integers. Clocks, generated ids and the results of operations are parameters. Code that
raises returns an error value.

Where a property is false of the code, the model keeps the code, gives an input on which it fails, and states
exactly when it holds:

- **Look-ahead of the strong-trend strategy.** The closed-market streak is read from the first followed symbol,
  and which symbols are followed depends on all bars of the run. In `LookAheadExample.StrongCanLookAhead` a symbol
  that joins on the last day decides whether the run, the day before, queues the sale of a stock or goes on holding
  it. Two results have the same snapshots, fills, skipped and queued orders through a date, up to the reasons of
  orders, exactly when, at every close through it before the last day's at which the first run holds a position that
  nothing else gives up, both streaks are at least two or neither is (`TradesAlike.TradesAlikeIff`); with their
  reasons, at every such close at which it holds anything (`NoLookAhead.LooksAheadIff`,
  `CompletedRuns.ResultsAlikeIff`). The moving-average strategy never looks ahead, nor do runs that follow the same
  symbols, nor do the primary and equal-weight series.
- **A run can stop on a sale.** `PortfolioLedger.apply_fill` raises when the fees of a sale exceed cash plus
  notional, and the loop does not guard against that: `StuckExample.RunCanStick`. With non-negative cost rates and
  slippage below one it is the only thing that stops the day loop of a prepared run over positive prices
  (`Progress.RunSticksIff`). After the loop the equal-weight benchmark, if wanted, can still raise for want of a
  pool or a price; `Backtest.ReturnsResultIff` says exactly when a result is returned.
- **Segments.** The TRAIN, VALIDATION and OOS returns compound to the FULL return exactly when the value does not
  change between the end of validation and the start of out-of-sample (`Returns.SegmentsCompoundIff`); in
  `SegmentExample.SegmentsNeedNotCompound` three segments of no gain make up a FULL return of a hundred per cent.
- **Four steps of the job protocol that rely on something they do not check.** The whole-row write of a requeue
  after its compare-and-swap, the whole-row write of a failed enqueue, the append of a direct start after its
  read, and the failing of a running row as abandoned. Each is careful under a condition on the rows, on which
  rows workers are executing and on which have been executed (`JobProtocol.LateWriteIsSafeIff`,
  `JobProtocol.FailedDispatchIsSafeIff`, `JobProtocol.StartIsSafeIff`, `JobProtocol.AbandonIsSafeIff`); no other
  step needs one (`JobProtocol.NextKeepsIff`). After any careful run every careless step has a continuation of at
  most two steps, none of which needs care, by which a history has lost its shape, a row has been executed twice
  or a success has been overwritten (`JobCare.CarelessStepBreaks`), and a careful step has no such continuation of
  careful steps, however long (`JobCare.CarefulIff`). `JobHazards` has a concrete interleaving for each of the
  four.
- **Reservation on a stale read.** The unique index keeps at most one active row per key, but it does not stop a
  client from queueing a key that has meanwhile succeeded (`ActiveJobs.StaleReadReservesSucceededKey`,
  `JobProtocol.InsertKeepsHistoryIff`).
- **Stale replay in memory.** The in-memory idempotency adapter keeps the old result when a reservation is
  renewed after expiry (`Reservation.StaleReplayAfterExpiry`, `Reservation.AcquiresAgreeIff`).

## Model

| member | source | states |
|---|---|---|
| Runner.Run | app/domain/backtest/event_loop.py:224-454 | the day loop over mutable ledger, monitor, pending dictionary, entries and lists returns exactly the run of the specification, or its error |
| Runner.TradeAndMark | app/domain/backtest/event_loop.py:239-299 | settlement, execution, marking and drawdown observation of one day take both objects and all lists to the specified state |
| Runner.QueueNext | app/domain/backtest/event_loop.py:301-454 | one close queues exactly the specified exits and purchases under the next trading date and under no other date |
| Runner.ExecuteOrders | app/domain/backtest/event_loop.py:242-292 | the execution loop changes ledger, entries, fills and skipped orders as executing the orders one after another does, and stops at the first error |
| Runner.QueueExits | app/domain/backtest/event_loop.py:337-376 | appends one SELL per position with a reason to go, in the ledger's order, and collects exactly their symbols |
| Runner.QueuePurchases | app/domain/backtest/event_loop.py:388-454 | the purchase loop with virtual cash, projected positions, held set and industry counts queues exactly the planned orders |
| Runner.CountIndustries | app/domain/backtest/event_loop.py:391-401 | counts per industry exactly the positions that are not exiting |
| Runner.UpdateCloses | app/domain/backtest/event_loop.py:294-296 | whatever order the day's bars come in, the last closes are overwritten by exactly those bars that have one |
| Runner.BuildBarsByDate | app/domain/backtest/event_loop.py:169-171 | the dictionary of dictionaries holds for every date the day's bars, of two bars for a symbol the later |
| Preparation.BarsAreUsable | app/domain/backtest/event_loop.py:146-171 | the run's bars are exactly the given ones not after the end and available by the cutoff, by date and symbol, and of two for a symbol and date the one given later stands |
| Preparation.DatesAndSymbols | app/domain/backtest/event_loop.py:157-222 | the trading days are the calendar's dates from start through end, the followed symbols those that a usable bar of no benchmark ever reports eligible, both ascending, each once |
| Preparation.PrepareIs | app/domain/backtest/event_loop.py:166-211 | a run is accepted, or refused for the first of its faults: no trading day, a day without a close of the benchmark, a stock's bar of unknown eligibility, no initial equity, thresholds out of order |
| DayOrder.FillsInDayOrder | app/domain/backtest/event_loop.py:242-245 | in every run, of two fills of one day, the earlier is a sale and the later a purchase, or they are of one side and in symbol order |
| RunTrades.EntryFollows | app/domain/backtest/event_loop.py:286-291 | after an applied fill the entry is the purchase's, or it is gone exactly when no share is left; the other entries stay |
| RunTrades.DayTradesInTurn | app/domain/backtest/event_loop.py:239-292 | every trading day of every run goes order by order: without a bar an order is skipped; a hindered or too dear one is reported unfilled; the others trade at the slipped open and change cash, position and entry by it |
| Marking.EquityIsMarked | app/domain/backtest/event_loop.py:294-299 | after every day the equity is the cash plus, for every position, its shares at the last close that the bars of the run's days show, or at cost if they show none |
| Marking.MarkIsGreatest | app/domain/portfolio/ledger.py:86-106 | the high-water mark is the greatest equity reported or audited so far, and the drawdown how far the day's equity lies below it, as a part of it |
| EntrySignals.HistoryShows | app/domain/strategy/features.py:71-83 | the history of a feature shows each bar of the symbol that closed, is not later and was available, once and in order |
| EntrySignals.RankedIff | app/domain/backtest/event_loop.py:304-327 | at every close a symbol is ranked exactly when the day's pool has it, its bar can be bought, and the closes and amounts of the benchmark's and its own history pass what the strategy asks, for both strategies |
| RankedOrder.RankedInOrder | app/domain/strategy/strong_trend.py:126-130 | the ranked list goes by falling score, then symbol, is numbered from one, and has each symbol once with its last bar's industry |
| RankedOrder.TrendScores | app/domain/strategy/ma_trend.py:147-149 | a moving-average score is the close over the short mean plus the short mean over the long one, less two |
| RankedOrder.StrongScores | app/domain/strategy/strong_trend.py:44-125 | a strong-trend score counts, over the day's ranked symbols, those with a smaller and those with the same 5-bar return, 20-bar return and amount ratio |
| SaleReasons.StreakCounts | app/domain/backtest/event_loop.py:329-335 | the closed-market streak is the number of days on which the first followed symbol and the benchmark had a bar and the benchmark closed no higher than its 20-bar mean, since one on which it closed higher |
| SaleReasons.SalesAre | app/domain/backtest/event_loop.py:337-376 | after every close but the last a held symbol is to be sold exactly when something speaks for it, and its order sells all of it, in the entry's industry, listing exactly what speaks for it in the strategy's order |
| RunPurchases.PurchasesInTurn | app/domain/backtest/event_loop.py:388-454 | after every close but the last the queued purchases go through the selected signals in turn: one is bought exactly when it is neither held nor bought already, its industry has fewer than the limit staying and bought, it has a positive close and a positive quantity for the cash left and the positions at their marks |
| RunPurchases.IndustriesKeepLimit | app/domain/backtest/event_loop.py:391-444 | after every close that queues a purchase in a known industry, its entries without a queued sale and its queued purchases together are at most the limit |
| CompletedRuns.CompletedRun | app/domain/backtest/event_loop.py:239-575 | every completed run has one snapshot per trading day, nothing pending, no negative cash, entries for exactly the held symbols, positions within the limit, balanced books, and the risk state of its worst fall, never milder as persisted |
| Backtest.RunBacktest | app/domain/backtest/event_loop.py:101-575 | preparation, the day loop and the three comparison series return exactly the specified result, or the first error among them |
| Backtest.ResultHas | app/domain/backtest/event_loop.py:456-489 | a result has the completed run, a primary series that starts at the initial equity and follows the benchmark's closes, a secondary one exactly if that benchmark closed on every trading date, and an equal-weight one exactly if it is wanted |
| Backtest.ReturnsResultIff | app/domain/backtest/event_loop.py:456-489 | over positive prices a backtest returns a result exactly when preparation accepts the inputs, no sale is unpayable and, with the equal-weight benchmark wanted, every day but the last has a pool whose members all closed and, the next day, trade or are suspended |
| CompletedRuns.DayLoopCompletesIff | app/domain/backtest/event_loop.py:146-454 | over positive prices the day loop completes exactly when preparation accepts the inputs and the loop comes to no unpayable sale |
| CompletedRuns.ResultsAlikeIff | app/domain/backtest/event_loop.py:329-335 | two completed runs whose bars agree through a date report and queue the same through it exactly when, at every close before the last at which the first holds anything, both have counted two closed days or more, or neither has |
| CompletedRuns.ResultsNeverLookAhead | app/domain/backtest/event_loop.py:239-454 | two completed runs whose bars agree through a date report the same snapshots, fills and skipped orders through it and queue the same orders for the next day; for the strong-trend strategy, provided they follow the same symbols |
| CompletedRuns.ResultStopsBuying | app/domain/backtest/event_loop.py:297-299 | after a fall of the reported curve by the warning threshold the run reports no purchase, filled or not, on any later date |
| RunSafety.RunIsOrderly | app/domain/backtest/event_loop.py:239-454 | the invariant of every day of every run: entries match positions, pending orders fit them, positions plus queued purchases stay within the limit, no purchase is queued outside NORMAL, and the ledger's high-water mark dominates the monitor's |
| RunTheorems.HoldingsStayWithinLimits | app/domain/backtest/event_loop.py:242-292 | after every day cash is not negative, entries are exactly the held symbols, and positions are within `max_positions` |
| RunTheorems.QueuedPurchasesKeepCaps | app/domain/backtest/event_loop.py:388-454 | on every day of every run all queued purchases together fit the ledger's cash with their fees, the position limit, the investment cap, and each its position and industry cap, at reference prices |
| Planning.PlanKeepsSound | app/domain/backtest/event_loop.py:402-454 | every prefix of the planning loop keeps orders, projected positions, virtual cash and caps consistent; for the counts see RunPurchases.PurchasesInTurn |
| Planning.EntryFits | app/domain/risk/allocation.py:58-94 | a planned purchase passed every gate and fits every cap given what was planned before it |
| OrderBook.DayKeepsTidy | app/domain/backtest/event_loop.py:242-292 | executing a day's orders, each filled or not, leaves entries for exactly the held symbols |
| Progress.OrderSticksIff | app/domain/portfolio/ledger.py:60-66 | over positive prices an order stops the run exactly when it is a sale whose fees exceed cash plus notional, and then with that error |
| Progress.RunSticksIff | app/domain/backtest/event_loop.py:242-292 | over positive prices a prepared run stops within k days exactly when one of them comes to a sale that is filled and whose fees exceed cash plus notional |
| Progress.RunNeverStuck | app/domain/backtest/event_loop.py:242-292 | the only error of such a run is that of the unpayable sale; when every sale covers its fees every day completes, and cash is never negative |
| StuckExample.RunCanStick | app/domain/portfolio/ledger.py:64-66 | a concrete accepted run of five bars a symbol stops at the sale of its only share |
| Progress.CoveredByOneLot | app/domain/execution/costs.py:68-83 | rates of at most one together and a minimum commission that one lot can bear make every sale of a lot or more cover its fees |
| NoLookAhead.TrendNeverLooksAhead | app/domain/backtest/event_loop.py:239-454 | two completed moving-average runs whose bars agree through a date are in the same state, with the same snapshots, fills, skipped and queued orders, after every day through it |
| NoLookAhead.LooksAheadIff | app/domain/backtest/event_loop.py:329-335 | two runs whose bars agree through a date have the same snapshots, fills, skipped and queued orders after each of its days exactly when, at every close before the last at which the first holds anything, both streaks are at least two or neither is |
| TradesAlike.TradesAlikeIff | app/domain/backtest/event_loop.py:329-376 | up to the reasons of orders they have the same exactly when this holds of every close before the last at which the first holds a position that no other reason gives up |
| NoLookAhead.SameSymbolsNoLookAhead | app/domain/backtest/event_loop.py:220-222 | strong-trend runs that follow the same symbols do not look ahead |
| LookAheadExample.StrongCanLookAhead | app/domain/backtest/event_loop.py:329-376 | two concrete backtests that both return results and whose bars agree through day 24: after day 24 both hold the same stock and only one has queued its sale |
| RiskGate.MonitorFollowsSnapshots | app/domain/backtest/event_loop.py:297-299 | after any number of days the monitor has observed exactly the equities of the snapshots |
| RiskGate.RiskStateOfRun | app/domain/backtest/event_loop.py:297-299 | the risk state of a run is decided by the worst fall of its equity curve |
| RiskGate.GateNeverReopens | app/domain/backtest/event_loop.py:414-426 | once the state at a close is not NORMAL it never returns, and no purchase is even attempted on a later date |
| RiskGate.FallStopsPurchases | app/domain/risk/allocation.py:58-59 | after a fall of the equity curve by the warning threshold no later purchase is attempted |
| RiskGate.PersistSnapshots | app/infrastructure/repositories/research.py:3060-3088 | each persisted row pairs a date and a snapshot with the risk state recomputed from the snapshots so far |
| RiskGate.PersistedIsNeverMilder | app/infrastructure/repositories/research.py:3069-3074 | after every day of every run the recomputed state is at least as severe as the monitor's |
| RiskGate.WorstDrawdownPersists | app/infrastructure/repositories/research.py:3065-3074 | the recomputed state is decided by whether any snapshot so far has a drawdown of the stop or the warning threshold |
| Drawdown.DrawdownMonitor.Observe | app/domain/risk/drawdown.py:45-63 | one observation takes mark, drawdown, state and audit trail to the specified next state |
| Drawdown.DrawdownMonitor.ConfirmRecovery | app/domain/risk/drawdown.py:65-93 | one confirmation takes the monitor to the specified next state and tells whether it recovered |
| Drawdown.WorstFallDecidesState | app/domain/risk/drawdown.py:45-63 | without recovery the state after any history is decided by whether any value fell by the stop or the warning threshold from any earlier one |
| Drawdown.RecoveryTakesTwoConfirmations | app/domain/risk/drawdown.py:65-93 | the monitor leaves review only on the second of two accepted confirmations with different ids |
| Recoveries.RecoversIff | app/domain/risk/drawdown.py:65-93 | a monitor in review returns to normal with a step exactly when it is an authorised, complete confirmation of an equity above what the warning threshold leaves of the peak, and since the review began one with another id was |
| Recoveries.AuditGrows | app/domain/risk/drawdown.py:45-93 | a step that changes the state adds one audit event, with the drawdown found or the confirmation's id, and no other step does |
| Recoveries.AuditTells | app/domain/risk/drawdown.py:45-93 | after any run the audit trail ends with the state, never repeats one, and gives drawdowns that call for each |
| Ledger.PortfolioLedger.ApplyFill | app/domain/portfolio/ledger.py:43-84 | an accepted fill takes cash, positions, audit entries and high-water mark to the specified state; a refused one changes nothing and names its reason |
| Ledger.PortfolioLedger.Snapshot | app/domain/portfolio/ledger.py:86-106 | the marking loop returns cash plus marked positions and moves only the high-water mark |
| Ledger.PortfolioLedger.SettleAll | app/domain/portfolio/ledger.py:108-115 | settlement makes every position fully available and changes nothing else |
| Ledger.AfterFill | app/domain/portfolio/ledger.py:43-84 | an accepted fill keeps cash non-negative, symbols distinct, quantities positive and availability within quantity |
| LedgerRules.FillRefusedIff | app/domain/portfolio/ledger.py:43-79 | a fill is refused exactly for figures that are none, a purchase dearer than the cash, a sale of more than may be sold, or one that leaves a debt, in this order |
| LedgerRules.FillChanges | app/domain/portfolio/ledger.py:48-84 | an accepted fill moves the cash by what is paid or received and changes its symbol's position alone: a purchase adds shares and cost, a sale leaves the rest at the cost per share it had, or nothing |
| Marking.FillsAuditedAtCost | app/domain/portfolio/ledger.py:84-95 | every accepted fill adds one audit entry, at cash plus the cost of what is held |
| LedgerRules.SnapshotLists | app/domain/portfolio/ledger.py:100-106 | a snapshot has the cash and every position once, by symbol |
| Settlement.SalesNeverExceedEarlierPurchases | app/domain/portfolio/ledger.py:48-83 | after any run of settlements and fills, held and available shares are exactly bought minus sold, and what was sold through today never exceeds what was bought before today |
| Settlement.SaleRefusedIff | app/domain/portfolio/ledger.py:60-62 | a sale is refused for want of shares exactly when it exceeds what was bought before today and is unsold |
| Allocation.AllocateQuantity | app/domain/risk/allocation.py:33-106 | the sizing procedure with its decrement loop terminates with the specified quantity |
| Sizing.QuantityIsGreatest | app/domain/risk/allocation.py:58-106 | in the normal state, with positive price, cash and equity, a positive stop distance if any, and places for the symbol among the open positions, the quantity is the greatest number of whole lots that every cap, the risk budget and, with fees, the cash permit |
| Sizing.QuantityPositiveIff | app/domain/risk/allocation.py:58-106 | a quantity is positive exactly when these hold, the positions counted as a set, and one lot is permitted |
| Allocation.PositiveQuantityIsPermitted | app/domain/risk/allocation.py:58-106 | whatever the limits, a positive quantity passed every gate and is permitted by every cap |
| Ranking.RankInUnit | app/domain/strategy/strong_trend.py:44-51 | percentile ranks lie between 0 and 1, ties included |
| Ranking.RankOrders | app/domain/strategy/strong_trend.py:44-51 | one rank is below another exactly when its value is, so equal values rank equally |
| Ranking.RanksSumToHalf | app/domain/strategy/strong_trend.py:44-51 | the ranks of n values sum to exactly n/2 for n of two or more, and to 1 for one |
| StrategyProofs.StrongScoreInUnit | app/domain/strategy/strong_trend.py:112-125 | every candidate's score lies between 0 and 1 |
| StrategyProofs.StrongScoresSumToHalf | app/domain/strategy/strong_trend.py:112-125 | the scores of n candidates sum to exactly n/2 |
| StrategyProofs.SelectionIsOptimal | app/domain/strategy/strong_trend.py:132-157 | for either strategy no choice of ranked candidates within the two limits has a higher total score than the selected ones |
| StrategyProofs.TrendScorePositive | app/domain/strategy/ma_trend.py:134-148 | a moving-average candidate over a positive long average scores above zero |
| StrategyProofs.HistoryInOrder | app/domain/strategy/features.py:71-83 | over bars in date order a feature's history is in date order and ends by the date, so the original's sort changes nothing |
| Selection.SelectCandidates | app/domain/strategy/strong_trend.py:138-157 | the loop with its counters selects exactly what looking at the ranked list best first selects |
| Selection.GreedyIsOptimal | app/domain/strategy/ma_trend.py:162-181 | for any ranked list with non-negative scores greedy selection is feasible and has the greatest total score among all feasible choices |
| Strategy.RankStrongCandidates | app/domain/strategy/strong_trend.py:99-130 | the scoring loop, sort and numbering produce the specified ranked list |
| Strategy.RankTrendCandidates | app/domain/strategy/ma_trend.py:134-154 | the filtering and scoring loop produces the specified ranked list, or the division error |
| Simulator.Execute | app/domain/execution/simulator.py:69-147 | a fill is for the order's symbol and side, at the execution price with its costs, of the whole quantity in full-or-none mode, and an unfilled one carries nothing |
| TradeRules.ExecuteIs | app/domain/execution/simulator.py:69-147 | an order in full-or-none mode is reported unfilled for the first hindrance there is, and otherwise traded whole at the open moved by the slippage, with each fee of the cost model |
| TradeRules.PartialExecuteIs | app/domain/execution/simulator.py:123-147 | in partial mode it trades what is available of it |
| TradeRules.ExecuteErrsIff | app/domain/execution/simulator.py:69-112 | it is an error exactly for a quantity that is not positive, a negative availability, or a negative price |
| RunExits.SaleQueuedIff | app/domain/backtest/event_loop.py:337-376 | after every close of every run the sale of a held symbol, of all its shares, is queued exactly when it has been held for the maximum days or, strong-trend, it is not in the better half of the day's ranked pool, has fallen from its entry price, or the filter has been closed for two days, or, moving-average, it has closed below its short mean |
| NoLookAhead.FeatureAlike | app/domain/strategy/features.py:54-116 | a feature depends on no bar dated after its date |
| Metrics.MaxDrawdown | app/domain/backtest/metrics.py:41-47 | the running-peak loop returns the maximum of the relative falls over all pairs of earlier and later values |
| WorstFalls.MaxDrawdownIs | app/domain/backtest/metrics.py:41-47 | no later value is below what the maximum drawdown leaves of an earlier one, and one is exactly that |
| WorstFalls.MetricDecidesState | app/domain/risk/drawdown.py:45-63 | in every run with a positive curve the risk state is decided by whether the metrics' maximum drawdown reaches the stop or the warning threshold |
| Metrics.MatchFills | app/domain/backtest/metrics.py:51-93 | the matching loop over all fills computes the specified lots, matches, cost and turnover |
| Metrics.SellLots | app/domain/backtest/metrics.py:75-93 | the loop that pops and rewrites lots in place computes the specified matching of one sale |
| LotQueue.SaleTakesOldest | app/domain/backtest/metrics.py:75-93 | one sale takes exactly the oldest shares, share by share, at their costs and for their part of the proceeds |
| LotQueue.LotsAreQueue | app/domain/backtest/metrics.py:66-93 | for any fill list the open lots are the queue of shares still held, oldest first, each at its cost |
| LotQueue.PurchasesSplit | app/domain/backtest/metrics.py:51-93 | for any fill list bought quantity and cost split exactly into matched and open lots |
| LotQueue.SalesMatchedIff | app/domain/backtest/metrics.py:75-93 | every sold share is matched exactly when no sale exceeds the holdings, and then the matched proceeds are all that was received |
| RunAccounting.MetricsAgreeWithLedger | app/domain/portfolio/ledger.py:43-84 | in every run the open lots are the ledger's positions, and initial equity plus closed profits and losses equals cash plus the cost basis of open positions |
| CashBook.CashOfRun | app/domain/backtest/metrics.py:55-62 | in every run the cash is the initial equity less what purchases were worth plus what sales were worth less every fee, and the metrics' turnover and total cost are these sums |
| RoundTrips.RunsRoundTrip | app/domain/backtest/event_loop.py:239-292 | in every run purchases and sales of a symbol take turns, each sale is of exactly the shares of the purchase before it and dated after it, every fill is dated on a trading date, and what is held is what was bought last |
| Returns.CalculateMetrics | app/domain/backtest/metrics.py:31-127 | figures exist exactly for three or more positive values; with a date per step in order the monthly and the yearly returns each compound to one plus the total return |
| Returns.PeriodReturns | app/domain/backtest/metrics.py:137-155 | the dictionary and key-order loops return the returns over successive period ends, none unless there is a date per step |
| Returns.ReturnsTelescope | app/domain/backtest/metrics.py:149-155 | returns over successive period ends multiply out to the last end over the start |
| Returns.PeriodReturnsCompound | app/domain/backtest/metrics.py:137-155 | for dates in order period returns multiply out to the last value over the first |
| PeriodEnds.EndsAreLast | app/domain/backtest/metrics.py:142-148 | every month or year that has a date has one end, the value of its last date, and they come in the order in which they appear first |
| PeriodEnds.ReturnsCarry | app/domain/backtest/metrics.py:149-155 | each period's return carries the end of the one before, or the start, to its own end |
| Returns.SegmentsCompoundIff | app/domain/backtest/event_loop.py:722-747 | where all four total returns are reported, one plus those of TRAIN, VALIDATION and OOS multiply out to one plus that of FULL exactly when validation ends on the value at which out-of-sample starts, so always without a trading date between |
| SegmentExample.SegmentsNeedNotCompound | app/domain/backtest/event_loop.py:722-747 | a concrete curve whose three segments report no gain and whose FULL return is one hundred per cent |
| Returns.FillInOneSegment | app/domain/backtest/event_loop.py:748-758 | a fill is reported by exactly one of the three segments, or by none when it lies between validation and out-of-sample |
| RoundTrips.FillsCountOnce | app/domain/backtest/event_loop.py:722-758 | every fill of a completed run counts in exactly one segment, or in none if it lies in the gap |
| Series.MarketSeries | app/domain/backtest/event_loop.py:630-650 | the benchmark series exists exactly when every trading date has a close and the first is not zero; it starts at the initial equity and any two of its points are in the ratio of their closes |
| Series.UniverseSeries | app/domain/backtest/event_loop.py:670-713 | the nested loops over dates and members compute the specified equal-weight values, or their first error |
| Series.MembersArePool | app/domain/backtest/event_loop.py:212-222 | the members are exactly the day's stock pool, and each of them has a bar that day |
| Series.RebalancedDaily | app/domain/backtest/event_loop.py:677-708 | each value is what equal slices of the previous value, one for each member of the day before, have become by their own returns |
| PoolSeries.CloseIsStanding | app/domain/backtest/event_loop.py:169-171 | the close a series reads is that of the bar that stands for the symbol and date |
| PoolSeries.ValuesGrow | app/domain/backtest/event_loop.py:670-713 | the equal-weight series starts at the initial equity, and each day's value times the number of members, the pool of the day before, is the value before times the sum of what each member's closes have grown by, or one for a suspended member |
| Series.PoolStaysPositive | app/domain/backtest/event_loop.py:677-708 | over positive closes the equal-weight series never falls to zero |
| SeriesAlike.SeriesNeverLookAhead | app/domain/backtest/event_loop.py:630-713 | two returned results whose bars agree through a date have the same primary and equal-weight series through it, whatever the strategy, and the same secondary one where both have it |
| Universe.SelectUniverse | app/domain/data/universe.py:29-56 | the selector decides every security by the latest visible status, the open dates through the date and the last twenty visible amounts |
| Universe.StatusBySymbol | app/domain/data/universe.py:112-137 | the loop keeps for every symbol the latest effective visible status row, of several from one date the first |
| Universe.AmountsBySymbol | app/domain/data/universe.py:140-161 | the loop yields for every symbol the amounts of the last twenty visible dates |
| UniverseRules.MedianIsMiddle | app/domain/data/universe.py:106-108 | the median of an odd number of amounts is one that at most half are below and at most half above; of an even number the mean of the two middle ones, told by counts |
| UniverseRules.DecisionIsFirstRule | app/domain/data/universe.py:29-110 | a security is excluded for the first rule, in the selector's order, that excludes it, and otherwise eligible |
| UniverseRules.StatusIsLatest | app/domain/data/universe.py:112-137 | the status asked is that of the first of the latest rows of the symbol that are in effect and available by the date |
| UniverseRules.RecentAre | app/domain/data/universe.py:140-161 | the recent amounts are those of the last twenty bars, by date, that are not later and were available by the date |
| Eligibility.StreamEligibility | app/infrastructure/repositories/research.py:2023-2047 | one pass with a twenty-element window per security computes the verdict of every bar from all amounts up to it |
| Eligibility.StatusAsOf | app/infrastructure/repositories/research.py:3256-3279 | the status in force is one that no row in force outranks by effective date and batch priority; none only if no row is in force |
| EligibilityRules.StatusIsHighestKnown | app/infrastructure/repositories/research.py:3256-3279 | the status that decides a bar is in force and known by the end of the bar's day, and no such row outranks it |
| EligibilityRules.VerdictIff | app/infrastructure/repositories/research.py:1998-2047 | a bar is eligible exactly when that status is a common share's on the main board, neither ST nor suspended nor delisted, listed for the sessions asked, and the median of its last twenty amounts is high enough |
| EligibilityRules.LateRowsDecideNothing | app/infrastructure/repositories/research.py:1998-2009 | rows observed after the end of a bar's day change no verdict on it |
| Eligibility.ListingDaysCount | app/infrastructure/repositories/research.py:2033-2035 | the difference of two bisections is the number of open dates from the listing through the date, or negative where that is zero |
| Eligibility.WindowIsRecent | app/infrastructure/repositories/research.py:2028-2031 | the sliding window at a bar is the selector's list of recent amounts on the bar's date |
| Eligibility.StatusesAgree | app/infrastructure/repositories/research.py:3256-3279 | where both see the same rows, no two of one effective date, both choose the same status |
| Eligibility.StreamingRefinesSelector | app/domain/data/universe.py:77-109 | on every open date with bars available in time the one-pass verdict is the selector's decision, given a status row with canonical codes, and no without one |
| JobRuns.InMemoryJobRunStore.ReserveQueuedOwned | app/jobs/idempotency.py:173-209 | a reservation appends the next attempt exactly after nothing or, when retrying, a failure; otherwise it returns the newest row unchanged |
| JobRuns.InMemoryJobRunStore.ClaimQueued | app/jobs/idempotency.py:211-236 | a claim turns exactly the newest row, if queued, into a running one; a running one is an error; otherwise nothing changes |
| JobRuns.InMemoryJobRunStore.ClaimQueuedForRequeue | app/jobs/idempotency.py:238-259 | the compare-and-swap rewrites the row only if it is queued with the expected start time |
| JobRuns.InMemoryJobRunStore.Mark | app/jobs/idempotency.py:261-271 | marking changes the phase of a queued row and nothing else |
| JobRuns.InMemoryJobRunStore.ReplaceRow | app/jobs/idempotency.py:277-283 | replacing overwrites the newest row with the run id, or fails without one |
| JobRuns.InMemoryJobRunStore.Page | app/jobs/idempotency.py:128-152 | a page is the requested stretch of the matching rows, newest first, and the total counts them all |
| JobRows.ReservationIs | app/jobs/idempotency.py:173-209 | a reservation adds a fresh queued row, numbered on, exactly for a key without rows or with a newest row that failed and may be retried; otherwise it hands out the newest row |
| JobRows.ClaimIs | app/jobs/idempotency.py:211-236 | a claim refuses a running newest row, starts a queued one in its place, and leaves every other row and case as it is |
| JobRows.RequeueIs | app/jobs/idempotency.py:238-259 | a requeue rewrites exactly the row of the id, and only when it is queued and started when it was expected to have |
| JobRows.SecondRequeueLoses | app/jobs/idempotency.py:238-259 | of two requeues that expect the same start the second changes nothing |
| JobRows.ListingIs | app/jobs/idempotency.py:128-152 | the listing has every matching row once, newest first |
| JobRows.StretchIs | app/jobs/idempotency.py:149-152 | the items of a page are the stretch of the listing that it covers, as far as the listing goes |
| JobRows.ProviderIs | app/jobs/idempotency.py:292-300 | a key names a provider exactly when it is an import key of three parts whose last begins with the provider and ends in a part without a dash |
| JobProtocol.AttemptHistories | app/jobs/idempotency.py:173-283 | under any interleaving of submits, requeues, dispatch results, claims, direct starts, ends and recoveries in which the four steps that need care are careful, all rows of a key but the newest have failed, run number and attempt are the row's place among them, and no row is executed twice |
| StepRows.StepDoes | app/jobs/idempotency.py:173-283 | over rows with ids of their own every step of the protocol does exactly what it says to the rows and to what its client holds, told by fields and places, and nothing when its client cannot send it |
| JobProtocol.NextKeepsIff | app/jobs/idempotency.py:335-441 | every step keeps histories shaped, executed rows out of the queue, clients' copies in step and succeeded rows unchanged exactly when it is careful, which only four kinds of step can fail to be |
| JobCare.CarelessStepBreaks | app/jobs/idempotency.py:173-283 | after any careful run every careless step has a continuation of at most two steps, none of which needs care, after which a history has lost its shape, a row has been executed twice, or a success has been overwritten |
| JobCare.CarefulIff | app/jobs/idempotency.py:173-283 | after any careful run a step is careful exactly when no careful continuation of any length does such harm |
| JobProtocol.SucceededIsFinal | app/jobs/idempotency.py:184-195 | once a key has succeeded no careful run of steps adds a row for it or changes the one that succeeded |
| JobProtocol.LateWriteIsSafeIff | app/api/v1/admin.py:255-268 | the whole-row write of a requeue, apart from its compare-and-swap, keeps the invariant exactly when the row was not executed meanwhile and is still the newest of its key |
| JobProtocol.FailedDispatchIsSafeIff | app/api/v1/admin.py:178-184 | the whole-row write of a failed enqueue keeps the invariant exactly when no worker holds the row, and keeps what has succeeded exactly when the row has not |
| JobProtocol.StartIsSafeIff | app/jobs/idempotency.py:349-384 | a direct start appended on an earlier read is safe exactly when that read is still the newest row and has failed, or there still is none |
| JobProtocol.AbandonIsSafeIff | app/main.py:338-356 | failing a running row as abandoned never touches a success and keeps the invariant exactly when no worker is executing it after all |
| JobHazards.SplitRequeueExecutesTwice | app/api/v1/admin.py:255-268 | a concrete interleaving of submit, swap, claim, write and claim executes one row twice |
| JobHazards.FailedRequeueExecutesAgain | app/api/v1/admin.py:178-184 | a concrete interleaving in which a second enqueue of a running row fails: the key is submitted again, and executed again after it has succeeded |
| JobHazards.TwoStartsRunTogether | app/jobs/idempotency.py:349-384 | a concrete interleaving of two direct starts on the same read runs one key twice at once |
| JobProtocol.InsertKeepsHistoryIff | app/infrastructure/repositories/runtime.py:376-397 | a row numbered on from an earlier read keeps the history exactly when that read is still the newest row and has failed, or there still is none |
| JobHazards.AbandonedRunsOn | app/main.py:338-356 | a concrete interleaving in which the row of a live worker is failed as abandoned: the key is retried, and two workers run it at once |
| JobTask.RunTask | app/jobs/idempotency.py:335-441 | a task call replays a success, refuses while running, and otherwise claims or appends a row, executes, and records the outcome |
| JobTask.TaskLeavesOutcome | app/jobs/idempotency.py:365-420 | a started task leaves its outcome as the newest row of its key in a shaped history |
| JobTask.SecondCallReplays | app/jobs/idempotency.py:350-361 | after a success a second call executes nothing, changes nothing and hands out the recorded value |
| TableRows.TaskDoes | app/jobs/idempotency.py:335-441 | over rows with ids of their own a task call changes nothing after a success or beside a running row, ends a queued row as its operation ends, and otherwise adds a row, numbered on, that ends so |
| Recovery.FailAbandonedProviderJobs | app/main.py:338-370 | the startup loop ends, fails exactly the running rows of either provider, and leaves every other row as it was |
| Recovery.FailProvider | app/main.py:342-356 | page after page the loop ends because each page lowers the number of running rows, and leaves none of the provider running |
| ActiveJobs.AtMostOneActive | alembic/versions/0004_append_job_attempts.py:27-34 | an index that checks each written row alone keeps at most one queued or running row per key in every reachable state |
| ActiveJobs.ReservationInsertsIff | app/infrastructure/repositories/runtime.py:376-404 | a reservation whose read lets it insert does so exactly when its key has no active row by then; otherwise it changes nothing, and whatever others do before it reads again, it finds a row of its key to return |
| ActiveJobs.StaleReadReservesSucceededKey | app/infrastructure/repositories/runtime.py:376-397 | a concrete run of statements, all accepted by the index, queues a key again after it has succeeded, under the same run number |
| TableRows.StatementDoes | app/infrastructure/repositories/runtime.py:298-527 | over rows with ids of their own every statement reads the row started last, adds a row numbered on from what its client read unless an active row is in the way, takes over a failed row of a job that is no provider import, or changes the one row with the id |
| Reservation.SqlIdempotencyStore.AcquireRequest | app/infrastructure/repositories/runtime.py:46-93 | acquiring inserts, renews, refuses, waits or replays as specified and changes no other key |
| Reservation.SqlIdempotencyStore.CompleteRequest | app/infrastructure/repositories/runtime.py:95-111 | completing stores the result in a matching reservation and otherwise changes nothing |
| Reservation.InMemoryIdempotencyStore.AcquireRequest | app/core/contracts.py:74-93 | the in-memory adapter's acquire, which leaves an earlier result in place when it renews |
| Reservation.InMemoryIdempotencyStore.CompleteRequest | app/core/contracts.py:95-98 | the in-memory adapter stores a result only for the very request it holds |
| Reservation.OutcomesFollowLog | app/infrastructure/repositories/runtime.py:46-111 | in any run every acquire gets what the log of earlier calls alone says it deserves, and a completion is accepted exactly from a request like the holder of the reservation |
| Reservation.OneExecutionUntilExpiry | app/infrastructure/repositories/runtime.py:46-77 | over a monotone clock a second execution of a key comes only at or after the expiry of every earlier reservation |
| Reservation.ReplayIsSound | app/infrastructure/repositories/runtime.py:78-93 | a replay hands out the reply last completed since the unexpired current reservation, by a request of the same hash, actor and path |
| Reservation.MismatchIsRefused | app/infrastructure/repositories/runtime.py:78-85 | while a reservation holds, a request that differs from it never gets a result |
| Reservation.AcquiresAgreeIff | app/core/contracts.py:77-93 | both adapters answer an acquire alike, and remain alike exactly unless it renews an expired reservation that has a result |
| Reservation.CompletionsAgreeIff | app/core/contracts.py:95-98 | both adapters remain alike after a completion exactly unless it differs from the reservation in its expiry alone and brings a reply not yet stored |
| Reservation.AdaptersAgree | app/core/contracts.py:66-98 | on runs without expiry the in-memory adapter refines the SQL store |
| Reservation.StaleReplayAfterExpiry | app/core/contracts.py:79-81 | after a renewal the in-memory adapter replays the expired result while the SQL store reports progress |

## Left out

- Backtest.RunBacktest: its result has the state of the run and the comparison series, but not the metrics and the segment metrics, which `Returns` and `Metrics` model by themselves.
- The dates and labels that the points of the comparison series carry. Whether there is a secondary series depends on a close on every trading date, later ones included.
- Returns.CalculateMetrics: leaves out the win rate, profit and loss ratio, holding days, Sharpe ratio and industry exposure: averages over the modelled matches, and a floating-point square root.
- Sizing.QuantityIsGreatest: of limits whose target value and risk ratio are not negative; with others nothing is allowed, and no quantity is positive (`Sizing.QuantityPositiveIff`).
- JobRows.ClaimIs: over rows with run ids of their own, which the store's primary key ensures; so are `JobRows.RequeueIs`, `TableRows.StatementDoes`, `TableRows.TaskDoes` and `StepRows.StepDoes`.
- Hashes, JSON snapshots, versions and the strategy registry beyond the parameter ranges its contracts admit; nothing proved rests on them.
- Rounding of the 28-digit decimal context.
- Checks of side, financing, leverage, short-selling and account-type strings, which only refuse: the model's sides are an enumeration and its accounts are cash accounts.
- A lot size of zero or below: the original divides by it or does not end; the model's limits have a positive one.
- A run with zero initial equity, which the original stops at its first division by the high-water mark, is refused by the model's preparation like a negative one.
- The order in which a day's bars are iterated does not matter and is left open; the price and costs of a fill are one optional value.
- Division by a zero price, average or amount is an error of the run in the model as in the original, without its exception type.
- Parsing of the rule and cost configuration, and the choice of default limits from the initial equity; the job kind and business date of a job row, and the page filter on the date.
- The bars of a run come as a sequence with their eligibility already decided; `Eligibility` models that decision, and the joins and queries that load the rows are not modelled.
- Eligibility.StreamingRefinesSelector: assumes rows in query order, one per security and date, and that both sides see the same status rows; upper-casing is modelled for ASCII letters.
- Parsing of booleans, dates and amounts from provider rows in the selector; the mapping form of its status history.
- Providers, sessions, queues, HTTP routing, audit records, and the staleness clock of a queued job: the protocol's steps may come at any time.
- JobProtocol.AttemptHistories: holds of careful interleavings, since without care it is false (`JobCare.CarelessStepBreaks`, `JobHazards`); the conditions of care are stated on the store, and the code does not check them.
- JobProtocol.SucceededIsFinal: of careful interleavings likewise.
- A requeue's error path after a failed enqueue is the step of a failed dispatch.
- In the SQL store a failed row of a job that is no provider import is reused in place by an append; `ActiveJobs` models that, the attempt histories of `JobProtocol` are those of the append-only in-memory store.
- Transaction isolation beyond one statement: every statement of the SQL store is atomic and reads may be stale.
- Recovery.FailAbandonedProviderJobs: one clock reading for the whole loop, and distinct run ids, which the store's primary key ensures.
- Errors raised by the SQL store's completion of a mismatching request are silent in the in-memory adapter; only the stored results are compared.
- The engine-v1 runner, the fixture daily flow and manual execution accounting.
