# Verified model of the trading stack

This project models the deterministic core of the `agentic_investing` platform in Dafny and proves what its
documentation and tests promise of it. Every stateful component is a class whose methods are proved equal to a
specification function on plain values; the theorems are lemmas about those functions over every run.

- **Execution boundary**: the kill switch and sizing (`Risk`, `RiskLaws`), the cash and position ledger (`PaperBroker`,
  `LedgerLaws`), the gate in front of it (`OrderManager`), drawdown and returns (`Metrics`).
- **Two engines for one strategy**: the strategies (`Strategies`), the inline backtest loop (`Backtester`,
  `BacktesterLaws`), the event-driven session (`ShadowSession`), and the exact condition under which the session
  simulates the backtester (`Simulation`). `ProposalExecutor` is the agent's executor over the same broker.
- **In prices, dates and words**: the laws that say what the specification functions mean without naming them. One
  order (`SettlementLaws`), every trade of a backtest (`BacktestTrades`), one bar of the session (`ShadowBars`), one
  marking or proposal (`ExecutorLaws`), the broker's rows (`KiteLaws`), the indicators (`IndicatorLaws`), and the
  portfolio loop's signals (`PortfolioSignals`), fills (`PortfolioFills`) and levels (`PortfolioPrices`).
- **Crash recovery**: the attempt store and the live adapter (`OrderStore`, `KiteBroker`), their protocol as a step
  system with crashes and restarts (`KiteProtocol`), and the startup report (`Reconciliation`).
- **Portfolio loop**: the windowed indicators and their incremental form (`Indicators`, `IndicatorCache`), the weekly
  filter (`WeeklyFilter`), the multi-instrument loop as specification (`Portfolio`) and as the running class
  (`PortfolioRun`), the loading of what it replays (`PortfolioLoad`), and its laws: what one order does to a
  many-instrument ledger (`LedgerEffects`), the books (`PortfolioBooks`), every step and phase (`PortfolioSteps`,
  `PortfolioPhases`), whole runs (`PortfolioLaws`, `PortfolioProgress`, `PortfolioCosts`), its entries and exits
  (`PortfolioTrades`), every profit and record traced to its orders (`PortfolioTrace`, `PortfolioRecords`), the
  pyramids (`PortfolioPyramids`), the cooldown (`PortfolioCooldown`) and the ranking (`PortfolioRanking`).

`Prelude`, `OrderedDict`, `Models` and `SingleInstrument` are shared vocabulary. `dafny verify dfyconfig.toml` checks
everything.

## Conventions

- `Decimal` is `real`, without rounding. A datetime is an instant in seconds with its calendar date. An order id is
  its instrument, instant and purpose. A Python exception is the `Err` of a `Result`; where a call can raise part of
  the way, its specification says what state it leaves.
- A dict whose iteration order matters is an insertion-ordered `Dict`.
- Prices times quantities and rates are wrapped in `Notional` and `Fee`, so that most proofs never see a product.
- The portfolio theorems assume one bar per instrument and time and events in order, which holds of everything loaded
  (`LoadedIsProper`), bars filed under their own instrument, and no two instruments with one position key. They hold of
  every run that does not raise; `CostsBoundExactly` says for which costs no run over positive prices does.

## Where the code differs from its description

The model follows the code; each point has a concrete input and an exact condition.

- src/agentic_investing/execution/paper_broker.py:15-20 says that orders that would produce negative cash are rejected.
  Sales are not checked: with a commission rate above 1, which the constructor accepts, a sale overdraws the account
  (`OverdraftRun`, `CashSafetyExactly`).
- src/agentic_investing/execution/kite_broker.py:243-246 says that fills are resynced to the broker's state on every
  call. A row that reports no fill, or no price, leaves an earlier fill in place (`StaleFillSurvives`,
  `ResyncIsExactWhen`).
- src/agentic_investing/shadow/session.py:290-300 mirrors the backtester's signals, and
  tests/test_shadow_session.py:260 says the same of stops and targets. A bar that fills an entry and reaches its stop
  or target closes the position in the backtester only (`FallingEntryBarDiverges`, `SessionSimulatesBacktester`), and
  from slippage one on the session's broker raises on an exit the backtester books (`RefusedExitIsBooked`).
- The maximum drawdown of src/agentic_investing/backtesting/metrics.py:32-41 is the deepest fall of the curve only
  while no point is negative (`DrawdownMissesAFall`, `DeepestFallExactly`).

- src/agentic_investing/portfolio/technical_only.py:516-520 compares the weekly average with what it names the prior
  average. That one sums only the closes of the slope lookback and divides by the whole period, so a falling average
  passes (`FallingAverageIsConfirmed`); `ConfirmationMeans` is the exact condition.

## Model

| member | source | states |
|---|---|---|
| `Metrics.ComputeMaxDrawdown` | src/agentic_investing/backtesting/metrics.py:32-41 | The one-pass loop returns the drawdown of the whole curve |
| `Metrics.DrawdownIsAttained` | src/agentic_investing/backtesting/metrics.py:32-41 | On every curve the drawdown is zero or the relative fall between two of its points |
| `Metrics.DrawdownIsDeepestFall` | src/agentic_investing/backtesting/metrics.py:32-41 | On a curve without negative points it bounds every fall from a positive point, so it is the deepest one |
| `Metrics.DrawdownMissesAFall` | src/agentic_investing/backtesting/metrics.py:32-41 | With a negative point the running peak hides a deeper fall: the curve 1, 2, -1 |
| `Metrics.DeepestFallExactly` | src/agentic_investing/backtesting/metrics.py:32-41 | On the curves the metrics accept, the drawdown is the deepest fall exactly when the last point is not negative or all earlier points are equal |
| `Metrics.CheckedReturns` | src/agentic_investing/backtesting/metrics.py:69-78 | Period returns, or an exception exactly when a point that a later one is compared with is not positive |
| `Risk.RiskEngine.MarkToMarket` | src/agentic_investing/risk/engine.py:59-88 | One mark: peak, baselines and switch move as specified; a negative equity raises and changes nothing |
| `Risk.RiskEngine.ResetKillSwitch` | src/agentic_investing/risk/engine.py:90-107 | A reset clears the switch, restarts the peak at the current equity and logs the reason; a blank reason raises |
| `Risk.RiskEngine.EvaluateNewPosition` | src/agentic_investing/risk/engine.py:110-133 | The reasons are empty exactly when the switch is clear, both losses are under their limits and there is room for a position |
| `Risk.KillSwitchIsDrawdownSinceReset` | src/agentic_investing/risk/engine.py:71-107 | After any interleaving of marks and resets the switch is tripped exactly when the drawdown of the marks since the last reset has reached the hard fraction |
| `Risk.KillSwitchIsSomeFall` | src/agentic_investing/risk/engine.py:82-88 | ... equivalently, when some mark since the reset lies that far below an earlier one |
| `Risk.LossBaselines` | src/agentic_investing/risk/engine.py:68-78 | After any run the daily (monthly) baseline is the first mark of the longest suffix sharing the current date (month), and the daily one is never the earlier of the two |
| `Risk.MonthContainsDay` | src/agentic_investing/risk/engine.py:68-78 | The suffix of marks sharing the last date lies inside the one sharing the last month |
| `RiskLaws.TripIsExplained` | src/agentic_investing/risk/engine.py:82-107 | After any run of marks and resets the switch carries a reason exactly while it is tripped: the hard fraction, and how far the first mark since the reset to reach it lay below the peak |
| `RiskLaws.ReasonsNameTheBreach` | src/agentic_investing/risk/engine.py:110-133 | A reason is given exactly when its own condition holds, with the loss or the count that breaches the limit, written as a fraction of the capital |
| `RiskLaws.LogKeepsReasons` | src/agentic_investing/risk/engine.py:90-108 | Over every run the log keeps each accepted reset reason, without the white space around it, in order |
| `Risk.SizeByWeightIsMaximal` | src/agentic_investing/risk/engine.py:164-194 | The weight-based size is the greatest number of shares within the single-position, deployment and cash-with-commission bounds |
| `Risk.SizeNewPositionIsMaximal` | src/agentic_investing/risk/engine.py:135-162 | The risk-based size is the greatest number also within the risk budget, hence never above the weight-based size |
| `Risk.SizeIsAffordable` | src/agentic_investing/risk/engine.py:146-162 | Any quantity up to the size can be paid for, commission included |
| `PaperBroking.PaperBroker.Create` | src/agentic_investing/execution/paper_broker.py:22-31 | A broker starts with its cash; a negative amount or rate raises |
| `PaperBroking.PaperBroker.PlaceOrder` | src/agentic_investing/execution/paper_broker.py:33-60 | A repeated id returns its order and changes nothing, a non-positive price raises, anything else is filled or rejected as specified |
| `PaperBroking.PaperBroker.FillBuy` | src/agentic_investing/execution/paper_broker.py:84-103 | An affordable purchase is filled and paid for with commission, any other is rejected |
| `PaperBroking.PaperBroker.FillSell` | src/agentic_investing/execution/paper_broker.py:105-126 | A covered sale is filled and credited less commission, any other is rejected |
| `PaperBroking.PaperBroker.ApplyPositionDelta` | src/agentic_investing/execution/paper_broker.py:128-142 | Purchases average the price of a position, sales keep it |
| `PaperBroking.PaperBroker.CancelOrder` | src/agentic_investing/execution/paper_broker.py:62-70 | Every order is settled when placed, so cancelling always raises and changes nothing |
| `SettlementLaws.PurchaseSettles` | src/agentic_investing/execution/paper_broker.py:33-60 | A new purchase costs price x quantity plus that times the rate; it is filled once, at once and in full exactly when the cash covers it, and the average price becomes the mean cost of the shares; otherwise only a rejection with both amounts joins the book |
| `SettlementLaws.SaleSettles` | src/agentic_investing/execution/paper_broker.py:105-126 | A new sale earns price x quantity less that times the rate, and is filled exactly when the shares are held; the average price stays |
| `SettlementLaws.PositionsAreKeptByName` | src/agentic_investing/execution/paper_broker.py:144-146 | Two instruments of an exchange share a position exactly when their names differ at most in the case of their letters |
| `LedgerLaws.OrderConserves` | src/agentic_investing/execution/paper_broker.py:33-60 | One order moves cash + positions at cost + commissions paid by exactly the profit it realises |
| `LedgerLaws.LedgerConservation` | src/agentic_investing/execution/paper_broker.py:84-142 | Over any run of purchases, partial and full sales, rejections, repeats and cancellations: cash + positions at average cost + commissions = initial cash + realised profit |
| `LedgerLaws.CashSafetyExactly` | src/agentic_investing/execution/paper_broker.py:105-126 | Cash is never negative over all runs exactly when the commission rate is at most 1 or there was no cash |
| `LedgerLaws.OverdraftRun` | src/agentic_investing/execution/paper_broker.py:105-126 | Above a rate of 1, buying one share and selling it back overdraws any account |
| `LedgerLaws.AverageIsBetweenPricesPaid` | src/agentic_investing/execution/paper_broker.py:128-142 | Quantities never go negative, and the average price lies between the purchase prices since the position was last flat |
| `OrderManaging.OrderManager.SubmitBuy` | src/agentic_investing/execution/order_manager.py:42-109 | A known id returns its order; a blocked, unsized or zero-sized purchase returns reasons; the rest is placed |
| `OrderManaging.OrderManager.SubmitSell` | src/agentic_investing/execution/order_manager.py:111-141 | Closing is never gated: the sale is placed whatever the switch and the losses say |
| `OrderManaging.OrderManager.Reconcile` | src/agentic_investing/execution/order_manager.py:143-156 | In paper mode no order is ever left unsettled |
| `SettlementLaws.GatedBuySettles` | src/agentic_investing/execution/order_manager.py:65-109 | A new purchase buys the greatest number of shares within the budget, the capital bounds and the cap, exactly when the gate is open and one share fits; otherwise nothing moves and the reasons are those of the gate, the cap or the size |
| `SettlementLaws.SaleSubmissionSettles` | src/agentic_investing/execution/order_manager.py:111-141 | A new sale is filled when the shares are held, whatever the risk engine says, and rejected with the reason otherwise |
| `OrderManaging.PositionsNeverExceedLimit` | src/agentic_investing/execution/order_manager.py:65-109 | Over every run of gated purchases, sales, marks and resets, at most max_positions positions are open |
| `OrderManaging.EveryFilledBuyWasApproved` | src/agentic_investing/execution/order_manager.py:65-109 | Every filled purchase was submitted at a step at which the switch was clear and both losses were under their limits |
| `OrderManaging.ResubmissionChangesNothing` | src/agentic_investing/execution/order_manager.py:65-68 | Over every run: once an order is on the book it is settled for good, and however many events later its id is submitted again, purchase or sale, the whole desk stays as it is and that same order is returned |
| `OrderManaging.SizedBuyIsFilled` | src/agentic_investing/execution/order_manager.py:77-107 | A purchase sized with the broker's own commission rate is filled, never rejected for cash |
| `Strategies.DecisionReadsOnlyItsWindow` | src/agentic_investing/strategies/sma_crossover.py:59-81 | For both strategies a decision reads only the last warm-up bars ending at its index, and before that there is none |
| `Strategies.DecisionIsCausal` | src/agentic_investing/strategies/donchian_breakout.py:32-56 | For both strategies histories that agree up to an index decide alike there, whatever comes later |
| `Strategies.SignalFitsHolding` | src/agentic_investing/strategies/donchian_breakout.py:41-56 | A purchase is proposed only when flat, a sale only when holding |
| `Strategies.CrossoverPointsWithTheTrend` | src/agentic_investing/strategies/sma_crossover.py:59-81 | A crossover proposes a purchase exactly when flat and the mean of the last fast closes is above that of the last slow ones, and a sale exactly when holding and it is below |
| `Strategies.BreakoutPointsOut` | src/agentic_investing/strategies/donchian_breakout.py:32-56 | A breakout proposes a purchase exactly when flat and the close is above every high of the lookback before it, and a sale exactly when holding and it is below every low |
| `Strategies.SignalReports` | src/agentic_investing/strategies/donchian_breakout.py:32-56 | A signal carries its bar's instrument, time and close, and the two means, or the highest high and lowest low, of its lookback |
| `Strategies.GenerateSignals` | src/agentic_investing/strategies/sma_crossover.py:83-106 | The loop lists the signals of its decisions with the position it implies; a bad start index raises |
| `Strategies.SignalsAlternate` | src/agentic_investing/strategies/sma_crossover.py:83-106 | The list starts with a purchase and alternates |
| `Backtesting.Backtester.Create` | src/agentic_investing/backtesting/engine.py:110-114 | Limits for another capital are refused |
| `Backtesting.Backtester.ValidateInput` | src/agentic_investing/backtesting/engine.py:320-336 | Accepts exactly the strictly chronological bars of one instrument with consistent positive prices |
| `Backtesting.Backtester.TryEntry` | src/agentic_investing/backtesting/engine.py:155-186 | The entry part of a bar: gated, sized, paid for |
| `Backtesting.Backtester.TryExit` | src/agentic_investing/backtesting/engine.py:188-232 | Stop before target before sale signal, on the entry bar too |
| `Backtesting.Backtester.ClosePosition` | src/agentic_investing/backtesting/engine.py:271-318 | A closed trade and the cash it leaves |
| `Backtesting.Backtester.Run` | src/agentic_investing/backtesting/engine.py:116-269 | The whole loop computes the specified result, exceptions included |
| `BacktestLaws.RunStaysSolvent` | src/agentic_investing/backtesting/engine.py:141-238 | With slippage and commission below one no valid input raises, cash is never negative and every equity point is positive |
| `BacktestLaws.RunStaysBalanced` | src/agentic_investing/backtesting/engine.py:141-238 | On any input: cash + the open position at cost = initial capital + net profits so far |
| `BacktestLaws.RunStaysInOrder` | src/agentic_investing/backtesting/engine.py:141-238 | Trades satisfy entry <= exit < next entry |
| `BacktestLaws.BacktestAccounting` | src/agentic_investing/backtesting/engine.py:240-269 | Final capital = initial + sum of net profits, the curve has one positive point per bar plus one and ends at the final capital, and the metrics error is unreachable |
| `BacktestLaws.StateReadsNoLaterBar` | src/agentic_investing/backtesting/engine.py:141-154 | Inputs that agree on the bars before k put the run in the same state there |
| `BacktestLaws.EntryReadsOnlyTheOpen` | src/agentic_investing/backtesting/engine.py:147-186 | Whether and at what size bar k is entered depends on bar k only through its open |
| `BacktestLaws.NoLookAhead` | src/agentic_investing/backtesting/engine.py:141-252 | Two inputs that agree on the bars before k report the same equity points and closed trades up to there, forced liquidation aside |
| `BacktestTrades.RunIsExplained` | src/agentic_investing/backtesting/engine.py:141-238 | At every bar of every run: a held position was bought on a signal of the bar before, approved, at the slipped open and the greatest allowed size, with its stop at entry x (1 - stop_loss_distance_fraction) and its target at entry x (1 + that x reward/risk), and no bar since has reached either; every trade left at the first bar that did, or on a sale signal, at the stated price, and accounts for its costs |
| `BacktestTrades.PurchasesAreTaken` | src/agentic_investing/backtesting/engine.py:155-186 | A purchase signal on a flat, approved run with room for one share opens a position on that bar |
| `BacktestTrades.BarIsMarked` | src/agentic_investing/backtesting/engine.py:141-146 | Each bar marks the risk engine with cash and shares at the open, and adds to the curve cash and shares at the close |
| `BacktestTrades.LastPositionIsLiquidated` | src/agentic_investing/backtesting/engine.py:240-269 | What is still held is sold at the slipped last close; the last curve point becomes the cash, and the report is of that curve and of the switch as the run left it |
| `BacktestTrades.AcceptedInputs` | src/agentic_investing/backtesting/engine.py:320-336 | The accepted inputs are those whose bars enclose their prices, are of one series, are visible no earlier than their time, and are each later than all before |
| `ShadowTrading.ShadowTradingSession.Create` | src/agentic_investing/shadow/session.py:88-117 | Limits for another capital are refused |
| `ShadowTrading.ShadowTradingSession.MarkStale` | src/agentic_investing/shadow/session.py:119-131 | An explicit stale mark suppresses the next bar's entries; a blank reason raises |
| `ShadowTrading.ShadowTradingSession.OnBar` | src/agentic_investing/shadow/session.py:133-288 | One bar through the gap check, the mark, the exits and the signal, with the state an exception part of the way leaves |
| `ShadowTrading.ShadowTradingSession.CheckExits` | src/agentic_investing/shadow/session.py:194-236 | Stop before target for the position held |
| `ShadowTrading.ShadowTradingSession.ActOnSignal` | src/agentic_investing/shadow/session.py:237-288 | Unless an exit fired, act on the pending signal |
| `ShadowTrading.StaleBarBuysNothing` | src/agentic_investing/shadow/session.py:155-175 | A bar that comes more than max_bar_gap after the last one, or after a stale mark, fills no purchase, whatever the strategy says |
| `ShadowTrading.StalenessSparesPositions` | src/agentic_investing/shadow/session.py:182-193 | A session that holds a position handles a stale bar exactly as a fresh one: exits are never suppressed |
| `ShadowBars.ForeignBarIsRefused` | src/agentic_investing/shadow/session.py:144-153 | A bar of another instrument or exchange than the first raises and changes nothing |
| `ShadowBars.GapsAreReportedExactly` | src/agentic_investing/shadow/session.py:155-175 | A data gap is logged exactly when more than max_bar_gap has passed since the last bar; every bar joins the history, becomes the last one and clears the stale mark; its event says that an entry was suppressed exactly when a gap or a stale mark met a purchase signal |
| `ShadowBars.HeldBarAsTold` | src/agentic_investing/shadow/session.py:175-288 | A bar on a held position marks the equity at its open and sells everything exactly when its low reaches the stop, else its high the target, else the last decision was to sell, each at its stated price with the proceeds less commission; stale feed or not |
| `ShadowBars.FlatBarAsTold` | src/agentic_investing/shadow/session.py:237-288 | A bar on a flat session buys exactly when the last decision was to buy, no gap or stale mark stands, and gate and bounds allow a share: the greatest allowed number, at the slipped open, with both levels around that price; otherwise nothing moves, and a blocked purchase is logged |
| `ShadowBars.BarKeepsLevels` | src/agentic_investing/shadow/session.py:237-288 | Whatever a bar does, the stop and the target tracked are those of the average price of what is held after it, and a flat session tracks none |
| `SessionSimulatesBacktest.BarSimulates` | src/agentic_investing/shadow/session.py:133-288 | From matching states, for every configuration: the session raises on a bar exactly when the backtester does or the bar makes a position leave at a price that is not positive; otherwise they still match exactly when the bar does not exit its own entry |
| `SessionSimulatesBacktest.SessionSimulatesBacktester` | src/agentic_investing/shadow/session.py:133-288 | For every configuration, on a strictly chronological, gap-free feed: session and backtester agree on cash, position, exit levels and risk state after every bar exactly when no bar exits the entry it fills, and none makes a position leave with slippage of one or more |
| `SessionSimulatesBacktest.FallingEntryBarDiverges` | src/agentic_investing/backtesting/engine.py:188-214 | Literal bars and settings on which the engines agree until the third bar, where the backtester stops out the entry it has just filled |
| `SessionSimulatesBacktest.FallingEntryBarExits` | src/agentic_investing/backtesting/engine.py:188-214 | Every bar that fills an entry and whose low reaches its stop exits that entry, so the engines part on it |
| `SessionSimulatesBacktest.RefusedExitIsBooked` | src/agentic_investing/shadow/session.py:194-206 | From slippage one on, a bar that makes a position leave raises in the session, while the backtester books the exit |
| `ProposalExecuting.ProposalExecutor.Create` | src/agentic_investing/agent/executor.py:76-101 | Limits for another capital are refused |
| `ProposalExecuting.ProposalExecutor.MarkToMarket` | src/agentic_investing/agent/executor.py:107-176 | Marks, then enforces the tracked stop before the tracked target |
| `ProposalExecuting.ProposalExecutor.Execute` | src/agentic_investing/agent/executor.py:178-298 | A proposal is held, refused, or sent through the gate; a filled purchase sets the levels, a sale clears them |
| `ProposalExecuting.AgentNeverWidensItsRisk` | src/agentic_investing/agent/executor.py:216-254 | Over every run of increasing bars with at most one proposal each: levels are tracked exactly while a position is open, the stop is at or above entry x (1 - d), the target at or below entry x (1 + d x reward/risk) |
| `ProposalExecuting.PurchaseStaysGuarded` | src/agentic_investing/agent/executor.py:216-254 | A purchase from flat opens nothing, or a position whose levels are at least as tight as the defaults |
| `ProposalExecuting.MarkingStaysGuarded` | src/agentic_investing/agent/executor.py:107-176 | Marking keeps the levels guarded and spends only this bar's exit ids |
| `ProposalExecuting.SurvivorsStayedAboveTheStop` | src/agentic_investing/agent/executor.py:124-176 | If a position survives the marking of a bar, the bar's low was above entry x (1 - d) |
| `ExecutorLaws.MarkingActsOnLevels` | src/agentic_investing/agent/executor.py:107-176 | Marking sells a held position exactly when the low is at or below the tracked stop, else the high at or above the tracked target, at the worse of open and stop or the better of open and target, less slippage |
| `ExecutorLaws.ProposalActs` | src/agentic_investing/agent/executor.py:178-298 | A foreign proposal raises; a hold moves nothing; a purchase is refused while holding and else buys the greatest allowed number exactly when gate and bounds allow one, with the nearer of the agent's and the configured levels; a sale is refused when flat and else sells everything below the open |
| `OrderStoring.OrderStore.BeginAttempt` | src/agentic_investing/execution/order_store.py:73-79 | An attempt is persisted under the id's tag |
| `OrderStoring.OrderStore.MarkSubmitted` | src/agentic_investing/execution/order_store.py:81-85 | The submission is persisted with the broker's id; an unknown id raises |
| `OrderStoring.OrderStore.MarkTerminal` | src/agentic_investing/execution/order_store.py:87-90 | The terminal state is persisted; an unknown id raises |
| `KiteBroking.KiteBrokerAdapter.PlaceOrder` | src/agentic_investing/execution/kite_broker.py:105-154 | Cached, recovered by tag, or freshly submitted under a persisted attempt, whatever becomes of the call |
| `KiteBroking.KiteBrokerAdapter.RecoverFromBroker` | src/agentic_investing/execution/kite_broker.py:213-221 | The first row of the book with the tag, or none |
| `KiteBroking.KiteBrokerAdapter.Hydrate` | src/agentic_investing/execution/kite_broker.py:68-103 | The cache rebuilt from the stored tags and the last row of each |
| `KiteBroking.RowsByTag` | src/agentic_investing/execution/kite_broker.py:86-90 | The book by tag, a later row replacing an earlier one |
| `KiteBroking.KiteBrokerAdapter.CancelOrder` | src/agentic_investing/execution/kite_broker.py:156-168 | Cancels an open order and marks it terminal; unknown, settled or idless orders raise and change nothing |
| `KiteBroking.KiteBrokerAdapter.RefreshOrder` | src/agentic_investing/execution/kite_broker.py:173-186 | Re-reads an order from the broker and records a terminal status |
| `KiteLaws.RefreshReadsTheRow` | src/agentic_investing/execution/kite_broker.py:173-186 | A refreshed order is FILLED exactly when its last row says COMPLETE, REJECTED exactly on REJECTED, CANCELLED exactly on CANCELLED, in any case, and SUBMITTED otherwise; its message and its priced fill are the row's, the store marks it terminal exactly on those three words, and nothing else moves |
| `KiteLaws.RetryReadsTheRow` | src/agentic_investing/execution/kite_broker.py:213-221 | A retried call takes the first row with its stored tag as its own order, in the state that row shows |
| `KiteLaws.HydrationReadsTheRow` | src/agentic_investing/execution/kite_broker.py:68-103 | Hydration gives each stored id the request and the state of the last row with its tag |
| `KiteLaws.OnlyTaggedRowsAreRestored` | src/agentic_investing/execution/kite_broker.py:86-103 | A fresh process restores an order only under a stored, tagged id and from a row with that tag |
| `KiteLaws.PlacingIsPersisted` | src/agentic_investing/execution/kite_broker.py:125-154 | After a call that found no order the store says how far it got: attempting with the tag, or submitted with the broker's id |
| `KiteLaws.CancelSettles` | src/agentic_investing/execution/kite_broker.py:156-168 | An accepted cancellation leaves the order cancelled in the cache and in the broker's row, and terminal in the store; a refused one changes nothing |
| `KiteLaws.CancelledStaysCancelled` | src/agentic_investing/execution/kite_broker.py:156-186 | A refresh after an accepted cancellation still shows the order cancelled |
| `KiteBroking.ResyncIsExactWhen` | src/agentic_investing/execution/kite_broker.py:235-258 | After a resync the recorded quantity is the broker's exactly when it already was, or the row reports a positive fill with a price: a stale fill outlives a row that reports none |
| `KiteProtocol.StaleFillSurvives` | src/agentic_investing/execution/kite_broker.py:248-258 | A run of the protocol after which the platform records one filled share of an order whose row reports two, without a price |
| `KiteProtocol.PlaceIsItsSteps` | src/agentic_investing/execution/kite_broker.py:125-154 | An uninterrupted call is its four steps, in the state it leaves and in what it returns: persist the attempt, call the broker, persist the submission, cache |
| `KiteProtocol.RunKeepsInv` | src/agentic_investing/execution/kite_broker.py:125-154 | Every step of every run, crashes and restarts included, keeps the invariant tying book, store, cache and owners |
| `KiteProtocol.AtMostOneOrderPerClient` | src/agentic_investing/execution/kite_broker.py:125-154 | Over every run with crashes between any two steps the book holds at most one order per client id |
| `KiteProtocol.CallsReturnOwnOrders` | src/agentic_investing/execution/kite_broker.py:125-154 | Every call that returns carries the broker id of its own row |
| `KiteProtocol.CollidingTagsMisattribute` | src/agentic_investing/execution/order_store.py:18-35 | If two client ids share a tag, an interrupted call recovers the other client's order as its own |
| `KiteProtocol.OwnOrdersExactlyWhenTagsAreDistinct` | src/agentic_investing/execution/order_store.py:18-35 | Every call of every run returns its own order exactly when the tag function is injective |
| `Reconciling.FirstRowIsLastRow` | src/agentic_investing/execution/kite_broker.py:213-221 | Recovery (first row) and hydration (last row) pick the same row for every client id |
| `Reconciling.RestartListsExactlyOwnOrders` | src/agentic_investing/execution/kite_broker.py:68-103 | After a crash at any point a fresh adapter that hydrates lists exactly the orders this platform ever sent, with the book's status |
| `Reconciling.RestartReportIsComplete` | src/agentic_investing/execution/reconciliation.py:46-51 | The startup report has no unsettled entry exactly when the row of every order this platform sent says COMPLETE, REJECTED or CANCELLED |
| `Reconciling.ReconcileStartupState` | src/agentic_investing/execution/reconciliation.py:32-75 | The report is clean exactly when no order is unsettled, every expected quantity matches and cash is within tolerance |
| `Indicators.ComputeAtr` | src/agentic_investing/features/technical.py:39-46 | The loop averages the last true ranges |
| `IndicatorLaws.TrueRangeIsExtent` | src/agentic_investing/features/technical.py:39-46 | The true range is how far a bar and the close before it reach: no two of high, low and previous close are further apart, and two of them are that far |
| `IndicatorLaws.AtrIsMeanExtent` | src/agentic_investing/features/technical.py:39-46 | The average true range is the mean of those extents over the lookback, and never below the mean move of the close |
| `IndicatorLaws.RsiIsNetOverTravel` | src/agentic_investing/features/technical.py:29-36 | The strength index is fifty plus fifty times the net move of the closes over their travel |
| `IndicatorLaws.SnapshotMeasures` | src/agentic_investing/features/technical.py:49-87 | There is a snapshot exactly when every lookback is full, and it holds the means of the last closes, the strength index, the mean extent and the last volume over the mean volume |
| `IndicatorCaching.IndicatorState.Update` | src/agentic_investing/portfolio/technical_only.py:575-609 | One bar slides every window and running sum to the windows and sums of the longer history |
| `IndicatorCaching.IndicatorState.ToSnapshot` | src/agentic_investing/portfolio/technical_only.py:611-636 | The running sums give the windowed snapshot, the missing-lookback answer included |
| `IndicatorCaching.SlidIsLastN` | src/agentic_investing/portfolio/technical_only.py:576-587 | Append and popleft keep the last n values of the series |
| `IndicatorCaching.GainsSumToRises` | src/agentic_investing/features/technical.py:29-36 | Summed gains and losses are the rises and falls of the windowed definition |
| `IndicatorCaching.MemoAnswersHistory` | src/agentic_investing/portfolio/technical_only.py:562-564 | A memoised answer for a history's last bar is the answer for the whole history |
| `IndicatorCaching.IndicatorCache.CatchUp` | src/agentic_investing/portfolio/technical_only.py:567-569 | However many bars were skipped, the state describes the whole history afterwards |
| `IndicatorCaching.IndicatorCache.TechnicalSnapshot` | src/agentic_investing/portfolio/technical_only.py:561-573 | However calls skip and catch up over append-only histories, the answer is the windowed definition's at the last bar |
| `WeeklyFiltering.WeeksAscend` | src/agentic_investing/portfolio/technical_only.py:525-531 | The weekly series comes out by ascending week, ending with the last bar's |
| `WeeklyFiltering.WeekClosesAreLast` | src/agentic_investing/portfolio/technical_only.py:524-531 | A week is in the series exactly when a bar falls in it, with the close of its last bar |
| `WeeklyFiltering.FullSeriesIsCausal` | src/agentic_investing/portfolio/technical_only.py:508-511 | The series of the full history, cut before the current week, is the series of the visible bars cut there |
| `WeeklyFiltering.WeeklyFilter.BisectLeft` | src/agentic_investing/portfolio/technical_only.py:510 | The cut before which every week is earlier and from which none is |
| `WeeklyFiltering.WeeklyFilter.WeeklyConfirmation` | src/agentic_investing/portfolio/technical_only.py:502-522 | Although it reads a series built with future bars and remembers one answer a week, it returns what the visible bars alone give |
| `WeeklyFiltering.ConfirmationMeans` | src/agentic_investing/portfolio/technical_only.py:511-520 | A confirmation is given exactly when the earlier weeks suffice, the last close is above the mean of the last period, and that period's closes add up to more than those of the lookback just before it |
| `WeeklyFiltering.FallingAverageIsConfirmed` | src/agentic_investing/portfolio/technical_only.py:516-520 | The closes 20, 10, 12 are confirmed with a period of two and a lookback of one although their average falls |
| `LedgerEffects.LookupFindsHeld` | src/agentic_investing/portfolio/technical_only.py:850-855 | Looking a position up by instrument finds exactly the held one |
| `LedgerEffects.FullSale` | src/agentic_investing/portfolio/technical_only.py:913-923 | The whole of one position sold is filled, moves no other position, and the worth gains the realised profit |
| `LedgerEffects.GatedPurchase` | src/agentic_investing/execution/order_manager.py:65-109 | Whatever gate and sizing decide, a submitted purchase is filled and a refused one moves no cash and no position |
| `PortfolioRunning.TechnicalOnlyBacktester.Create` | src/agentic_investing/portfolio/technical_only.py:196-229 | Limits for another capital are refused |
| `PortfolioRunning.TechnicalOnlyBacktester.EquityAt` | src/agentic_investing/portfolio/technical_only.py:857-872 | Cash plus the open positions at their last opens or closes |
| `PortfolioRunning.TechnicalOnlyBacktester.ApplyKillSwitchCooldown` | src/agentic_investing/portfolio/technical_only.py:638-664 | Remembers when the switch was first seen tripped, and resets it after the cooldown |
| `PortfolioRunning.TechnicalOnlyBacktester.Sell` | src/agentic_investing/portfolio/technical_only.py:897-936 | Sells through the manager, turns the instrument's entries into records and returns the profit |
| `PortfolioRunning.TechnicalOnlyBacktester.ExecutePending` | src/agentic_investing/portfolio/technical_only.py:677-768 | Carries out every pending action whose instrument has a bar, in order, as specified |
| `PortfolioRunning.TechnicalOnlyBacktester.ExecuteStopsAndTargets` | src/agentic_investing/portfolio/technical_only.py:795-848 | Stop, target or a raised trailing close for every position listed |
| `PortfolioRunning.TechnicalOnlyBacktester.SchedulePyramids` | src/agentic_investing/portfolio/technical_only.py:770-793 | Schedules an addition for every trending position past its trigger with additions left |
| `PortfolioRunning.TechnicalOnlyBacktester.TechnicalSnapshot` | src/agentic_investing/portfolio/technical_only.py:561-573 | Wherever the loop asks, the cache answers with the windowed indicators of the instrument's whole history |
| `PortfolioRunning.TechnicalOnlyBacktester.FillSlots` | src/agentic_investing/portfolio/technical_only.py:351-363 | Prunes the pacing window and schedules the best candidates for the free slots |
| `PortfolioRunning.TechnicalOnlyBacktester.Run` | src/agentic_investing/portfolio/technical_only.py:231-391 | The whole loop, reading its indicators from the incremental cache, computes the specified final state, exceptions included, down to the metrics' check of the curve; the specification reads the windowed indicators |
| `PortfolioLoading.Normalize` | src/agentic_investing/portfolio/technical_only.py:939-955 | Each instrument's bars in time order; a repeated timestamp, or no bar at all, raises |
| `PortfolioLoading.GroupByTime` | src/agentic_investing/portfolio/technical_only.py:256-260 | The bars of the window by their instant, instrument after instrument |
| `PortfolioLoading.LoadRaisesExactly` | src/agentic_investing/portfolio/technical_only.py:232-248 | Loading raises exactly when two bars of an instrument share an instant, there is no bar, or none lies in the window |
| `PortfolioLoading.LoadedMeetsTheLoop` | src/agentic_investing/portfolio/technical_only.py:235-289 | Everything that loads is what the loop and its indicator cache ask for: one instrument's bars in time order, events later and later |
| `PortfolioLoading.LoadedIsProper` | src/agentic_investing/portfolio/technical_only.py:235-289 | ... and what the portfolio theorems ask for, when the bars are filed under their own instrument and exchange |
| `PortfolioLoading.ReplayIsInput` | src/agentic_investing/portfolio/technical_only.py:251-289 | A replay gives each instrument exactly its input bars up to the end of the window, in time order, however unequal the histories; during it what is visible is a prefix of them, which the weekly filter relies on |
| `PortfolioLoading.RegimeIsReplayed` | src/agentic_investing/portfolio/technical_only.py:264-285 | The regime starts with its bars before the window, and each event brings exactly those of its own instant |
| `PortfolioLoading.WindowSpansTheBars` | src/agentic_investing/portfolio/technical_only.py:235-248 | Without a configured start or end the window includes every bar and no more |
| `PortfolioLoading.Backtest` | src/agentic_investing/portfolio/technical_only.py:231-391 | Loading and running together return the specified final capital or exception |
| `PortfolioBooks.SaleKeepsBooks` | src/agentic_investing/portfolio/technical_only.py:897-936 | A sale closes one position with one profit and one record, and keeps worth = initial capital + recorded profits |
| `PortfolioBooks.EntryKeepsBooks` | src/agentic_investing/portfolio/technical_only.py:736-768 | A filled entry adds one plan, one lot and one entry time; a refused one only the rejected order |
| `PortfolioBooks.PyramidKeepsBooks` | src/agentic_investing/portfolio/technical_only.py:712-735 | An addition changes no set of open positions, plans or entries |
| `PortfolioSteps.EntryKeepsPace` | src/agentic_investing/portfolio/technical_only.py:736-768 | A fill that uses up a pending purchase keeps every window within the limit |
| `PortfolioSteps.PruningKeepsPace` | src/agentic_investing/portfolio/technical_only.py:354-357 | Forgetting old entries forgets none that a later window could contain |
| `PortfolioPhases.PendingActsWell` | src/agentic_investing/portfolio/technical_only.py:692-768 | The pending phase keeps the loop invariant and spends only this event's ids of the actions it handled |
| `PortfolioPhases.ExitsAreWell` | src/agentic_investing/portfolio/technical_only.py:807-848 | The exit phase keeps it too, and touches only the positions it exits |
| `PortfolioPhases.FillingSlotsKeepsSteady` | src/agentic_investing/portfolio/technical_only.py:351-363 | Scheduling never exceeds the free places, nor the pacing limit |
| `PortfolioLaws.EventKeepsSteady` | src/agentic_investing/portfolio/technical_only.py:284-366 | Every event of a run keeps the loop invariant |
| `PortfolioLaws.CapacityAndPlans` | src/agentic_investing/portfolio/technical_only.py:351-363 | After every event, open positions + pending purchases <= max_positions, and plans and active entries exist for exactly the open instruments, one entry lot each |
| `PortfolioLaws.EntryRateIsLimited` | src/agentic_investing/portfolio/technical_only.py:354-363 | With pacing on, for every instant at most max_new_entries_per_period initial purchases fill in the period that ends there, however long they wait for a bar |
| `PortfolioLaws.ClosingIdentity` | src/agentic_investing/portfolio/technical_only.py:369-385 | A completed run ends flat with final capital = initial + sum of trade profits - commissions, pyramids included, and has as many profits and records as filled entries |
| `PortfolioTracing.SaleStaysTraced` | src/agentic_investing/portfolio/technical_only.py:897-936 | A sale adds one record and one profit, both of that sale: the record has the entry fill's price, time and shares and the sale's price, and the profit is the record's plus what the additions gained |
| `PortfolioTracing.FilledPyramidStaysTraced` | src/agentic_investing/portfolio/technical_only.py:712-735 | A filled addition is counted in the plan, and in the shares and the cost of its position |
| `PortfolioRecords.OpenPositionsAreTraced` | src/agentic_investing/portfolio/technical_only.py:712-768 | After every run an open position is its filled entry, the one lot, and the pyramid orders filled since, in shares and in cost; these are as many as the plan counts, and at most max_pyramid_additions |
| `PortfolioRecords.EveryEntryIsClosedOnce` | src/agentic_investing/portfolio/technical_only.py:897-936 | In a completed run the trade records are the filled entries one by one, each with one sale of its own: record i and profit i come from the same sale of the entry's shares and everything added since |
| `PortfolioRecords.RecordIsWholeProfitExactly` | src/agentic_investing/portfolio/technical_only.py:924-935 | Records name only the first lot: with additions all paid at one price, the record's profit is the trade's exactly when that was the exit price or nothing was added |
| `PortfolioProgress.RunCompletes` | src/agentic_investing/portfolio/technical_only.py:231-391 | Over positive prices, with slippage between -1 and 1 and commission below one, every non-empty run completes, the metrics' check included: one positive point per event plus one, the last the final cash |
| `PortfolioCostBound.CostsBoundExactly` | src/agentic_investing/portfolio/technical_only.py:231-391 | For capital-matching limits and any filters, every run over positive prices completes exactly when slippage is between -1 and 1 and commission is below one |
| `PortfolioCostBound.RuinousRun` | src/agentic_investing/portfolio/technical_only.py:385-391 | For every other setting, a concrete run over positive prices that raises |
| `PortfolioCooldown.TrippedPhaseBuysNothing` | src/agentic_investing/risk/engine.py:114-115 | While the switch is tripped no pending purchase or pyramid is filled |
| `PortfolioCooldown.CooldownSafety` | src/agentic_investing/portfolio/technical_only.py:292-310 | Every automatic reset comes at least the configured days after an event from which on the switch was tripped and nothing was bought at every event |
| `PortfolioCooldown.ResetsAreApart` | src/agentic_investing/portfolio/technical_only.py:652-664 | Two automatic resets are more than the cooldown apart |
| `PortfolioPrices.CooldownTold` | src/agentic_investing/portfolio/technical_only.py:638-664 | The switch is reset exactly when it is tripped and was first seen tripped at least the configured days of 86400 seconds before |
| `PortfolioTrades.EntryOpensOneLot` | src/agentic_investing/portfolio/technical_only.py:736-768 | A position an entry opens has one lot, the whole of it, at the slipped open it was bought for, and the candidate's levels as its plan |
| `PortfolioTrades.ExitsAreExact` | src/agentic_investing/portfolio/technical_only.py:807-848 | The exit phase closes exactly the listed positions whose bar reaches their stop level (the plan's, or the trailing one when higher) or target, and leaves every other plan alone |
| `PortfolioSignals.HeldPositionsPend` | src/agentic_investing/portfolio/technical_only.py:322-349 | After every event a held position with a bar is to be sold exactly when the lookbacks are full and the mean of its last fast closes is below that of the last slow ones, and added to exactly when it is above, the plan has room and the close is the trigger's number of mean extents above the average price |
| `PortfolioSignals.WithoutABarNothingPends` | src/agentic_investing/portfolio/technical_only.py:332-349 | An instrument without a bar keeps what was pending for it and gets nothing new |
| `PortfolioSignals.CandidatesInPrices` | src/agentic_investing/portfolio/technical_only.py:330-349 | The candidates are exactly what a current bar makes of an instrument that is not held, in the universe and allowed by the regime: scored, with a positive range, its stop the configured number of mean extents below the close and its target that distance times the reward/risk multiple above |
| `PortfolioFills.TrendSalesHappenExactly` | src/agentic_investing/portfolio/technical_only.py:692-711 | In every event a trend sale is placed exactly when one was pending for a held instrument with a bar; the whole position leaves, at that bar's open less slippage |
| `PortfolioFills.FallingPositionsAreSoldNext` | src/agentic_investing/portfolio/technical_only.py:339-342 | Over two events: a position with a bar in both is sold out of trend on the second exactly when its closes up to the first were falling, whole, at the second open less slippage |
| `PortfolioPrices.ExitsHappenAtLevels` | src/agentic_investing/portfolio/technical_only.py:795-848 | In every event a position with a bar leaves exactly when the low is at or below its stop, the plan's or some mean extents below the highest close, or else the high at or above its target, at the stated price; one that stays has its highest close raised when it trails |
| `PortfolioFills.WholeSale` | src/agentic_investing/portfolio/technical_only.py:897-936 | A whole position sold leaves its proceeds less commission, one profit over its average price, the record of its lot, and no plan |
| `PortfolioPrices.EntryTold` | src/agentic_investing/portfolio/technical_only.py:736-768 | A pending entry buys exactly when gate and bounds allow a share: the greatest allowed number at the slipped open, risking the distance from the candidate's close to its stop, with the candidate's plan, one lot and its time; otherwise nothing moves |
| `PortfolioPrices.AdditionTold` | src/agentic_investing/portfolio/technical_only.py:712-735 | A pending addition buys exactly when gate and bounds allow a share, up to the whole shares in the fraction of what is held and at least one, and the plan counts one more; otherwise nothing moves |
| `PortfolioPrices.FinalSaleTold` | src/agentic_investing/portfolio/technical_only.py:369-385 | What is open at the end is sold whole, a slippage below its last close |
| `PortfolioPrices.EventIsMarked` | src/agentic_investing/portfolio/technical_only.py:284-366 | Each event marks the engine with cash and shares at the current opens before anything trades, and adds to the curve cash and shares at the closes after everything has |
| `PortfolioPrices.UniverseIsRebalanced` | src/agentic_investing/portfolio/technical_only.py:325-328 | Every so many events the universe is ranked anew on the histories with this event's bars, and the count starts again |
| `PortfolioPrices.FirstEventRanks` | src/agentic_investing/portfolio/technical_only.py:278-328 | The first event of a run ranks the universe |
| `PortfolioPyramids.PyramidsAreBounded` | src/agentic_investing/portfolio/technical_only.py:712-735 | Over every run no open position has been added to more than max_pyramid_additions times |
| `PortfolioRanking.SlotsGoToTheBest` | src/agentic_investing/portfolio/technical_only.py:322-363 | In every event the purchases scheduled are the best of the event's candidates, as many as there are free slots: none left out has a higher score, or an equal one and an earlier name |
| `PortfolioPrices.SlotsAreTheRoom` | src/agentic_investing/portfolio/technical_only.py:351-361 | The slots are the most purchases for which open positions and pending purchases stay within max_positions and, with pacing, within the period's limit |
| `PortfolioPrices.PruningDropsTheOld` | src/agentic_investing/portfolio/technical_only.py:354-357 | Pruning drops the leading entries older than the window and stops at the first that is not |

## Left out

- Decimal's 28-digit rounding: arithmetic is exact.
- Aliasing of `Order` objects: an order returned by the broker is a value, so a caller's copy does not change later.
- Order ids as strings: their parts are kept apart, so two different orders cannot spell the same id by accident.
- SHA-256: the tag function is a parameter, injective where a theorem needs it (`OwnOrdersExactlyWhenTagsAreDistinct`
  says what injectivity is worth). The atomic file rename of the store is one step.
- The broker's own behaviour beyond an append-only book whose rows may change status and fills, and a submission that
  is recorded or not, answered or not. Positions and margins are arguments of the report.
- Candidate gates, universe ranking and market regime in the portfolio loop (technical_only.py 419-500, 533-559,
  666-675): arbitrary functions of what the source passes them, so the portfolio theorems hold for all of them. The
  stop, the target and the ATR guard of a candidate are modelled.
- Bars filed under another instrument's key: the source groups by the key in some places and by the bar in others.
- The weekly filter inside the loop: it is one of the candidate gates. That its precondition holds there is
  `ReplayIsInput`.
- Allocation snapshots, CAGR, Sharpe, volatility and annualised return: of the metrics, only the drawdown and the
  check of the equity points.
- Metrics.DrawdownIsDeepestFall: asks for a curve without negative points, because it fails with one
  (`DrawdownMissesAFall`; `DeepestFallExactly` has the exact condition on accepted curves).
- PortfolioLaws.ClosingIdentity: says nothing of a run that raises; `CostsBoundExactly` says when none does.
- Sector exposure, review drawdown and leverage limits: the source declares them and never reads them.
- Incident, journal and log texts: incidents keep their kind and time only; journals and logs are gone.
- An executor given a broker or risk engine from outside: both are its own here.
- Time zones and ISO week arithmetic: the week of an instant is any monotone function (ISO week dates, section 4.1.4
  of ISO 8601:2004, are one).
- Unicode case mapping and white space: position keys upper-case and ids strip ASCII only.
- Login, HTTP, data collection, language models, the runner and its server, JSON, CSV and SQLite files, reports.
- `portfolio/backtest.py`, `screener.py`, `evaluation.py`, `selection.py`, `liquidity.py`, `validation.py`: simpler
  repeats of what is modelled.
