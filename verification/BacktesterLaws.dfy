/** What every backtest keeps: solvent accounts, books that balance, ordered trades; and no look-ahead. */
module BacktestLaws {
  import opened Prelude
  import opened Models
  import opened Metrics
  import opened Risk
  import opened Strategies
  import opened Backtesting

  // ----- Solvency: with both cost rates below one no run raises, and every equity point is positive

  predicate CheapCosts(c: BacktestConfig) { c.slippageRate < 1.0 && c.commissionRate < 1.0 }

  /** Cash is positive when flat and not negative when holding; a held position can be sold at a positive price. */
  ghost predicate Solvent(c: BacktestConfig, st: State) {
    if st.position.None? then st.cash > 0.0
    else st.cash >= 0.0 && st.position.value.quantity > 0 && (c.enableStopLoss ==> st.position.value.stopPrice > 0.0)
  }

  lemma SalePaysPositive(c: BacktestConfig, price: real, quantity: int)
    requires CheapCosts(c) && price > 0.0 && quantity > 0
    ensures var value := Notional(price, quantity); value > 0.0 && value - Fee(value, c.commissionRate) > 0.0
  {
    var value := Notional(price, quantity);
    PositiveProduct(price, quantity as real);
    PositiveProduct(value, 1.0 - c.commissionRate);
    assert value * (1.0 - c.commissionRate) == value - Fee(value, c.commissionRate);
  }

  lemma MarkIsPositive(c: BacktestConfig, st: State, price: real)
    requires Solvent(c, st) && price > 0.0
    ensures MarkedEquity(st.cash, st.position, price) > 0.0
  {
    if st.position.Some? {
      PositiveProduct(price, st.position.value.quantity as real);
    }
  }

  lemma EntryPricesArePositive(c: BacktestConfig, price: real)
    requires price > 0.0
    ensures c.BuyPrice(price) > 0.0 && c.StopPrice(c.BuyPrice(price)) > 0.0
  {
    PositiveProduct(price, 1.0 + c.slippageRate);
    PositiveProduct(c.BuyPrice(price), 1.0 - c.stopLossDistanceFraction);
  }

  lemma EntryStaysSolvent(c: BacktestConfig, limits: RiskLimits, st: State, signal: Option<Signal>, bar: Bar)
    requires Solvent(c, st) && ValidPrices(bar)
    ensures AfterEntry(c, limits, st, signal, bar).Ok? && Solvent(c, AfterEntry(c, limits, st, signal, bar).value)
  {
    hide Notional, Fee, SizeNewPosition, SizeByWeight, BlockReasons, Shares, Config.BuyPrice, Config.StopPrice,
         Config.TargetPrice;
    var price := c.BuyPrice(bar.open);
    EntryPricesArePositive(c, bar.open);
    RiskSizeIsCapped(limits, st.cash, price, c.stopDistanceFraction, c.initialCapital, c.commissionRate);
    var quantity := SizeNewPosition(limits, st.cash, price, c.stopDistanceFraction, c.initialCapital,
        c.commissionRate).value;
    if quantity > 0 {
      SizeIsAffordable(limits, st.cash, price, Some(c.stopDistanceFraction), c.initialCapital, c.commissionRate,
          quantity);
    }
  }

  lemma CloseStaysSolvent(c: BacktestConfig, st: State, time: Timestamp, price: real, reason: ExitReason)
    requires CheapCosts(c) && Solvent(c, st) && st.position.Some? && price > 0.0
    ensures Solvent(c, Closed(c, st, time, c.SellPrice(price), reason))
  {
    PositiveProduct(price, 1.0 - c.slippageRate);
    SalePaysPositive(c, c.SellPrice(price), st.position.value.quantity);
  }

  lemma ExitStaysSolvent(c: BacktestConfig, st: State, signal: Option<Signal>, bar: Bar)
    requires CheapCosts(c) && Solvent(c, st) && ValidPrices(bar)
    ensures Solvent(c, AfterExit(c, st, signal, bar))
  {
    hide Notional, Fee, Closed;
    if st.position.Some? {
      var p := st.position.value;
      if StopHit(c, p, bar) {
        CloseStaysSolvent(c, st, bar.time, Min(bar.open, p.stopPrice), StopLossExit);
      } else if TargetHit(c, p, bar) {
        CloseStaysSolvent(c, st, bar.time, Max(bar.open, p.targetPrice.value), TargetExit);
      } else {
        CloseStaysSolvent(c, st, bar.time, bar.open, SignalExit);
      }
    }
  }

  lemma BarStaysSolvent(c: BacktestConfig, limits: RiskLimits, st: State, signal: Option<Signal>, bar: Bar)
    requires CheapCosts(c) && Solvent(c, st) && ValidPrices(bar)
    ensures var after := AfterBar(c, limits, st, signal, bar);
            after.Ok? && Solvent(c, after.value) && |after.value.curve| == |st.curve| + 1
            && after.value.curve[..|st.curve|] == st.curve && LastOf(after.value.curve) > 0.0
  {
    hide Notional, Fee, AfterEntry, MarkedEquity, Closed;
    MarkIsPositive(c, st, bar.open);
    var marked := AfterOpen(limits, st, bar).value;
    EntryStaysSolvent(c, limits, marked, signal, bar);
    EntryKeepsHistory(c, limits, marked, signal, bar);
    var entered := AfterEntry(c, limits, marked, signal, bar).value;
    ExitStaysSolvent(c, entered, signal, bar);
    ExitKeepsCurve(c, entered, signal, bar);
    MarkIsPositive(c, AfterExit(c, entered, signal, bar), bar.close);
  }

  lemma EntryKeepsHistory(c: BacktestConfig, limits: RiskLimits, st: State, signal: Option<Signal>, bar: Bar)
    ensures var after := AfterEntry(c, limits, st, signal, bar);
            after.Ok? ==>
              after.value.curve == st.curve && after.value.trades == st.trades && after.value.risk == st.risk
  {
    hide Notional, Fee, SizeNewPosition, BlockReasons;
  }

  lemma ExitKeepsCurve(c: BacktestConfig, st: State, signal: Option<Signal>, bar: Bar)
    ensures AfterExit(c, st, signal, bar).curve == st.curve && AfterExit(c, st, signal, bar).risk == st.risk
  {
    hide Notional, Fee;
  }

  predicate AllPositive(curve: seq<real>) { forall i :: 0 <= i < |curve| ==> curve[i] > 0.0 }

  lemma {:induction false} RunStaysSolvent(c: BacktestConfig, limits: RiskLimits, s: Strategy, bars: seq<Bar>,
                                           start: nat, end: nat)
    requires CheapCosts(c) && ValidBars(bars) && start <= end <= |bars|
    ensures var st := StateAt(c, limits, s, bars, start, end);
            st.Ok? && Solvent(c, st.value) && AllPositive(st.value.curve) && |st.value.curve| == end - start + 1
  {
    hide Solvent, AfterBar, SignalAt;
    if end > start {
      RunStaysSolvent(c, limits, s, bars, start, end - 1);
      var st := StateAt(c, limits, s, bars, start, end - 1).value;
      var signal := PendingSignal(s, bars, end - 1, st.position.Some?);
      BarStaysSolvent(c, limits, st, signal, bars[end - 1]);
      var curve := AfterBar(c, limits, st, signal, bars[end - 1]).value.curve;
      assert forall i :: 0 <= i < |st.curve| ==> curve[i] == curve[..|st.curve|][i];
    } else {
      InitialIsSolvent(c);
    }
  }

  lemma InitialIsSolvent(c: BacktestConfig)
    ensures Solvent(c, State(FRESH, c.initialCapital, None, [], [c.initialCapital]))
  {}

  // ----- The books balance

  function NetPnl(trades: seq<Trade>): real {
    if |trades| == 0 then 0.0 else NetPnl(trades[..|trades| - 1]) + trades[|trades| - 1].netPnl
  }

  /** What the open position cost, commission included. */
  function Committed(position: Option<OpenPosition>): real {
    if position.None? then 0.0
    else Notional(position.value.entryPrice, position.value.quantity) + position.value.entryCost
  }

  ghost predicate Balanced(c: BacktestConfig, st: State) {
    st.cash + Committed(st.position) == c.initialCapital + NetPnl(st.trades)
  }

  lemma CloseStaysBalanced(c: BacktestConfig, st: State, time: Timestamp, exitPrice: real, reason: ExitReason)
    requires Balanced(c, st) && st.position.Some?
    ensures Balanced(c, Closed(c, st, time, exitPrice, reason))
  {
    var p := st.position.value;
    NotionalDifference(exitPrice, p.entryPrice, p.quantity);
    hide Notional, Fee;
    var trade := TradeFor(c, p, time, exitPrice, reason);
    assert (st.trades + [trade])[..|st.trades|] == st.trades;
  }

  lemma BarStaysBalanced(c: BacktestConfig, limits: RiskLimits, st: State, signal: Option<Signal>, bar: Bar)
    requires Balanced(c, st) && AfterBar(c, limits, st, signal, bar).Ok?
    ensures Balanced(c, AfterBar(c, limits, st, signal, bar).value)
  {
    hide Notional, Fee, AfterMark, SizeNewPosition, BlockReasons, Closed;
    var entered := ThroughEntry(c, limits, st, signal, bar).value;
    assert Balanced(c, entered);
    if entered.position.Some? {
      var p := entered.position.value;
      if StopHit(c, p, bar) {
        CloseStaysBalanced(c, entered, bar.time, c.SellPrice(Min(bar.open, p.stopPrice)), StopLossExit);
      } else if TargetHit(c, p, bar) {
        CloseStaysBalanced(c, entered, bar.time, c.SellPrice(Max(bar.open, p.targetPrice.value)), TargetExit);
      } else {
        CloseStaysBalanced(c, entered, bar.time, c.SellPrice(bar.open), SignalExit);
      }
    }
  }

  /** On any input and at any costs: cash plus the open position at cost is the initial capital plus net profits. */
  lemma {:induction false} RunStaysBalanced(c: BacktestConfig, limits: RiskLimits, s: Strategy, bars: seq<Bar>,
                                            start: nat, end: nat)
    requires start <= end <= |bars| && StateAt(c, limits, s, bars, start, end).Ok?
    ensures Balanced(c, StateAt(c, limits, s, bars, start, end).value)
  {
    hide AfterBar, SignalAt;
    if end > start {
      RunStaysBalanced(c, limits, s, bars, start, end - 1);
      var st := StateAt(c, limits, s, bars, start, end - 1).value;
      BarStaysBalanced(c, limits, st, PendingSignal(s, bars, end - 1, st.position.Some?), bars[end - 1]);
    }
  }

  // ----- Trades are ordered in time

  /** Every trade leaves no earlier than it enters, and strictly before the next one enters. */
  predicate TradesInOrder(trades: seq<Trade>) {
    && (forall i :: 0 <= i < |trades| ==> trades[i].entryTime.instant <= trades[i].exitTime.instant)
    && (forall i :: 0 < i < |trades| ==> trades[i - 1].exitTime.instant < trades[i].entryTime.instant)
  }

  /** ... and nothing, the open position included, is later than now. */
  ghost predicate InOrder(st: State, now: int) {
    && TradesInOrder(st.trades)
    && (|st.trades| > 0 ==> LastOf(st.trades).exitTime.instant <= now)
    && (st.position.Some? ==>
          st.position.value.entryTime.instant <= now &&
          (|st.trades| > 0 ==> LastOf(st.trades).exitTime.instant < st.position.value.entryTime.instant))
  }

  lemma EntryStaysInOrder(c: BacktestConfig, limits: RiskLimits, st: State, signal: Option<Signal>, bar: Bar,
                          before: int)
    requires InOrder(st, before) && before < bar.time.instant
    requires AfterEntry(c, limits, st, signal, bar).Ok?
    ensures InOrder(AfterEntry(c, limits, st, signal, bar).value, bar.time.instant)
  {
    hide Notional, Fee, SizeNewPosition, BlockReasons;
  }

  lemma ExitStaysInOrder(c: BacktestConfig, st: State, signal: Option<Signal>, bar: Bar)
    requires InOrder(st, bar.time.instant)
    ensures InOrder(AfterExit(c, st, signal, bar), bar.time.instant)
  {
    hide Notional, Fee;
  }

  lemma {:induction false} RunStaysInOrder(c: BacktestConfig, limits: RiskLimits, s: Strategy, bars: seq<Bar>,
                                           start: nat, end: nat)
    requires ValidBars(bars) && start < end <= |bars| && StateAt(c, limits, s, bars, start, end).Ok?
    ensures InOrder(StateAt(c, limits, s, bars, start, end).value, bars[end - 1].time.instant)
  {
    hide SignalAt, AfterMark, AfterEntry, AfterExit, ValidBar, MarkedEquity, TradesInOrder;
    var bar := bars[end - 1];
    var st := StateAt(c, limits, s, bars, start, end - 1).value;
    if end - 1 > start {
      RunStaysInOrder(c, limits, s, bars, start, end - 1);
    } else {
      NoTradesInOrder();
    }
    var signal := PendingSignal(s, bars, end - 1, st.position.Some?);
    var marked := AfterOpen(limits, st, bar).value;
    var previous := if end - 1 > start then bars[end - 2].time.instant else bar.time.instant - 1;
    assert InOrder(marked, previous);
    EntryStaysInOrder(c, limits, marked, signal, bar, previous);
    ExitStaysInOrder(c, AfterEntry(c, limits, marked, signal, bar).value, signal, bar);
  }

  lemma NoTradesInOrder()
    ensures TradesInOrder([])
  {}

  // ----- The report

  lemma LiquidationBalances(c: BacktestConfig, st: State, last: Bar)
    requires |st.curve| > 0 && Balanced(c, st)
    ensures var final := Liquidated(c, st, last);
            final.position.None? && Balanced(c, final) && |final.curve| == |st.curve|
  {
    hide Notional, Fee, TradeFor, CashAfterClose;
    if st.position.Some? {
      CloseStaysBalanced(c, st, last.time, c.SellPrice(last.close), ForcedLiquidation);
    }
  }

  lemma LiquidationStaysSolvent(c: BacktestConfig, st: State, last: Bar)
    requires CheapCosts(c) && Solvent(c, st) && ValidPrices(last)
    requires |st.curve| > 0 && AllPositive(st.curve)
    requires st.position.None? ==> LastOf(st.curve) == st.cash
    ensures var final := Liquidated(c, st, last);
            final.cash > 0.0 && AllPositive(final.curve) && LastOf(final.curve) == final.cash
  {
    hide Notional, Fee, TradeFor, CashAfterClose;
    if st.position.Some? {
      CloseStaysSolvent(c, st, last.time, last.close, ForcedLiquidation);
    }
  }

  lemma LiquidationStaysInOrder(c: BacktestConfig, st: State, last: Bar)
    requires |st.curve| > 0 && InOrder(st, last.time.instant)
    ensures TradesInOrder(Liquidated(c, st, last).trades)
  {
    hide Notional, Fee;
  }

  lemma LastPointIsTheMark(c: BacktestConfig, limits: RiskLimits, s: Strategy, bars: seq<Bar>, start: nat, end: nat)
    requires start < end <= |bars| && StateAt(c, limits, s, bars, start, end).Ok?
    ensures var st := StateAt(c, limits, s, bars, start, end).value;
            |st.curve| > 0 && LastOf(st.curve) == MarkedEquity(st.cash, st.position, bars[end - 1].close)
  {
    hide MarkedEquity, AfterExit, ThroughEntry, SignalAt;
  }

  /**
   * Backtest accounting: with slippage and commission below one, every valid input produces a report (the metrics
   * never see a non-positive point), final capital is initial capital plus net profits, the curve has one point
   * per evaluated bar plus one and ends at the final capital, and trades never overlap.
   */
  lemma BacktestAccounting(c: BacktestConfig, limits: RiskLimits, s: Strategy, bars: seq<Bar>, start: nat)
    requires CheapCosts(c) && ValidBars(bars) && start < |bars|
    ensures var r := RunResult(c, limits, s, bars, start);
            && r.Ok?
            && r.value.finalCapital == c.initialCapital + NetPnl(r.value.trades)
            && r.value.finalCapital > 0.0
            && AllPositive(r.value.curve)
            && |r.value.curve| == |bars| - start + 1
            && LastOf(r.value.curve) == r.value.finalCapital
            && TradesInOrder(r.value.trades)
  {
    hide StateAt, Solvent, InOrder, TradesInOrder, ValidBar, ValidPrices, NetPnl, MaxDrawdown;
    var n := |bars|;
    RunStaysSolvent(c, limits, s, bars, start, n);
    RunStaysBalanced(c, limits, s, bars, start, n);
    RunStaysInOrder(c, limits, s, bars, start, n);
    LastPointIsTheMark(c, limits, s, bars, start, n);
    assert ValidBar(bars[0], bars[n - 1]);
    ValidBarPrices(bars[0], bars[n - 1]);
    var st := StateAt(c, limits, s, bars, start, n).value;
    LiquidationBalances(c, st, bars[n - 1]);
    LiquidationStaysSolvent(c, st, bars[n - 1]);
    LiquidationStaysInOrder(c, st, bars[n - 1]);
  }

  lemma ValidBarPrices(first: Bar, bar: Bar)
    requires ValidBar(first, bar)
    ensures ValidPrices(bar)
  {}

  // ----- No look-ahead

  /** Inputs that agree on the bars before k put the run in the same state there. */
  lemma {:induction false} StateReadsNoLaterBar(c: BacktestConfig, limits: RiskLimits, s: Strategy,
                                                a: seq<Bar>, b: seq<Bar>, start: nat, k: nat)
    requires start <= k <= |a| && k <= |b| && a[..k] == b[..k]
    ensures StateAt(c, limits, s, a, start, k) == StateAt(c, limits, s, b, start, k)
  {
    hide SignalAt, AfterBar;
    if k > start {
      assert a[..k - 1] == a[..k][..k - 1] && b[..k - 1] == b[..k][..k - 1];
      assert a[k - 1] == a[..k][k - 1] && b[k - 1] == b[..k][k - 1];
      StateReadsNoLaterBar(c, limits, s, a, b, start, k - 1);
      var st := StateAt(c, limits, s, a, start, k - 1);
      if st.Ok? {
        PendingSignalReadsNoLaterBar(s, a, b, k - 1, st.value.position.Some?);
      }
    }
  }

  lemma PendingSignalReadsNoLaterBar(s: Strategy, a: seq<Bar>, b: seq<Bar>, k: nat, holding: bool)
    requires k <= |a| && k <= |b| && a[..k] == b[..k]
    ensures PendingSignal(s, a, k, holding) == PendingSignal(s, b, k, holding)
  {
    hide SignalAt;
    if k > 0 {
      DecisionIsCausal(s, a, b, k - 1, holding);
    }
  }

  /** The state after a possible entry on bar k. */
  function EntryAt(c: BacktestConfig, limits: RiskLimits, s: Strategy, bars: seq<Bar>, start: nat,
                   k: nat): Result<State, Error>
    requires start <= k < |bars|
  {
    match StateAt(c, limits, s, bars, start, k)
    case Err(e) => Err(e)
    case Ok(st) => ThroughEntry(c, limits, st, PendingSignal(s, bars, k, st.position.Some?), bars[k])
  }

  /** Whether and at what size bar k is entered depends on bar k only through its identity, its time and its open. */
  lemma EntryReadsOnlyTheOpen(c: BacktestConfig, limits: RiskLimits, s: Strategy, a: seq<Bar>, b: seq<Bar>, start: nat,
                              k: nat)
    requires start <= k < |a| && k < |b| && a[..k] == b[..k]
    requires a[k].instrument == b[k].instrument && a[k].time == b[k].time && a[k].open == b[k].open
    ensures EntryAt(c, limits, s, a, start, k) == EntryAt(c, limits, s, b, start, k)
  {
    StateReadsNoLaterBar(c, limits, s, a, b, start, k);
    var st := StateAt(c, limits, s, a, start, k);
    if st.Ok? {
      PendingSignalReadsNoLaterBar(s, a, b, k, st.value.position.Some?);
      EntryDependsOnOpen(c, limits, st.value, PendingSignal(s, a, k, st.value.position.Some?), a[k], b[k]);
    }
  }

  lemma EntryDependsOnOpen(c: BacktestConfig, limits: RiskLimits, st: State, signal: Option<Signal>, x: Bar, y: Bar)
    requires x.instrument == y.instrument && x.time == y.time && x.open == y.open
    ensures ThroughEntry(c, limits, st, signal, x) == ThroughEntry(c, limits, st, signal, y)
  {
    hide Notional, Fee, SizeNewPosition, BlockReasons, AfterMark;
  }

  /** A run only appends to its curve and its trades. */
  lemma {:induction false} HistoryOnlyGrows(c: BacktestConfig, limits: RiskLimits, s: Strategy, bars: seq<Bar>,
                                            start: nat, k: nat, end: nat)
    requires ValidBars(bars) && start <= k <= end <= |bars| && StateAt(c, limits, s, bars, start, end).Ok?
    ensures StateAt(c, limits, s, bars, start, k).Ok?
    ensures var early, late := StateAt(c, limits, s, bars, start, k).value,
            StateAt(c, limits, s, bars, start, end).value;
            && early.curve <= late.curve && early.trades <= late.trades
            && forall i :: |early.trades| <= i < |late.trades|
                ==> late.trades[i].exitTime.instant >= bars[k].time.instant
  {
    hide SignalAt, AfterMark, AfterEntry, ValidBar, MarkedEquity, AfterExit;
    if end > k {
      var bar, st := bars[end - 1], StateAt(c, limits, s, bars, start, end - 1).value;
      HistoryOnlyGrows(c, limits, s, bars, start, k, end - 1);
      var signal := PendingSignal(s, bars, end - 1, st.position.Some?);
      var marked := AfterOpen(limits, st, bar).value;
      EntryKeepsHistory(c, limits, marked, signal, bar);
      var entered := AfterEntry(c, limits, marked, signal, bar).value;
      ExitKeepsCurve(c, entered, signal, bar);
      ExitAppendsOneTrade(c, entered, signal, bar);
      BarsAreOrdered(bars, k, end - 1);
    }
  }

  lemma ExitAppendsOneTrade(c: BacktestConfig, st: State, signal: Option<Signal>, bar: Bar)
    ensures var after := AfterExit(c, st, signal, bar).trades;
            after == st.trades || exists t: Trade :: after == st.trades + [t] && t.exitTime == bar.time
  {
    hide Notional, Fee;
  }

  lemma {:induction false} BarsAreOrdered(bars: seq<Bar>, i: nat, j: nat)
    requires ValidBars(bars) && i <= j < |bars|
    ensures bars[i].time.instant <= bars[j].time.instant
  {
    hide ValidBar;
    if i < j {
      BarsAreOrdered(bars, i, j - 1);
      assert bars[j - 1].time.instant < bars[j].time.instant;
    }
  }

  /** The part of a report that bars up to k have settled: its first points, and the trades closed before bar k. */
  ghost predicate SettledBefore(r: BacktestResult, settled: State, from: Bar) {
    && settled.curve <= r.curve
    && settled.trades <= r.trades
    && forall i :: |settled.trades| <= i < |r.trades| ==> r.trades[i].exitTime.instant >= from.time.instant
  }

  lemma ReportExtendsState(c: BacktestConfig, limits: RiskLimits, s: Strategy, bars: seq<Bar>, start: nat, k: nat)
    requires start <= k < |bars| && RunResult(c, limits, s, bars, start).Ok?
    ensures StateAt(c, limits, s, bars, start, k).Ok?
    ensures SettledBefore(RunResult(c, limits, s, bars, start).value, StateAt(c, limits, s, bars, start, k).value,
            bars[k])
  {
    hide Notional, Fee, MarkedEquity, AfterExit, ThroughEntry, SignalAt, ValidBar, Accepted, MaxDrawdown;
    var n := |bars|;
    HistoryOnlyGrows(c, limits, s, bars, start, k, n);
    CurveIsNotEmpty(c, limits, s, bars, start, k);
    CurveIsNotEmpty(c, limits, s, bars, start, n);
    BarsAreOrdered(bars, k, n - 1);
  }

  /**
   * No look-ahead: two inputs that agree on the bars before k report the same equity points and the same closed
   * trades up to there, and every further trade of either closes at bar k or later.
   */
  lemma NoLookAhead(c: BacktestConfig, limits: RiskLimits, s: Strategy, a: seq<Bar>, b: seq<Bar>, start: nat, k: nat)
    requires start <= k < |a| && k < |b| && a[..k] == b[..k]
    requires RunResult(c, limits, s, a, start).Ok? && RunResult(c, limits, s, b, start).Ok?
    ensures StateAt(c, limits, s, a, start, k).Ok?
    ensures var settled := StateAt(c, limits, s, a, start, k).value;
            && |settled.curve| == k - start + 1
            && SettledBefore(RunResult(c, limits, s, a, start).value, settled, a[k])
            && SettledBefore(RunResult(c, limits, s, b, start).value, settled, b[k])
  {
    hide StateAt, RunResult, SettledBefore;
    ReportExtendsState(c, limits, s, a, start, k);
    ReportExtendsState(c, limits, s, b, start, k);
    StateReadsNoLaterBar(c, limits, s, a, b, start, k);
    CurveIsNotEmpty(c, limits, s, a, start, k);
  }
}
