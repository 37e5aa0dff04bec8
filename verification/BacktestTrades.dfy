/** Every position and trade of a backtest explained in the bars' own prices: when, at what, and why. */
module BacktestTrades {
  import opened Prelude
  import opened Models
  import opened Risk
  import opened Strategies
  import opened Backtesting
  import Metrics

  // ----- Levels and reasons, in the prices

  /** The bar reaches the stop below the entry price, or the target above it. */
  predicate StopReached(c: BacktestConfig, entry: real, bar: Bar) {
    c.enableStopLoss && bar.low <= entry * (1.0 - c.stopLossDistanceFraction)
  }

  predicate TargetReached(c: BacktestConfig, limits: RiskLimits, entry: real, bar: Bar) {
    c.enableTargetExit && bar.high >= entry * (1.0 + c.stopLossDistanceFraction * limits.minimumRewardRisk)
  }

  /** The decision on the bar before, taken while holding, is to sell. */
  predicate SoldOnSignal(s: Strategy, bars: seq<Bar>, j: nat)
    requires j < |bars|
  {
    j > 0 && Proposes(SignalAt(s, bars, j - 1, true), SELL)
  }

  /** The size of an entry is the greatest number of shares that the risk budget and the capital bounds allow. */
  ghost predicate SizedToBounds(c: BacktestConfig, limits: RiskLimits, cash: real, price: real, quantity: int) {
    forall n | n > 0 ::
      n <= quantity <==> FitsRisk(limits, price, c.stopDistanceFraction, n) &&
                         FitsCapital(limits, cash, price, c.initialCapital, c.commissionRate, n)
  }

  /** The position's own numbers, from the bar it was opened on. */
  predicate OpenedAt(c: BacktestConfig, limits: RiskLimits, bar: Bar, p: OpenPosition) {
    && p.instrument == bar.instrument && p.entryTime == bar.time && p.quantity > 0
    && p.entryPrice == bar.open * (1.0 + c.slippageRate)
    && p.entryCost == p.entryPrice * p.quantity as real * c.commissionRate
    && (c.enableStopLoss ==> p.stopPrice == p.entryPrice * (1.0 - c.stopLossDistanceFraction))
    && (p.targetPrice.Some? <==> c.enableTargetExit)
    && (p.targetPrice.Some? ==>
          p.targetPrice.value == p.entryPrice * (1.0 + c.stopLossDistanceFraction * limits.minimumRewardRisk))
  }

  /**
   * A position was opened on bar k: the decision on the bar before was to buy, the run was flat and approved at the
   * bar's open, and the size is the greatest allowed.
   */
  ghost predicate Opens(c: BacktestConfig, limits: RiskLimits, s: Strategy, bars: seq<Bar>, start: nat, k: nat,
                        p: OpenPosition)
    requires start <= k < |bars|
  {
    && OpenedAt(c, limits, bars[k], p)
    && k > 0 && Proposes(SignalAt(s, bars, k - 1, false), BUY)
    && StateAt(c, limits, s, bars, start, k).Ok?
    && var st := StateAt(c, limits, s, bars, start, k).value;
       && st.position.None?
       && AfterMark(limits, st.risk, st.cash, bars[k].time).Ok?
       && MayOpen(limits, AfterMark(limits, st.risk, st.cash, bars[k].time).value, st.cash, 0)
       && SizedToBounds(c, limits, st.cash, p.entryPrice, p.quantity)
  }

  /** No bar from the entry on reached a level, and no later decision was to sell. */
  ghost predicate HeldThrough(c: BacktestConfig, limits: RiskLimits, s: Strategy, bars: seq<Bar>, entry: real, k: nat,
                              end: nat)
    requires end <= |bars|
  {
    forall j | k <= j < end ::
      && !StopReached(c, entry, bars[j]) && !TargetReached(c, limits, entry, bars[j])
      && (j > k ==> !SoldOnSignal(s, bars, j))
  }

  ghost predicate Holds(c: BacktestConfig, limits: RiskLimits, s: Strategy, bars: seq<Bar>, start: nat, end: nat,
                        p: OpenPosition, k: nat)
    requires start <= end <= |bars|
  {
    start <= k < end && Opens(c, limits, s, bars, start, k, p) &&
    HeldThrough(c, limits, s, bars, p.entryPrice, k, end)
  }

  /** What a trade was closed at, and why: the stop before the target before the signal. */
  predicate ClosedAt(c: BacktestConfig, limits: RiskLimits, s: Strategy, bars: seq<Bar>, p: OpenPosition, k: nat,
                     j: nat, t: Trade)
    requires k <= j < |bars|
  {
    var bar := bars[j];
    if StopReached(c, p.entryPrice, bar) then
      t.exitReason == StopLossExit && t.exitPrice == Min(bar.open, p.stopPrice) * (1.0 - c.slippageRate)
    else if TargetReached(c, limits, p.entryPrice, bar) then
      t.exitReason == TargetExit && p.targetPrice.Some? &&
      t.exitPrice == Max(bar.open, p.targetPrice.value) * (1.0 - c.slippageRate)
    else
      t.exitReason == SignalExit && j > k && SoldOnSignal(s, bars, j) &&
      t.exitPrice == bar.open * (1.0 - c.slippageRate)
  }

  /** A trade's money: what the move brought, and the commissions of both sides. */
  predicate Accounts(c: BacktestConfig, p: OpenPosition, t: Trade) {
    && t.instrument == p.instrument && t.entryTime == p.entryTime && t.quantity == p.quantity
    && t.entryPrice == p.entryPrice
    && t.grossPnl == (t.exitPrice - p.entryPrice) * p.quantity as real
    && t.totalCost == p.entryPrice * p.quantity as real * c.commissionRate
                      + t.exitPrice * p.quantity as real * c.commissionRate
    && t.netPnl == t.grossPnl - t.totalCost
  }

  ghost predicate Traded(c: BacktestConfig, limits: RiskLimits, s: Strategy, bars: seq<Bar>, start: nat, end: nat,
                         t: Trade, p: OpenPosition, k: nat, j: nat)
    requires start <= end <= |bars|
  {
    && start <= k <= j < end
    && Opens(c, limits, s, bars, start, k, p) && HeldThrough(c, limits, s, bars, p.entryPrice, k, j)
    && t.exitTime == bars[j].time && ClosedAt(c, limits, s, bars, p, k, j, t) && Accounts(c, p, t)
  }

  // ----- One bar

  lemma OpenedAsStated(c: BacktestConfig, limits: RiskLimits, bar: Bar, quantity: int)
    requires quantity > 0
    ensures OpenedAt(c, limits, bar, Opened(c, limits, bar, quantity))
  {
    var p := Opened(c, limits, bar, quantity);
    assert p.entryPrice == bar.open * (1.0 + c.slippageRate);
    assert p.entryCost == p.entryPrice * p.quantity as real * c.commissionRate;
  }

  lemma SizeIsPriced(limits: RiskLimits, cash: real, price: real, stop: real, capital: real, rate: real)
    requires SizeNewPosition(limits, cash, price, stop, capital, rate).Ok?
    ensures price > 0.0
  {}

  lemma SizeBounds(c: BacktestConfig, limits: RiskLimits, cash: real, price: real)
    requires SizeNewPosition(limits, cash, price, c.stopDistanceFraction, c.initialCapital, c.commissionRate).Ok?
    ensures SizedToBounds(c, limits, cash, price,
              SizeNewPosition(limits, cash, price, c.stopDistanceFraction, c.initialCapital, c.commissionRate).value)
  {
    SizeIsPriced(limits, cash, price, c.stopDistanceFraction, c.initialCapital, c.commissionRate);
    hide SizeNewPosition, FitsRisk, FitsCapital;
    SizeNewPositionIsMaximal(limits, cash, price, c.stopDistanceFraction, c.initialCapital, c.commissionRate);
  }

  lemma GateIsOpen(limits: RiskLimits, risk: RiskState, equity: real)
    ensures BlockReasons(limits, risk, equity, 0) == [] <==> MayOpen(limits, risk, equity, 0)
  {}

  lemma FlatEquity(cash: real, price: real)
    ensures MarkedEquity(cash, None, price) == cash
  {}

  /** An entry on bar k is as stated; a position already held stays as it was. */
  lemma EntryOpens(c: BacktestConfig, limits: RiskLimits, s: Strategy, bars: seq<Bar>, start: nat, k: nat)
    requires start <= k < |bars| && StateAt(c, limits, s, bars, start, k).Ok?
    requires var st := StateAt(c, limits, s, bars, start, k).value;
             ThroughEntry(c, limits, st, PendingSignal(s, bars, k, st.position.Some?), bars[k]).Ok?
    ensures var st := StateAt(c, limits, s, bars, start, k).value;
            var entered := ThroughEntry(c, limits, st, PendingSignal(s, bars, k, st.position.Some?), bars[k]).value;
            && entered.trades == st.trades && entered.curve == st.curve
            && (st.position.Some? ==> entered.position == st.position)
            && (st.position.None? && entered.position.Some? ==>
                  Opens(c, limits, s, bars, start, k, entered.position.value) &&
                  PendingSignal(s, bars, k, false) == SignalAt(s, bars, k - 1, false))
  {
    hide StateAt, SignalAt, AfterMark, BlockReasons, MayOpen, SizeNewPosition, SizedToBounds, OpenedAt, Opened;
    var st, bar := StateAt(c, limits, s, bars, start, k).value, bars[k];
    FlatEquity(st.cash, bar.open);
    if st.position.None? {
      var marked := AfterMark(limits, st.risk, st.cash, bar.time).value;
      GateIsOpen(limits, marked, st.cash);
      var price := c.BuyPrice(bar.open);
      var size := SizeNewPosition(limits, st.cash, price, c.stopDistanceFraction, c.initialCapital, c.commissionRate);
      if size.Ok? && size.value > 0 {
        SizeBounds(c, limits, st.cash, price);
        OpenedAsStated(c, limits, bar, size.value);
        OpenedPrice(c, limits, bar, size.value);
      }
    }
  }

  lemma OpenedPrice(c: BacktestConfig, limits: RiskLimits, bar: Bar, quantity: int)
    ensures Opened(c, limits, bar, quantity).entryPrice == c.BuyPrice(bar.open)
    ensures Opened(c, limits, bar, quantity).quantity == quantity
  {}

  lemma LevelsAsStated(c: BacktestConfig, limits: RiskLimits, entryBar: Bar, p: OpenPosition, bar: Bar)
    requires OpenedAt(c, limits, entryBar, p)
    ensures StopHit(c, p, bar) <==> StopReached(c, p.entryPrice, bar)
    ensures TargetHit(c, p, bar) <==> TargetReached(c, limits, p.entryPrice, bar)
  {}

  lemma AccountsAsStated(c: BacktestConfig, limits: RiskLimits, entryBar: Bar, p: OpenPosition, time: Timestamp,
                         price: real, reason: ExitReason)
    requires OpenedAt(c, limits, entryBar, p)
    ensures Accounts(c, p, TradeFor(c, p, time, price, reason))
    ensures TradeFor(c, p, time, price, reason).exitPrice == price
    ensures TradeFor(c, p, time, price, reason).exitTime == time
    ensures TradeFor(c, p, time, price, reason).exitReason == reason
  {}

  /** What a bar closes the position at, before slippage, and why. */
  function ExitQuote(c: BacktestConfig, limits: RiskLimits, p: OpenPosition, bar: Bar): real {
    if StopReached(c, p.entryPrice, bar) then Min(bar.open, p.stopPrice)
    else if TargetReached(c, limits, p.entryPrice, bar) && p.targetPrice.Some?
    then Max(bar.open, p.targetPrice.value) else bar.open
  }

  function ExitWhy(c: BacktestConfig, limits: RiskLimits, p: OpenPosition, bar: Bar): ExitReason {
    if StopReached(c, p.entryPrice, bar) then StopLossExit
    else if TargetReached(c, limits, p.entryPrice, bar) then TargetExit else SignalExit
  }

  lemma ExitIsClosed(c: BacktestConfig, limits: RiskLimits, entryBar: Bar, st: State, signal: Option<Signal>, bar: Bar)
    requires st.position.Some? && OpenedAt(c, limits, entryBar, st.position.value)
    ensures var entry := st.position.value.entryPrice;
            var leaves := StopReached(c, entry, bar) || TargetReached(c, limits, entry, bar) || Proposes(signal, SELL);
            AfterExit(c, st, signal, bar) ==
              if leaves
              then Closed(c, st, bar.time, c.SellPrice(ExitQuote(c, limits, st.position.value, bar)),
                          ExitWhy(c, limits, st.position.value, bar))
              else st
  {
    hide Closed, OpenedAt, StopReached, TargetReached, StopHit, TargetHit, Config.SellPrice, Min, Max;
    LevelsAsStated(c, limits, entryBar, st.position.value, bar);
    TargetHitHasTarget(c, st.position.value, bar);
  }

  lemma TargetHitHasTarget(c: BacktestConfig, p: OpenPosition, bar: Bar)
    ensures TargetHit(c, p, bar) ==> c.enableTargetExit && p.targetPrice.Some?
  {}

  lemma ClosingTrade(c: BacktestConfig, limits: RiskLimits, entryBar: Bar, st: State, time: Timestamp, price: real,
                     reason: ExitReason)
    requires st.position.Some? && OpenedAt(c, limits, entryBar, st.position.value)
    ensures var after := Closed(c, st, time, price, reason);
            && after.position.None? && |after.trades| == |st.trades| + 1 && after.trades[..|st.trades|] == st.trades
            && var t := after.trades[|st.trades|];
               t.exitTime == time && t.exitPrice == price && t.exitReason == reason &&
               Accounts(c, st.position.value, t)
  {
    hide OpenedAt, TradeFor, Accounts, CashAfterClose;
    AccountsAsStated(c, limits, entryBar, st.position.value, time, price, reason);
  }

  /** What bar j does to a position opened on bar k and held up to it. */
  lemma ExitAsStated(c: BacktestConfig, limits: RiskLimits, s: Strategy, bars: seq<Bar>, st: State,
                     signal: Option<Signal>, k: nat, j: nat)
    requires k <= j < |bars| && st.position.Some? && OpenedAt(c, limits, bars[k], st.position.value)
    requires if k == j then Proposes(signal, BUY) else signal == SignalAt(s, bars, j - 1, true)
    ensures var p, after := st.position.value, AfterExit(c, st, signal, bars[j]);
            var leaves := StopReached(c, p.entryPrice, bars[j]) || TargetReached(c, limits, p.entryPrice, bars[j]) ||
                          (j > k && SoldOnSignal(s, bars, j));
            if leaves
            then after.position.None? &&
                 |after.trades| == |st.trades| + 1 && after.trades[..|st.trades|] == st.trades &&
                 (var t := after.trades[|st.trades|];
                  t.exitTime == bars[j].time && ClosedAt(c, limits, s, bars, p, k, j, t) && Accounts(c, p, t))
            else after == st
  {
    hide SignalAt, Closed, OpenedAt, Accounts, AfterExit, StopReached, TargetReached;
    var p, bar := st.position.value, bars[j];
    ExitIsClosed(c, limits, bars[k], st, signal, bar);
    var quote := ExitQuote(c, limits, p, bar);
    SlippedDown(c, quote);
    LevelsAsStated(c, limits, bars[k], p, bar);
    TargetHitHasTarget(c, p, bar);
    ClosingTrade(c, limits, bars[k], st, bar.time, c.SellPrice(quote), ExitWhy(c, limits, p, bar));
  }

  lemma SlippedDown(c: BacktestConfig, price: real)
    ensures c.SellPrice(price) == price * (1.0 - c.slippageRate)
  {}

  // ----- Whole runs

  /** The position held, if any, and every trade so far are explained. */
  ghost predicate Explained(c: BacktestConfig, limits: RiskLimits, s: Strategy, bars: seq<Bar>, start: nat, end: nat,
                            st: State)
    requires start <= end <= |bars|
  {
    && (st.position.Some? ==> exists k :: Holds(c, limits, s, bars, start, end, st.position.value, k))
    && forall t | t in st.trades :: exists p, k, j :: Traded(c, limits, s, bars, start, end, t, p, k, j)
  }

  lemma TradeStays(c: BacktestConfig, limits: RiskLimits, s: Strategy, bars: seq<Bar>, start: nat, end: nat, t: Trade,
                   p: OpenPosition, k: nat, j: nat)
    requires start <= end < |bars| && Traded(c, limits, s, bars, start, end, t, p, k, j)
    ensures Traded(c, limits, s, bars, start, end + 1, t, p, k, j)
  {
    hide Opens, HeldThrough, ClosedAt, Accounts;
  }

  lemma HeldOneMore(c: BacktestConfig, limits: RiskLimits, s: Strategy, bars: seq<Bar>, entry: real, k: nat, end: nat)
    requires k <= end < |bars| && HeldThrough(c, limits, s, bars, entry, k, end)
    requires !StopReached(c, entry, bars[end]) && !TargetReached(c, limits, entry, bars[end])
    requires end > k ==> !SoldOnSignal(s, bars, end)
    ensures HeldThrough(c, limits, s, bars, entry, k, end + 1)
  {
    hide StopReached, TargetReached, SignalAt;
  }

  lemma OpensAt(c: BacktestConfig, limits: RiskLimits, s: Strategy, bars: seq<Bar>, start: nat, k: nat, p: OpenPosition)
    requires start <= k < |bars| && Opens(c, limits, s, bars, start, k, p)
    ensures OpenedAt(c, limits, bars[k], p) && k > 0 && Proposes(SignalAt(s, bars, k - 1, false), BUY)
  {
    hide OpenedAt, MayOpen, AfterMark, SizedToBounds, StateAt, SignalAt;
  }

  lemma NotYetHeld(c: BacktestConfig, limits: RiskLimits, s: Strategy, bars: seq<Bar>, entry: real, k: nat)
    requires k <= |bars|
    ensures HeldThrough(c, limits, s, bars, entry, k, k)
  {}

  /** From the state after the entry part of a bar to the state after the bar. */
  lemma ExitStaysExplained(c: BacktestConfig, limits: RiskLimits, s: Strategy, bars: seq<Bar>, start: nat, end: nat,
                           entered: State, signal: Option<Signal>, k: nat)
    requires start <= k <= end < |bars| && entered.position.Some?
    requires Opens(c, limits, s, bars, start, k, entered.position.value)
    requires HeldThrough(c, limits, s, bars, entered.position.value.entryPrice, k, end)
    requires if k == end then Proposes(signal, BUY) else signal == SignalAt(s, bars, end - 1, true)
    requires forall t | t in entered.trades :: exists p, k, j :: Traded(c, limits, s, bars, start, end, t, p, k, j)
    ensures Explained(c, limits, s, bars, start, end + 1, AfterExit(c, entered, signal, bars[end]))
  {
    hide Opens, HeldThrough, StopReached, TargetReached, ClosedAt, Accounts, OpenedAt, AfterExit, SignalAt;
    var p := entered.position.value;
    OpensAt(c, limits, s, bars, start, k, p);
    ExitAsStated(c, limits, s, bars, entered, signal, k, end);
    var after := AfterExit(c, entered, signal, bars[end]);
    var next := end + 1;
    forall t | t in entered.trades ensures exists p, k, j :: Traded(c, limits, s, bars, start, next, t, p, k, j) {
      var p', k', j' :| Traded(c, limits, s, bars, start, end, t, p', k', j');
      TradeStays(c, limits, s, bars, start, end, t, p', k', j');
    }
    if after.position.Some? {
      HeldOneMore(c, limits, s, bars, p.entryPrice, k, end);
      assert Holds(c, limits, s, bars, start, end + 1, p, k);
    } else {
      var t := after.trades[|entered.trades|];
      assert Traded(c, limits, s, bars, start, end + 1, t, p, k, end);
      assert after.trades == entered.trades + [t];
    }
  }

  /**
   * After any number of bars of any run: the position held was bought at the slipped open of a bar on a purchase
   * decided on the bar before, in the greatest size allowed, and no bar since has reached the stop or target at the
   * configured distance from its entry price, nor a sale been decided; and every trade is such a position, closed on
   * the first bar that did, at the slipped stop, target or open, with its profit and costs.
   */
  lemma {:induction false} RunIsExplained(c: BacktestConfig, limits: RiskLimits, s: Strategy, bars: seq<Bar>,
                                          start: nat, end: nat)
    requires start <= end <= |bars| && StateAt(c, limits, s, bars, start, end).Ok?
    ensures Explained(c, limits, s, bars, start, end, StateAt(c, limits, s, bars, start, end).value)
  {
    hide Opens, HeldThrough, Traded, ThroughEntry, AfterExit, SignalAt;
    if end > start {
      var k := end - 1;
      RunIsExplained(c, limits, s, bars, start, k);
      var st := StateAt(c, limits, s, bars, start, k).value;
      var signal := PendingSignal(s, bars, k, st.position.Some?);
      EntryOpens(c, limits, s, bars, start, k);
      var entered := ThroughEntry(c, limits, st, signal, bars[k]).value;
      var left := AfterExit(c, entered, signal, bars[k]);
      if st.position.Some? {
        var from :| Holds(c, limits, s, bars, start, k, st.position.value, from);
        ExitStaysExplained(c, limits, s, bars, start, k, entered, signal, from);
      } else if entered.position.Some? {
        NotYetHeld(c, limits, s, bars, entered.position.value.entryPrice, k);
        OpensAt(c, limits, s, bars, start, k, entered.position.value);
        ExitStaysExplained(c, limits, s, bars, start, k, entered, signal, k);
      } else {
        FlatStays(c, entered, signal, bars[k]);
        forall t | t in left.trades ensures exists p, k, j :: Traded(c, limits, s, bars, start, end, t, p, k, j) {
          var p', k', j' :| Traded(c, limits, s, bars, start, k, t, p', k', j');
          TradeStays(c, limits, s, bars, start, k, t, p', k', j');
        }
      }
      ClosingMarks(left, bars[k]);
      assert StateAt(c, limits, s, bars, start, end) == Ok(AfterClose(left, bars[k]));
    }
  }

  lemma FlatStays(c: BacktestConfig, st: State, signal: Option<Signal>, bar: Bar)
    requires st.position.None?
    ensures AfterExit(c, st, signal, bar) == st
  {}

  /** Cash and shares at a price. */
  function WorthAt(st: State, price: real): real {
    if st.position.Some? then st.cash + price * st.position.value.quantity as real else st.cash
  }

  lemma ClosingMarks(st: State, bar: Bar)
    ensures AfterClose(st, bar).position == st.position && AfterClose(st, bar).trades == st.trades
    ensures AfterClose(st, bar).cash == st.cash && AfterClose(st, bar).risk == st.risk
    ensures AfterClose(st, bar).curve
         == st.curve + [WorthAt(st, bar.close)]
  {
    assert MarkedEquity(st.cash, st.position, bar.close) == WorthAt(st, bar.close);
  }

  lemma SameWorth(st: State, after: State, price: real)
    requires after.position == st.position && after.cash == st.cash
    ensures WorthAt(after, price) == WorthAt(st, price)
  {}

  // ----- No entry is missed

  /** A bar's entry was made on it: the position is still held, or its trade was closed on the same bar. */
  predicate EnteredOn(after: State, bar: Bar) {
    if after.position.Some? then after.position.value.entryTime == bar.time
    else |after.trades| > 0 && LastOf(after.trades).entryTime == bar.time
  }

  /** A flat run that is approved enters on every purchase decided on the bar before, if one share fits the bounds. */
  lemma PurchasesAreTaken(c: BacktestConfig, limits: RiskLimits, s: Strategy, bars: seq<Bar>, start: nat, k: nat)
    requires start <= k < |bars| && 0 < k && bars[k].open > 0.0
    requires StateAt(c, limits, s, bars, start, k).Ok? && StateAt(c, limits, s, bars, start, k).value.position.None?
    requires Proposes(SignalAt(s, bars, k - 1, false), BUY)
    requires var st := StateAt(c, limits, s, bars, start, k).value;
             && AfterMark(limits, st.risk, st.cash, bars[k].time).Ok?
             && MayOpen(limits, AfterMark(limits, st.risk, st.cash, bars[k].time).value, st.cash, 0)
             && FitsRisk(limits, bars[k].open * (1.0 + c.slippageRate), c.stopDistanceFraction, 1)
             && FitsCapital(limits, st.cash, bars[k].open * (1.0 + c.slippageRate), c.initialCapital,
                            c.commissionRate, 1)
    ensures StateAt(c, limits, s, bars, start, k + 1).Ok?
    ensures EnteredOn(StateAt(c, limits, s, bars, start, k + 1).value, bars[k])
  {
    hide SignalAt, AfterMark, BlockReasons, MayOpen, SizeNewPosition, FitsRisk, FitsCapital, TradeFor, CashAfterClose,
         StopHit, TargetHit, Config.SellPrice;
    var st, bar := StateAt(c, limits, s, bars, start, k).value, bars[k];
    var price := bar.open * (1.0 + c.slippageRate);
    FlatEquity(st.cash, bar.open);
    GateIsOpen(limits, AfterMark(limits, st.risk, st.cash, bar.time).value, st.cash);
    PositivePrice(bar.open, c.slippageRate);
    SizeNewPositionIsMaximal(limits, st.cash, price, c.stopDistanceFraction, c.initialCapital, c.commissionRate);
    assert price == c.BuyPrice(bar.open);
    var entered := ThroughEntry(c, limits, st, PendingSignal(s, bars, k, false), bar);
    assert entered.Ok? && entered.value.position.Some? && entered.value.position.value.entryTime == bar.time;
    TradesNameTheirEntry(c, entered.value, PendingSignal(s, bars, k, false), bar);
    hide ThroughEntry, AfterExit;
    ClosingMarks(AfterExit(c, entered.value, PendingSignal(s, bars, k, false), bar), bar);
  }

  lemma PositivePrice(price: real, slippage: real)
    requires price > 0.0 && slippage >= 0.0
    ensures price * (1.0 + slippage) > 0.0
  {}

  lemma TradesNameTheirEntry(c: BacktestConfig, st: State, signal: Option<Signal>, bar: Bar)
    requires st.position.Some?
    ensures var after := AfterExit(c, st, signal, bar);
            if after.position.Some? then after.position == st.position
            else |after.trades| > 0 && LastOf(after.trades).entryTime == st.position.value.entryTime
  {
    hide CashAfterClose, StopHit, TargetHit, Config.SellPrice;
  }

  // ----- The curve, the marks and the liquidation

  lemma MarkedAtOpen(c: BacktestConfig, limits: RiskLimits, st: State, signal: Option<Signal>, bar: Bar)
    requires ThroughEntry(c, limits, st, signal, bar).Ok?
    ensures var entered := ThroughEntry(c, limits, st, signal, bar).value;
            && entered.curve == st.curve
            && AfterMark(limits, st.risk, WorthAt(st, bar.open), bar.time) == Ok(entered.risk)
  {
    hide AfterMark, BlockReasons, SizeNewPosition, Opened;
    assert MarkedEquity(st.cash, st.position, bar.open) == WorthAt(st, bar.open);
  }

  lemma ExitKeepsMarks(c: BacktestConfig, st: State, signal: Option<Signal>, bar: Bar)
    ensures AfterExit(c, st, signal, bar).risk == st.risk && AfterExit(c, st, signal, bar).curve == st.curve
  {
    hide TradeFor, CashAfterClose, StopHit, TargetHit, Config.SellPrice;
  }

  /** Each bar adds the equity at its close, after marking the risk engine with the equity at its open. */
  lemma BarIsMarked(c: BacktestConfig, limits: RiskLimits, s: Strategy, bars: seq<Bar>, start: nat, k: nat)
    requires start <= k < |bars| && StateAt(c, limits, s, bars, start, k + 1).Ok?
    ensures StateAt(c, limits, s, bars, start, k).Ok?
    ensures var st := StateAt(c, limits, s, bars, start, k).value;
            var after := StateAt(c, limits, s, bars, start, k + 1).value;
            && AfterMark(limits, st.risk, WorthAt(st, bars[k].open), bars[k].time) == Ok(after.risk)
            && after.curve == st.curve + [WorthAt(after, bars[k].close)]
  {
    hide WorthAt, SignalAt, AfterMark, ThroughEntry, AfterExit, AfterClose;
    var st := StateAt(c, limits, s, bars, start, k).value;
    var signal := PendingSignal(s, bars, k, st.position.Some?);
    MarkedAtOpen(c, limits, st, signal, bars[k]);
    var entered := ThroughEntry(c, limits, st, signal, bars[k]).value;
    ExitKeepsMarks(c, entered, signal, bars[k]);
    var left := AfterExit(c, entered, signal, bars[k]);
    ClosingMarks(left, bars[k]);
    SameWorth(left, AfterClose(left, bars[k]), bars[k].close);
    assert StateAt(c, limits, s, bars, start, k + 1) == Ok(AfterClose(left, bars[k]));
  }

  /**
   * A position still held at the end is sold at the slipped last close, and the last point of the curve becomes the
   * cash that leaves; the report gives the drawdown of that curve and the switch as the run left it.
   */
  lemma LastPositionIsLiquidated(c: BacktestConfig, limits: RiskLimits, s: Strategy, bars: seq<Bar>, start: int)
    requires RunResult(c, limits, s, bars, start).Ok?
    ensures 0 <= start < |bars| && StateAt(c, limits, s, bars, start, |bars|).Ok?
    ensures var st, r := StateAt(c, limits, s, bars, start, |bars|).value, RunResult(c, limits, s, bars, start).value;
            && r.initialCapital == c.initialCapital && r.maxDrawdown == Metrics.MaxDrawdown(r.curve)
            && r.killSwitchTriggered == st.risk.tripped && r.killSwitchReason == st.risk.reason
            && if st.position.None? then r.trades == st.trades && r.finalCapital == st.cash && r.curve == st.curve
               else
                 && |r.trades| == |st.trades| + 1 && r.trades[..|st.trades|] == st.trades
                 && |r.curve| == |st.curve| > 0 && r.curve[..|r.curve| - 1] == st.curve[..|r.curve| - 1]
                 && r.curve[|r.curve| - 1] == r.finalCapital
                 && var p, t := st.position.value, LastOf(r.trades);
                    && t.exitReason == ForcedLiquidation && t.exitTime == LastOf(bars).time
                    && t.exitPrice == LastOf(bars).close * (1.0 - c.slippageRate)
                    && t.quantity == p.quantity && t.entryPrice == p.entryPrice && t.entryTime == p.entryTime
                    && t.grossPnl == (t.exitPrice - p.entryPrice) * p.quantity as real
                    && r.finalCapital == st.cash + t.exitPrice * p.quantity as real
                                         - t.exitPrice * p.quantity as real * c.commissionRate
  {
    hide StateAt, ValidBars, Metrics.MaxDrawdown;
    CurveIsNotEmpty(c, limits, s, bars, start, |bars|);
  }

  /** A bar whose prices are positive and whose low and high enclose its open and its close. */
  predicate Encloses(b: Bar) {
    && b.open > 0.0 && b.high > 0.0 && b.low > 0.0 && b.close > 0.0
    && b.low <= b.open <= b.high && b.low <= b.close <= b.high
  }

  /**
   * The accepted inputs are those whose bars are enclosing, visible no earlier than their own time, of one series, and
   * each later than all bars before it.
   */
  lemma AcceptedInputs(bars: seq<Bar>)
    ensures ValidBars(bars) <==>
            && (forall i | 0 <= i < |bars| :: Encloses(bars[i]) && bars[i].time.instant <= bars[i].availableAt)
            && (forall i, j | 0 <= i < j < |bars| ::
                  && bars[i].time.instant < bars[j].time.instant && bars[i].instrument == bars[j].instrument
                  && bars[i].exchange == bars[j].exchange && bars[i].timeframe == bars[j].timeframe)
  {
    hide Encloses, ValidPrices;
    forall b: Bar ensures ValidPrices(b) <==> Encloses(b) {
      PricesEnclose(b);
    }
    if ValidBars(bars) {
      AllLater(bars, |bars|);
    }
  }

  lemma PricesEnclose(b: Bar)
    ensures ValidPrices(b) <==> Encloses(b)
  {}

  lemma {:induction false} AllLater(bars: seq<Bar>, n: nat)
    requires n <= |bars| && forall i | 0 < i < |bars| :: bars[i - 1].time.instant < bars[i].time.instant
    ensures forall i, j | 0 <= i < j < n :: bars[i].time.instant < bars[j].time.instant
  {
    if n > 1 {
      var k := n - 1;
      AllLater(bars, k);
      assert bars[k - 1].time.instant < bars[k].time.instant;
    }
  }
}
