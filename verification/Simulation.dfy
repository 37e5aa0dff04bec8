/** The shadow session simulates the backtester, bar for bar, exactly until a bar on which it must part from it. */
module SessionSimulatesBacktest {
  import opened Prelude
  import opened OrderedDict
  import opened Models
  import opened Risk
  import opened PaperBroking
  import opened OrderManaging
  import opened SingleInstrument
  import opened Strategies
  import opened ShadowTrading
  import B = Backtesting
  import opened BacktestLaws

  /** The only new order ids are this bar's. */
  ghost predicate OnlyThisBarsOrders(before: Ledger, after: Ledger, bar: Bar) {
    forall id | id in after.orders.data :: id in before.orders.data || id.instant == bar.time.instant
  }

  /** Every order on the book is older than now. */
  ghost predicate OrdersBefore(l: Ledger, now: int) {
    forall id | id in l.orders.data :: id.instant < now
  }

  // ----- The simulation relation

  ghost predicate SameLevels(c: B.BacktestConfig, p: B.OpenPosition, s: Session) {
    && s.stopPrice == (if c.enableStopLoss then Some(p.stopPrice) else None)
    && s.targetPrice == p.targetPrice
    && (p.targetPrice.Some? <==> c.enableTargetExit)
    && (c.enableStopLoss ==> p.stopPrice > 0.0)
  }

  /** The two engines hold the same cash, position, exit levels and risk state. */
  ghost predicate Matches(c: B.BacktestConfig, bt: B.State, s: Session, key: string) {
    && OnlyKey(s.ledger, key)
    && s.ledger.rate == c.commissionRate
    && s.ledger.cash == bt.cash
    && s.risk == bt.risk
    && (bt.position.None? ==> s.ledger.Held(key) == 0 && s.stopPrice.None? && s.targetPrice.None?)
    && (bt.position.Some? ==>
          && bt.position.value.quantity == s.ledger.Held(key) > 0
          && bt.position.value.entryPrice == s.ledger.AveragePrice(key)
          && SameLevels(c, bt.position.value, s))
  }

  /** A bar at its place in the feed: later than every order so far, priced, and for the session's instrument. */
  ghost predicate NextBar(s: Session, bar: Bar, key: string) {
    && OrdersBefore(s.ledger, bar.time.instant)
    && B.ValidPrices(bar)
    && key == PositionKey(bar.instrument, bar.exchange)
  }

  lemma SameEquity(c: B.BacktestConfig, bt: B.State, s: Session, key: string, price: real)
    requires Matches(c, bt, s, key)
    ensures EquityAt(s.ledger, price) == B.MarkedEquity(bt.cash, bt.position, price)
  {
    hide Notional, Select;
    OnlyPosition(s.ledger, key);
  }

  /** The session's broker takes no sale for the bar: the slipped price is not positive, or the instrument is blank. */
  predicate Unsellable(c: B.BacktestConfig, bar: Bar) {
    c.slippageRate >= 1.0 || Blank(bar.instrument)
  }

  lemma SlippedAway(price: real, slippage: real)
    requires price > 0.0 && slippage >= 1.0
    ensures price * (1.0 - slippage) <= 0.0
  {
    NonNegativeProduct(price, slippage - 1.0);
    assert price * (1.0 - slippage) == -(price * (slippage - 1.0));
  }

  lemma UnsellableRaises(c: SessionConfig, l: Ledger, bar: Bar, position: Position, kind: OrderKind, price: real)
    requires Unsellable(c.trading, bar) && price > 0.0
    requires IdFor(bar, kind) !in l.orders.data
    ensures AfterSellSubmission(l, SellAll(bar, position, kind, c.trading.SellPrice(price))) == Err(ValueError)
  {
    hide Blank, AfterBuy, AfterSell;
    if c.trading.slippageRate >= 1.0 {
      SlippedAway(price, c.trading.slippageRate);
    }
  }

  lemma SellPriceIsPositive(c: B.BacktestConfig, price: real)
    requires c.slippageRate < 1.0 && price > 0.0
    ensures c.SellPrice(price) > 0.0
  {
    PositiveProduct(price, 1.0 - c.slippageRate);
  }

  /** Closing at the same price keeps the engines matched. */
  lemma CloseMatches(c: B.BacktestConfig, bt: B.State, s: Session, after: Session, a: SellArgs, reason: B.ExitReason,
                     key: string)
    requires Matches(c, bt, s, key) && bt.position.Some?
    requires a.id !in s.ledger.orders.data && !Blank(a.instrument) && key == PositionKey(a.instrument, a.exchange)
    requires a.fillPrice > 0.0 && a.quantity == s.ledger.Held(key)
    requires AfterSellSubmission(s.ledger, a).Ok? ==>
               after == after.(ledger := AfterSellSubmission(s.ledger, a).value.0, risk := s.risk, stopPrice := None,
                   targetPrice := None)
    ensures AfterSellSubmission(s.ledger, a).Ok?
    ensures AfterSellSubmission(s.ledger, a).value.0.orders.data.Keys == s.ledger.orders.data.Keys + {a.id}
    ensures Matches(c, B.Closed(c, bt, a.time, a.fillPrice, reason), after, key)
  {
    FullSaleCloses(s.ledger, a, key);
    hide Notional, Fee, PositionKey, AfterSellSubmission, B.TradeFor;
  }

  predicate LevelReached(c: B.BacktestConfig, p: B.OpenPosition, bar: Bar) {
    B.StopHit(c, p, bar) || B.TargetHit(c, p, bar)
  }

  /** The engines agree on whether and how the open position leaves on this bar. */
  lemma ExitMatches(c: SessionConfig, bt: B.State, s: Session, bar: Bar, key: string)
    requires Matches(c.trading, bt, s, key) && NextBar(s, bar, key) && bt.position.Some?
    requires !Unsellable(c.trading, bar) || !LevelReached(c.trading, bt.position.value, bar)
    ensures var p, exited := bt.position.value, ExitPhase(c, s, bar);
            && exited.Ok?
            && (exited.value.action.Some? <==> B.StopHit(c.trading, p, bar) || B.TargetHit(c.trading, p, bar))
            && exited.value.session.history == s.history && exited.value.session.explicitStale == s.explicitStale
            && exited.value.session.lastBarTime == s.lastBarTime
            && OnlyThisBarsOrders(s.ledger, exited.value.session.ledger, bar)
            && (exited.value.action.Some? ==>
                  forall signal :: Matches(c.trading, B.AfterExit(c.trading, bt, signal, bar), exited.value.session,
                      key))
            && (exited.value.action.None? ==> exited.value == Phase(s, None, None))
  {
    hide Notional, Fee, PositionKey, Matches, Select, AfterSellSubmission, B.Closed, Blank, CurrentPosition,
         B.Config.SellPrice;
    MatchesFacts(c.trading, bt, s, key);
    OnlyPosition(s.ledger, key);
    var p, position := bt.position.value, s.ledger.positions.data[key];
    if B.StopHit(c.trading, p, bar) {
      var price := c.trading.SellPrice(Min(bar.open, p.stopPrice));
      SellPriceIsPositive(c.trading, Min(bar.open, p.stopPrice));
      CloseMatches(c.trading, bt, s, ExitSession(s, bar, position, KStopLoss, price, StopLossHit),
                   SellAll(bar, position, KStopLoss, price), B.StopLossExit, key);
    } else if B.TargetHit(c.trading, p, bar) {
      var price := c.trading.SellPrice(Max(bar.open, p.targetPrice.value));
      SellPriceIsPositive(c.trading, Max(bar.open, p.targetPrice.value));
      CloseMatches(c.trading, bt, s, ExitSession(s, bar, position, KTarget, price, TargetReached),
                   SellAll(bar, position, KTarget, price), B.TargetExit, key);
    }
  }

  /** A level reached where nothing can be sold: the session raises. */
  lemma UnsellableExitRaises(c: SessionConfig, bt: B.State, s: Session, bar: Bar, key: string)
    requires Matches(c.trading, bt, s, key) && NextBar(s, bar, key) && bt.position.Some?
    requires Unsellable(c.trading, bar) && LevelReached(c.trading, bt.position.value, bar)
    ensures ExitPhase(c, s, bar).Err?
  {
    hide Notional, Fee, PositionKey, Matches, Select, AfterSellSubmission, Blank, CurrentPosition, B.Config.SellPrice;
    MatchesFacts(c.trading, bt, s, key);
    OnlyPosition(s.ledger, key);
    var p, position := bt.position.value, s.ledger.positions.data[key];
    if B.StopHit(c.trading, p, bar) {
      UnsellableRaises(c, s.ledger, bar, position, KStopLoss, Min(bar.open, p.stopPrice));
    } else {
      UnsellableRaises(c, s.ledger, bar, position, KTarget, Max(bar.open, p.targetPrice.value));
    }
  }

  lemma MatchesFacts(c: B.BacktestConfig, bt: B.State, s: Session, key: string)
    requires Matches(c, bt, s, key)
    ensures OnlyKey(s.ledger, key)
    ensures bt.position.None? ==> s.ledger.Held(key) == 0 && s.stopPrice.None? && s.targetPrice.None?
    ensures bt.position.Some? ==>
              bt.position.value.quantity == s.ledger.Held(key) > 0 && SameLevels(c, bt.position.value, s)
  {}

  function ExitSession(s: Session, bar: Bar, position: Position, kind: OrderKind, price: real,
                       incident: IncidentKind): Session {
    var sold := AfterSellSubmission(s.ledger, SellAll(bar, position, kind, price));
    s.(ledger := if sold.Ok? then sold.value.0 else s.ledger, stopPrice := None, targetPrice := None,
       incidents := s.incidents + [Incident(bar.time.instant, incident)])
  }

  /** The session's entry opens the very position the backtester opens. */
  lemma EntryMatches(c: SessionConfig, limits: RiskLimits, bt: B.State, s: Session, signal: Option<Signal>, bar: Bar,
                     key: string)
    requires Matches(c.trading, bt, s, key) && NextBar(s, bar, key)
    requires bt.position.None? && signal.Some? && signal.value.action.BUY?
    ensures B.AfterEntry(c.trading, limits, bt, signal, bar).Ok?
    ensures var fills := B.AfterEntry(c.trading, limits, bt, signal, bar).value.position.Some?;
            EntryPhase(c, limits, s, bar, EquityAt(s.ledger, bar.open), false).Ok? <==>
              !(Blank(bar.instrument) && fills)
    ensures var fills, entered := B.AfterEntry(c.trading, limits, bt, signal, bar).value.position.Some?,
                                  EntryPhase(c, limits, s, bar, EquityAt(s.ledger, bar.open), false);
            !(Blank(bar.instrument) && fills) ==>
            && entered.Ok?
            && entered.value.session.history == s.history && entered.value.session.explicitStale == s.explicitStale
            && entered.value.session.lastBarTime == s.lastBarTime
            && OnlyThisBarsOrders(s.ledger, entered.value.session.ledger, bar)
            && Matches(c.trading, B.AfterEntry(c.trading, limits, bt, signal, bar).value, entered.value.session, key)
  {
    hide Notional, Fee, PositionKey, Select, AfterOrder, Blank, SizeNewPosition, SizeByWeight, BlockReasons,
         CurrentPosition,
         EquityAt, Shares, B.Config.BuyPrice, B.Config.StopPrice, B.Config.TargetPrice, B.MarkedEquity, LongCount;
    OnlyPosition(s.ledger, key);
    SameEquity(c.trading, bt, s, key, bar.open);
    EntryPricesArePositive(c.trading, bar.open);
    var price := c.trading.BuyPrice(bar.open);
    RiskSizeIsCapped(limits, bt.cash, price, c.trading.stopDistanceFraction, c.trading.initialCapital,
        c.trading.commissionRate);
    var quantity := SizeNewPosition(limits, bt.cash, price, c.trading.stopDistanceFraction,
                                    c.trading.initialCapital, c.trading.commissionRate).value;
    if quantity > 0 {
      SizeIsAffordable(limits, bt.cash, price, Some(c.trading.stopDistanceFraction), c.trading.initialCapital,
                       c.trading.commissionRate, quantity);
      var request := OrderRequest(IdFor(bar, KBuy), bar.instrument, bar.exchange, BUY, quantity);
      PurchaseOpens(s.ledger, request, price, bar.time, key);
    }
  }

  /** ... and a sale signal closes it at the same price. */
  lemma SaleMatches(c: SessionConfig, bt: B.State, s: Session, signal: Option<Signal>, bar: Bar, key: string)
    requires Matches(c.trading, bt, s, key) && NextBar(s, bar, key) && bt.position.Some?
    requires !Unsellable(c.trading, bar)
    requires !B.StopHit(c.trading, bt.position.value, bar) && !B.TargetHit(c.trading, bt.position.value, bar)
    requires signal.Some? && signal.value.action.SELL?
    requires s.ledger.Held(key) > 0
    ensures var sold := SalePhase(c, s, bar, s.ledger.positions.data[key]);
            && sold.Ok?
            && sold.value.session.history == s.history && sold.value.session.explicitStale == s.explicitStale
            && sold.value.session.lastBarTime == s.lastBarTime
            && OnlyThisBarsOrders(s.ledger, sold.value.session.ledger, bar)
            && Matches(c.trading, B.AfterExit(c.trading, bt, signal, bar), sold.value.session, key)
  {
    hide Notional, Fee, PositionKey, Matches, AfterSellSubmission, B.Closed, Blank, B.Config.SellPrice;
    var position := s.ledger.positions.data[key];
    var price := c.trading.SellPrice(bar.open);
    SellPriceIsPositive(c.trading, bar.open);
    var a := SellAll(bar, position, KSell, price);
    MatchesFacts(c.trading, bt, s, key);
    var sold := AfterSellSubmission(s.ledger, a);
    var after := s.(ledger := if sold.Ok? then sold.value.0 else s.ledger, stopPrice := None, targetPrice := None);
    CloseMatches(c.trading, bt, s, after, a, B.SignalExit, key);
  }

  // ----- One bar

  /** The bar fills an entry and also reaches that position's stop or target. */
  ghost predicate EntersAndExits(c: B.BacktestConfig, limits: RiskLimits, bt: B.State, signal: Option<Signal>,
                                 bar: Bar) {
    var entered := B.ThroughEntry(c, limits, bt, signal, bar);
    && bt.position.None? && entered.Ok? && entered.value.position.Some?
    && (B.StopHit(c, entered.value.position.value, bar) || B.TargetHit(c, entered.value.position.value, bar))
  }

  /** The backtester fills an order on the bar that the session's broker does not take. */
  ghost predicate Refused(c: B.BacktestConfig, limits: RiskLimits, bt: B.State, signal: Option<Signal>, bar: Bar) {
    var entered := B.ThroughEntry(c, limits, bt, signal, bar);
    && entered.Ok?
    && if bt.position.None? then Blank(bar.instrument) && entered.value.position.Some?
       else Unsellable(c, bar) && B.AfterExit(c, entered.value, signal, bar).position.None?
  }

  lemma MatchIgnoresBookkeeping(c: B.BacktestConfig, x: B.State, y: B.State, s: Session, t: Session, key: string)
    requires Matches(c, x, s, key)
    requires x == y.(curve := x.curve, trades := x.trades)
    requires s.ledger == t.ledger && s.risk == t.risk && s.stopPrice == t.stopPrice && s.targetPrice == t.targetPrice
    ensures Matches(c, y, t, key)
  {}

  lemma LeavesWhen(c: B.BacktestConfig, bt: B.State, signal: Option<Signal>, bar: Bar)
    requires bt.position.Some?
    ensures B.AfterExit(c, bt, signal, bar).position.None? <==>
            LevelReached(c, bt.position.value, bar) || (signal.Some? && signal.value.action.SELL?)
  {
    hide B.TradeFor, B.CashAfterClose;
  }

  /** From matched states at the open, with a position: the bar's exits and sales match. */
  lemma HoldingBarMatches(c: SessionConfig, limits: RiskLimits, strategy: Strategy, bt: B.State, s: Session,
                          signal: Option<Signal>, bar: Bar, key: string)
    requires Matches(c.trading, bt, s, key) && NextBar(s, bar, key) && bt.position.Some?
    requires !Unsellable(c.trading, bar) || B.AfterExit(c.trading, bt, signal, bar).position.Some?
    requires signal == SignalFor(strategy, s.history, true)
    ensures B.AfterEntry(c.trading, limits, bt, signal, bar) == Ok(bt)
    ensures ExitPhase(c, s, bar).Ok? && ExitPhase(c, s, bar).value.session.ledger.Valid()
    ensures var acted := SignalPhase(c, limits, strategy, ExitPhase(c, s, bar).value, bar,
            EquityAt(s.ledger, bar.open), false);
            && acted.Ok?
            && Carries(s, acted.value.session, bar)
            && Matches(c.trading, B.AfterExit(c.trading, bt, signal, bar), acted.value.session, key)
  {
    hide Notional, Fee, PositionKey, Matches, NextBar, SalePhase, EntryPhase, ExitPhase, SignalAt, OnlyKey,
         CurrentPosition, B.Closed, SameLevels, B.TargetHit, B.StopHit, EquityAt;
    MatchesFacts(c.trading, bt, s, key);
    OnlyKeyIsValid(s.ledger, key);
    LeavesWhen(c.trading, bt, signal, bar);
    ExitMatches(c, bt, s, bar, key);
    OnlyPosition(s.ledger, key);
    ExitKeepsValidWhenMatched(c.trading, B.AfterExit(c.trading, bt, signal, bar), ExitPhase(c, s, bar).value.session,
        s, key);
    SignalForFitsHolding(strategy, s.history, true);
    if ExitPhase(c, s, bar).value.action.None? && signal.Some? {
      SaleMatches(c, bt, s, signal, bar, key);
    }
  }

  /** ... unless the position has to leave and nothing can be sold. */
  lemma HoldingBarRaises(c: SessionConfig, limits: RiskLimits, strategy: Strategy, bt: B.State, s: Session,
                         signal: Option<Signal>, bar: Bar, key: string)
    requires Matches(c.trading, bt, s, key) && NextBar(s, bar, key) && bt.position.Some?
    requires Unsellable(c.trading, bar) && B.AfterExit(c.trading, bt, signal, bar).position.None?
    requires signal == SignalFor(strategy, s.history, true)
    ensures B.AfterEntry(c.trading, limits, bt, signal, bar) == Ok(bt)
    ensures ExitPhase(c, s, bar).Ok? ==>
              && ExitPhase(c, s, bar).value.session.ledger.Valid()
              && SignalPhase(c, limits, strategy, ExitPhase(c, s, bar).value, bar, EquityAt(s.ledger, bar.open),
                  false).Err?
  {
    hide Notional, Fee, PositionKey, Matches, EntryPhase, ExitPhase, SignalAt, OnlyKey, AfterSellSubmission, Blank,
         CurrentPosition, B.Closed, SameLevels, B.TargetHit, B.StopHit, EquityAt, Select, B.Config.SellPrice;
    MatchesFacts(c.trading, bt, s, key);
    OnlyKeyIsValid(s.ledger, key);
    OnlyPosition(s.ledger, key);
    LeavesWhen(c.trading, bt, signal, bar);
    if LevelReached(c.trading, bt.position.value, bar) {
      UnsellableExitRaises(c, bt, s, bar, key);
    } else {
      ExitMatches(c, bt, s, bar, key);
      UnsellableRaises(c, s.ledger, bar, s.ledger.positions.data[key], KSell, bar.open);
    }
  }

  lemma ExitKeepsValidWhenMatched(c: B.BacktestConfig, bt: B.State, exited: Session, s: Session, key: string)
    requires Matches(c, bt, exited, key) || (exited == s && OnlyKey(s.ledger, key))
    ensures exited.ledger.Valid()
  {}

  /** The bar changed only this bar's trading fields. */
  ghost predicate Carries(before: Session, after: Session, bar: Bar) {
    && after.history == before.history && after.explicitStale == before.explicitStale
    && after.lastBarTime == before.lastBarTime
    && OnlyThisBarsOrders(before.ledger, after.ledger, bar)
  }

  lemma SignalForFitsHolding(strategy: Strategy, history: seq<Bar>, holding: bool)
    ensures var signal := SignalFor(strategy, history, holding);
            signal.Some? ==> (signal.value.action.BUY? <==> !holding)
  {
    hide SignalAt;
    if |history| >= 2 {
      SignalFitsHolding(strategy, history, |history| - 2, holding);
    }
  }

  /** From matched flat states at the open: the bar matches unless it also exits the entry it fills. */
  lemma FlatBarMatches(c: SessionConfig, limits: RiskLimits, strategy: Strategy, bt: B.State, s: Session,
                       signal: Option<Signal>, bar: Bar, key: string)
    requires Matches(c.trading, bt, s, key) && NextBar(s, bar, key) && bt.position.None?
    requires signal == SignalFor(strategy, s.history, false)
    ensures B.AfterEntry(c.trading, limits, bt, signal, bar).Ok?
    ensures ExitPhase(c, s, bar) == Ok(Phase(s, None, None)) && s.ledger.Valid()
    ensures var acted := SignalPhase(c, limits, strategy, Phase(s, None, None), bar, EquityAt(s.ledger, bar.open),
            false);
            var entered := B.AfterEntry(c.trading, limits, bt, signal, bar).value;
            && (acted.Ok? <==> !(Blank(bar.instrument) && entered.position.Some?))
            && (acted.Ok? ==>
              Carries(s, acted.value.session, bar) && Matches(c.trading, entered, acted.value.session, key))
            && (entered.position.Some? ==> signal.Some? && signal.value.action.BUY?)
  {
    hide Notional, Fee, PositionKey, Matches, NextBar, SalePhase, EntryPhase, SignalAt, OnlyKey, StopTouched,
         TargetTouched,
         CurrentPosition, SameLevels, EquityAt, BlockReasons, SizeNewPosition, B.Opened, ExitAt, Blank;
    MatchesFacts(c.trading, bt, s, key);
    OnlyPosition(s.ledger, key);
    OnlyKeyIsValid(s.ledger, key);
    SignalForFitsHolding(strategy, s.history, false);
    if signal.Some? {
      EntryMatches(c, limits, bt, s, signal, bar, key);
    }
  }

  lemma OnlyKeyIsValid(l: Ledger, key: string)
    requires OnlyKey(l, key)
    ensures l.Valid()
  {}

  /** After entry and exit the backtester matches the session, unless the bar exits its own entry. */
  lemma EntryBarOutcome(c: B.BacktestConfig, entered: B.State, signal: Option<Signal>, bar: Bar, acted: Session,
                        key: string)
    requires Matches(c, entered, acted, key)
    requires entered.position.Some? ==> signal.Some? && signal.value.action.BUY?
    ensures Matches(c, B.AfterExit(c, entered, signal, bar), acted, key) <==>
            !(entered.position.Some? && (B.StopHit(c, entered.position.value, bar)
                || B.TargetHit(c, entered.position.value, bar)))
  {
    hide Notional, Fee, PositionKey, OnlyKey, SameLevels, B.TradeFor, B.CashAfterClose;
  }

  // ----- Whole runs

  /** The session has processed exactly the first k bars, and is not stale. */
  ghost predicate InStep(s: Session, bars: seq<Bar>, k: nat)
    requires k <= |bars|
  {
    && s.history == bars[..k] && !s.explicitStale
    && s.lastBarTime == (if k == 0 then None else Some(bars[k - 1].time.instant))
    && forall id | id in s.ledger.orders.data :: k > 0 && id.instant <= bars[k - 1].time.instant
  }

  predicate GapFree(c: SessionConfig, bars: seq<Bar>) {
    forall i :: 0 < i < |bars| ==> bars[i].time.instant - bars[i - 1].time.instant <= c.maxBarGap
  }

  /** A feed the backtester accepts, without gaps. */
  ghost predicate Feed(c: SessionConfig, bars: seq<Bar>) {
    B.ValidBars(bars) && GapFree(c, bars)
  }

  function KeyOf(bars: seq<Bar>): string {
    if |bars| == 0 then "" else PositionKey(bars[0].instrument, bars[0].exchange)
  }

  lemma FeedFacts(c: SessionConfig, bars: seq<Bar>, s: Session, k: nat)
    requires Feed(c, bars) && k < |bars| && InStep(s, bars, k)
    ensures NextBar(s, bars[k], KeyOf(bars))
    ensures !WrongInstrument(s, bars[k]) && !Suppresses(c, s, bars[k])
    ensures Received(c, s, bars[k]).history == bars[..k + 1]
  {
    hide Blank, PositionKey, B.ValidPrices;
    assert B.ValidBar(bars[0], bars[k]);
    BarPricesAreValid(bars[0], bars[k]);
    if k > 0 {
      assert bars[k - 1].time.instant < bars[k].time.instant;
      assert s.history[0] == bars[0];
    }
  }

  lemma BarPricesAreValid(first: Bar, bar: Bar)
    requires B.ValidBar(first, bar)
    ensures B.ValidPrices(bar)
  {}

  /** Both engines ask the strategy for the same decision. */
  lemma SameSignal(strategy: Strategy, bars: seq<Bar>, k: nat, holding: bool)
    requires k < |bars|
    ensures SignalFor(strategy, bars[..k + 1], holding) == B.PendingSignal(strategy, bars, k, holding)
  {
    hide SignalAt;
    if k > 0 {
      assert bars[..k + 1][..k] == bars[..k];
      DecisionIsCausal(strategy, bars[..k + 1], bars, k - 1, holding);
    }
  }

  lemma StaysInStep(s: Session, after: Session, bars: seq<Bar>, k: nat)
    requires k < |bars| && InStep(s, bars, k) && (k > 0 ==> bars[k - 1].time.instant < bars[k].time.instant)
    requires after.history == bars[..k + 1] && !after.explicitStale && after.lastBarTime == Some(bars[k].time.instant)
    requires OnlyThisBarsOrders(s.ledger, after.ledger, bars[k])
    ensures InStep(after, bars, k + 1)
  {}

  /**
   * One bar of a feed: both engines raise at the mark, or the session alone raises because its broker does not take
   * what the backtester fills, or the states match exactly when the bar does not exit its own entry.
   */
  lemma BarSimulates(c: SessionConfig, limits: RiskLimits, strategy: Strategy, bt: B.State, s: Session, bars: seq<Bar>,
                     k: nat)
    requires Feed(c, bars) && k < |bars| && InStep(s, bars, k)
    requires Matches(c.trading, bt, s, KeyOf(bars)) && s.ledger.Valid()
    ensures var signal := B.PendingSignal(strategy, bars, k, bt.position.Some?);
            var after, btAfter := AfterBar(c, limits, strategy, s, bars[k]),
                B.AfterBar(c.trading, limits, bt, signal, bars[k]);
            && (after.error.Some? <==> btAfter.Err? || Refused(c.trading, limits, bt, signal, bars[k]))
            && (after.error.None? ==>
                  && InStep(after.session, bars, k + 1)
                  && (Matches(c.trading, btAfter.value, after.session, KeyOf(bars)) <==>
                        !EntersAndExits(c.trading, limits, bt, signal, bars[k])))
  {
    hide Notional, PositionKey, Feed, InStep, NextBar, Matches, WrongInstrument, Suppresses, EquityAt, AfterMark,
         ExitPhase,
         SignalPhase, SignalFor, B.PendingSignal, B.AfterEntry, B.AfterExit, B.MarkedEquity, B.StopHit, B.TargetHit,
             KeyOf, OnlyThisBarsOrders,
         Unsellable, Blank;
    var bar, key := bars[k], KeyOf(bars);
    var holding := bt.position.Some?;
    var signal := B.PendingSignal(strategy, bars, k, holding);
    FeedFacts(c, bars, s, k);
    SameEquity(c.trading, bt, s, key, bar.open);
    SameSignal(strategy, bars, k, holding);
    MatchedRisk(c.trading, bt, s, key);
    var equity := EquityAt(s.ledger, bar.open);
    var risk := AfterMark(limits, s.risk, equity, bar.time);
    if risk.Ok? {
      var marked, btMarked := Received(c, s, bar).(risk := risk.value), bt.(risk := risk.value);
      MatchesAfterMark(c.trading, bt, s, btMarked, marked, key);
      NextBarAfterMark(s, marked, bar, key);
      SameEquity(c.trading, btMarked, marked, key, bar.open);
      if holding && Unsellable(c.trading, bar) && B.AfterExit(c.trading, btMarked, signal, bar).position.None? {
        HoldingBarRaises(c, limits, strategy, btMarked, marked, signal, bar, key);
      } else if holding {
        HoldingBarMatches(c, limits, strategy, btMarked, marked, signal, bar, key);
        var acted := SignalPhase(c, limits, strategy, ExitPhase(c, marked, bar).value, bar, equity, false).value;
        var left := B.AfterExit(c.trading, btMarked, signal, bar);
        MatchIgnoresBookkeeping(c.trading, left, B.AfterClose(left, bar), acted.session, Logged(acted, bar, false),
            key);
        CarriesIntoStep(s, marked, acted.session, Logged(acted, bar, false), c, bars, k);
      } else {
        FlatBarMatches(c, limits, strategy, btMarked, marked, signal, bar, key);
        var acting := SignalPhase(c, limits, strategy, Phase(marked, None, None), bar, equity, false);
        if acting.Ok? {
          var acted, entered := acting.value, B.AfterEntry(c.trading, limits, btMarked, signal, bar).value;
          EntryBarOutcome(c.trading, entered, signal, bar, acted.session, key);
          var left := B.AfterExit(c.trading, entered, signal, bar);
          SameMatch(c.trading, left, B.AfterClose(left, bar), acted.session, Logged(acted, bar, false), key);
          CarriesIntoStep(s, marked, acted.session, Logged(acted, bar, false), c, bars, k);
        }
      }
    }
  }

  lemma MatchedRisk(c: B.BacktestConfig, bt: B.State, s: Session, key: string)
    requires Matches(c, bt, s, key)
    ensures s.risk == bt.risk
  {}

  lemma MatchesAfterMark(c: B.BacktestConfig, bt: B.State, s: Session, btMarked: B.State, marked: Session, key: string)
    requires Matches(c, bt, s, key)
    requires btMarked == bt.(risk := marked.risk)
    requires s.ledger == marked.ledger && s.stopPrice == marked.stopPrice && s.targetPrice == marked.targetPrice
    ensures Matches(c, btMarked, marked, key)
  {}

  lemma SameMatch(c: B.BacktestConfig, x: B.State, y: B.State, s: Session, t: Session, key: string)
    requires x == y.(curve := x.curve)
    requires s.ledger == t.ledger && s.risk == t.risk && s.stopPrice == t.stopPrice && s.targetPrice == t.targetPrice
    ensures Matches(c, x, s, key) <==> Matches(c, y, t, key)
  {}

  lemma NextBarAfterMark(s: Session, marked: Session, bar: Bar, key: string)
    requires NextBar(s, bar, key) && marked.ledger == s.ledger
    ensures NextBar(marked, bar, key)
  {}

  lemma CarriesIntoStep(s: Session, marked: Session, acted: Session, logged: Session, c: SessionConfig, bars: seq<Bar>,
                        k: nat)
    requires Feed(c, bars) && k < |bars| && InStep(s, bars, k)
    requires marked == Received(c, s, bars[k]).(risk := marked.risk) && Carries(marked, acted, bars[k])
    requires logged == acted.(events := logged.events)
    ensures InStep(logged, bars, k + 1)
  {
    hide B.ValidBar, Blank, GapFree;
    StaysInStep(s, logged, bars, k);
  }

  /** The session fed the first k bars, up to the first exception. */
  function SessionAt(c: SessionConfig, limits: RiskLimits, strategy: Strategy, bars: seq<Bar>, k: nat): (e: Effect)
    requires k <= |bars|
    ensures e.session.ledger.Valid()
  {
    if k == 0 then Effect(NewSession(c), None)
    else
      var before := SessionAt(c, limits, strategy, bars, k - 1);
      if before.error.Some? then before
      else
        BarKeepsValid(c, limits, strategy, before.session, bars[k - 1]);
        AfterBar(c, limits, strategy, before.session, bars[k - 1])
  }

  /** After k bars both engines have raised, or neither has and they match. */
  ghost predicate Agree(c: SessionConfig, limits: RiskLimits, strategy: Strategy, bars: seq<Bar>, k: nat)
    requires k <= |bars|
  {
    var bt, session := B.StateAt(c.trading, limits, strategy, bars, 0, k), SessionAt(c, limits, strategy, bars, k);
    if bt.Err? then session.error.Some?
    else session.error.None? && Matches(c.trading, bt.value, session.session, KeyOf(bars))
  }

  /** The backtester fills an entry on bar k and leaves it again on the same bar. */
  ghost predicate EntersAndExitsAt(c: SessionConfig, limits: RiskLimits, strategy: Strategy, bars: seq<Bar>, k: nat)
    requires k < |bars|
  {
    var bt := B.StateAt(c.trading, limits, strategy, bars, 0, k);
    bt.Ok? && EntersAndExits(c.trading, limits, bt.value, B.PendingSignal(strategy, bars, k, bt.value.position.Some?),
        bars[k])
  }

  /** The backtester fills an order on bar k that the session's broker does not take. */
  ghost predicate RefusedAt(c: SessionConfig, limits: RiskLimits, strategy: Strategy, bars: seq<Bar>, k: nat)
    requires k < |bars|
  {
    var bt := B.StateAt(c.trading, limits, strategy, bars, 0, k);
    bt.Ok? && Refused(c.trading, limits, bt.value, B.PendingSignal(strategy, bars, k, bt.value.position.Some?), bars[k])
  }

  /** Bar k is one on which the engines must part. */
  ghost predicate PartsAt(c: SessionConfig, limits: RiskLimits, strategy: Strategy, bars: seq<Bar>, k: nat)
    requires k < |bars|
  {
    EntersAndExitsAt(c, limits, strategy, bars, k) || RefusedAt(c, limits, strategy, bars, k)
  }

  /** In step whenever the backtester has not raised. */
  ghost predicate StepInvariant(c: SessionConfig, limits: RiskLimits, strategy: Strategy, bars: seq<Bar>, k: nat)
    requires k <= |bars|
  {
    Agree(c, limits, strategy, bars, k) &&
    (B.StateAt(c.trading, limits, strategy, bars, 0, k).Ok? ==>
      InStep(SessionAt(c, limits, strategy, bars, k).session, bars, k))
  }

  lemma StartsInStep(c: SessionConfig, limits: RiskLimits, strategy: Strategy, bars: seq<Bar>)
    ensures StepInvariant(c, limits, strategy, bars, 0)
  {
    hide KeyOf;
  }

  lemma OneBarMore(c: SessionConfig, limits: RiskLimits, strategy: Strategy, bars: seq<Bar>, k: nat)
    requires Feed(c, bars) && k < |bars|
    requires StepInvariant(c, limits, strategy, bars, k)
    ensures !PartsAt(c, limits, strategy, bars, k) ==> StepInvariant(c, limits, strategy, bars, k + 1)
    ensures PartsAt(c, limits, strategy, bars, k) ==> !Agree(c, limits, strategy, bars, k + 1)
  {
    hide Feed, InStep, Matches, AfterBar, B.AfterBar, B.PendingSignal, EntersAndExits, Refused, KeyOf;
    var bt := B.StateAt(c.trading, limits, strategy, bars, 0, k);
    if bt.Ok? {
      BarSimulates(c, limits, strategy, bt.value, SessionAt(c, limits, strategy, bars, k).session, bars, k);
      if PartsAt(c, limits, strategy, bars, k) {
        PartingDoesNotRaise(c.trading, limits, bt.value, B.PendingSignal(strategy, bars, k, bt.value.position.Some?),
            bars[k]);
      }
    }
  }

  lemma PartingDoesNotRaise(c: B.BacktestConfig, limits: RiskLimits, bt: B.State, signal: Option<Signal>, bar: Bar)
    requires EntersAndExits(c, limits, bt, signal, bar) || Refused(c, limits, bt, signal, bar)
    ensures B.AfterBar(c, limits, bt, signal, bar).Ok?
  {
    hide B.ThroughEntry, B.AfterExit, Blank, Unsellable;
  }

  lemma {:induction false} InStepWithoutParting(c: SessionConfig, limits: RiskLimits, strategy: Strategy,
                                                bars: seq<Bar>, n: nat)
    requires Feed(c, bars) && n <= |bars|
    requires forall k | 0 <= k < n :: !PartsAt(c, limits, strategy, bars, k)
    ensures StepInvariant(c, limits, strategy, bars, n)
  {
    hide Feed, StepInvariant, PartsAt;
    if n == 0 {
      StartsInStep(c, limits, strategy, bars);
    } else {
      InStepWithoutParting(c, limits, strategy, bars, n - 1);
      OneBarMore(c, limits, strategy, bars, n - 1);
    }
  }

  lemma {:induction false} AgreementHasNoParting(c: SessionConfig, limits: RiskLimits, strategy: Strategy,
                                                 bars: seq<Bar>, n: nat)
    requires Feed(c, bars) && n <= |bars|
    requires forall k | 0 <= k <= n :: Agree(c, limits, strategy, bars, k)
    ensures forall k | 0 <= k < n :: !PartsAt(c, limits, strategy, bars, k)
  {
    hide Feed, StepInvariant, PartsAt, Agree;
    if n > 0 {
      AgreementHasNoParting(c, limits, strategy, bars, n - 1);
      InStepWithoutParting(c, limits, strategy, bars, n - 1);
      OneBarMore(c, limits, strategy, bars, n - 1);
    }
  }

  /**
   * On a strictly chronological, gap-free feed with equal settings, the shadow session has the backtester's cash,
   * position, exit levels and risk state after every one of the first n bars exactly when none of those bars both
   * fills an entry and reaches that entry's stop or target, and none fills an order the session's broker does not
   * take: an entry in a blank instrument, or an exit at a slippage of one or more.
   */
  lemma SessionSimulatesBacktester(c: SessionConfig, limits: RiskLimits, strategy: Strategy, bars: seq<Bar>, n: nat)
    requires Feed(c, bars) && n <= |bars|
    ensures (forall k | 0 <= k <= n :: Agree(c, limits, strategy, bars, k)) <==>
            (forall k | 0 <= k < n :: !EntersAndExitsAt(c, limits, strategy, bars, k)
                && !RefusedAt(c, limits, strategy, bars, k))
  {
    hide Feed, StepInvariant, EntersAndExitsAt, RefusedAt, Agree;
    if forall k | 0 <= k <= n :: Agree(c, limits, strategy, bars, k) {
      AgreementHasNoParting(c, limits, strategy, bars, n);
      forall k | 0 <= k < n
        ensures !EntersAndExitsAt(c, limits, strategy, bars, k) && !RefusedAt(c, limits, strategy, bars, k) {
        assert !PartsAt(c, limits, strategy, bars, k);
      }
    }
    if forall k | 0 <= k < n :: !EntersAndExitsAt(c, limits, strategy, bars, k)
        && !RefusedAt(c, limits, strategy, bars, k) {
      forall k | 0 <= k <= n ensures Agree(c, limits, strategy, bars, k) {
        InStepWithoutParting(c, limits, strategy, bars, k);
        StepInvariantAgrees(c, limits, strategy, bars, k);
      }
    }
  }

  lemma StepInvariantAgrees(c: SessionConfig, limits: RiskLimits, strategy: Strategy, bars: seq<Bar>, k: nat)
    requires k <= |bars| && StepInvariant(c, limits, strategy, bars, k)
    ensures Agree(c, limits, strategy, bars, k)
  {}

  // ----- Why the two side conditions are there

  /** An approved, affordable entry on a bar that falls to its stop also exits on it. */
  lemma FallingEntryBarExits(c: B.BacktestConfig, limits: RiskLimits, bt: B.State, signal: Option<Signal>, bar: Bar)
    requires bt.position.None? && signal.Some? && signal.value.action.BUY? && c.enableStopLoss
    requires B.AfterOpen(limits, bt, bar).Ok?
    requires var equity := B.MarkedEquity(bt.cash, None, bar.open);
             BlockReasons(limits, B.AfterOpen(limits, bt, bar).value.risk, equity, 0) == []
    requires var sized := SizeNewPosition(limits, bt.cash, c.BuyPrice(bar.open), c.stopDistanceFraction,
             c.initialCapital,
                                          c.commissionRate);
             sized.Ok? && sized.value > 0
    requires bar.low <= c.StopPrice(c.BuyPrice(bar.open))
    ensures EntersAndExits(c, limits, bt, signal, bar)
  {
    hide Notional, Fee, SizeNewPosition, BlockReasons, AfterMark;
  }

  /** Where the engines part on an entry bar: the backtester is flat again, the session holds what it bought. */
  lemma PartedOnEntryBar(c: SessionConfig, limits: RiskLimits, strategy: Strategy, bars: seq<Bar>, k: nat)
    requires Feed(c, bars) && k < |bars| && EntersAndExitsAt(c, limits, strategy, bars, k)
    requires forall j | 0 <= j <= k :: Agree(c, limits, strategy, bars, j)
    ensures !Agree(c, limits, strategy, bars, k + 1)
  {
    hide Feed, StepInvariant, EntersAndExitsAt, RefusedAt, Agree;
    AgreementHasNoParting(c, limits, strategy, bars, k);
    InStepWithoutParting(c, limits, strategy, bars, k);
    OneBarMore(c, limits, strategy, bars, k);
  }

  /** Where they part on a refused exit: the backtester books the trade, the session raises. */
  lemma RefusedExitIsBooked(c: SessionConfig, limits: RiskLimits, strategy: Strategy, bars: seq<Bar>, k: nat)
    requires Feed(c, bars) && k < |bars| && RefusedAt(c, limits, strategy, bars, k)
    requires forall j | 0 <= j <= k :: Agree(c, limits, strategy, bars, j)
    requires B.StateAt(c.trading, limits, strategy, bars, 0, k).value.position.Some?
    ensures B.StateAt(c.trading, limits, strategy, bars, 0, k + 1).Ok?
    ensures B.StateAt(c.trading, limits, strategy, bars, 0, k + 1).value.position.None?
    ensures |B.StateAt(c.trading, limits, strategy, bars, 0, k + 1).value.trades|
         == |B.StateAt(c.trading, limits, strategy, bars, 0, k).value.trades| + 1
    ensures SessionAt(c, limits, strategy, bars, k + 1).error.Some?
  {
    hide Feed, InStep, Matches, AfterBar, B.PendingSignal, KeyOf;
    AgreementHasNoParting(c, limits, strategy, bars, k);
    InStepWithoutParting(c, limits, strategy, bars, k);
    var bt := B.StateAt(c.trading, limits, strategy, bars, 0, k).value;
    BarSimulates(c, limits, strategy, bt, SessionAt(c, limits, strategy, bars, k).session, bars, k);
    ExitBooksOneTrade(c.trading, limits, bt, B.PendingSignal(strategy, bars, k, true), bars[k]);
  }

  lemma ExitBooksOneTrade(c: B.BacktestConfig, limits: RiskLimits, bt: B.State, signal: Option<Signal>, bar: Bar)
    requires bt.position.Some? && Refused(c, limits, bt, signal, bar)
    ensures var after := B.AfterBar(c, limits, bt, signal, bar);
            after.Ok? && after.value.position.None? && |after.value.trades| == |bt.trades| + 1
  {
    hide AfterMark, B.TradeFor, B.CashAfterClose, B.StopHit, B.TargetHit, Notional, Unsellable;
  }

  // ----- A concrete feed on which they part

  function PlainBar(day: int, open: real, high: real, low: real, close: real): Bar {
    Bar("ABC", "NSE", "1d", Timestamp(day * SECONDS_PER_DAY, Date(2024, 1, day)), day * SECONDS_PER_DAY, open, high,
        low, close, 100)
  }

  /** A rise, and then the bar that buys it at 12 and falls below the stop at 9.6. */
  const FALLING_FEED: seq<Bar> := [PlainBar(1, 10.0, 10.0, 10.0, 10.0), PlainBar(2, 11.0, 12.0, 11.0, 12.0),
      PlainBar(3, 12.0, 12.0, 5.0, 6.0)]

  const FREE_TRADING: SessionConfig :=
    SessionSettings(B.Config(100000.0, 0.0, 0.0, 0.05, 0.20, 252, true, true), 4 * SECONDS_PER_DAY)

  const RISING_AVERAGE: Strategy := SmaCrossover(1, 2)

  lemma RiseIsBought()
    ensures var signal := B.PendingSignal(RISING_AVERAGE, FALLING_FEED, 2, false);
            signal.Some? && signal.value.action.BUY?
    ensures B.PendingSignal(RISING_AVERAGE, FALLING_FEED, 1, false).None?
  {
    var closes := Closes(FALLING_FEED[0..2]);
    assert closes == [10.0, 12.0];
    SumSnoc([], 10.0);
    SumSnoc([10.0], 12.0);
    assert [] + [10.0] == [10.0] && [10.0] + [12.0] == closes;
    var latest := LastN(closes, 1);
    assert latest == [12.0] && latest[..0] == [];
    assert Average(latest) == 12.0 && Average(closes) == 11.0;
  }

  /** Two flat marks: nothing is bought and nothing is lost. */
  lemma FlatSoFar()
    ensures var st := B.StateAt(FREE_TRADING.trading, DEFAULT_LIMITS, RISING_AVERAGE, FALLING_FEED, 0, 2);
            && st.Ok? && st.value.position.None? && st.value.cash == 100000.0
            && st.value.risk.peak == Some(100000.0) && !st.value.risk.tripped
            && st.value.risk.date == Some(Date(2024, 1, 2))
            && st.value.risk.month == Some(Month(2024, 1)) && st.value.risk.monthlyStart == Some(100000.0)
    ensures B.StateAt(FREE_TRADING.trading, DEFAULT_LIMITS, RISING_AVERAGE, FALLING_FEED, 0, 1).Ok?
    ensures B.StateAt(FREE_TRADING.trading, DEFAULT_LIMITS, RISING_AVERAGE, FALLING_FEED, 0, 1).value.position.None?
  {
    hide SignalAt, B.AfterEntry;
    RiseIsBought();
    var c := FREE_TRADING.trading;
    var start := B.StateAt(c, DEFAULT_LIMITS, RISING_AVERAGE, FALLING_FEED, 0, 0).value;
    FlatBar(c, start, FALLING_FEED[0]);
    var first := B.StateAt(c, DEFAULT_LIMITS, RISING_AVERAGE, FALLING_FEED, 0, 1).value;
    FlatBar(c, first, FALLING_FEED[1]);
  }

  lemma FlatBar(c: B.BacktestConfig, st: B.State, bar: Bar)
    requires st.position.None? && st.cash == 100000.0 && !st.risk.tripped
    requires st.risk.peak.Some? ==> st.risk.peak.value == 100000.0
    requires st.risk.month == None || (st.risk.month == Some(MonthOf(bar.time.date))
             && st.risk.monthlyStart == Some(100000.0))
    ensures var after := B.AfterBar(c, DEFAULT_LIMITS, st, None, bar);
            && after.Ok? && after.value.position.None? && after.value.cash == 100000.0
            && after.value.risk.peak == Some(100000.0) && !after.value.risk.tripped
            && after.value.risk.date == Some(bar.time.date)
            && after.value.risk.month == Some(MonthOf(bar.time.date)) && after.value.risk.monthlyStart == Some(100000.0)
  {}

  /** One share of the entry fits every bound. */
  lemma EntryIsSized()
    ensures var sized := SizeNewPosition(DEFAULT_LIMITS, 100000.0, 12.0, 0.05, 100000.0, 0.0);
            sized.Ok? && sized.value > 0
  {
    SizeNewPositionIsMaximal(DEFAULT_LIMITS, 100000.0, 12.0, 0.05, 100000.0, 0.0);
    assert FitsRisk(DEFAULT_LIMITS, 12.0, 0.05, 1);
    assert FitsCapital(DEFAULT_LIMITS, 100000.0, 12.0, 100000.0, 0.0, 1);
  }

  lemma FallingFeedEntersAndExits()
    ensures EntersAndExitsAt(FREE_TRADING, DEFAULT_LIMITS, RISING_AVERAGE, FALLING_FEED, 2)
  {
    hide SizeNewPosition, SignalAt, B.StateAt;
    FlatSoFar();
    RiseIsBought();
    EntryIsSized();
    var st := B.StateAt(FREE_TRADING.trading, DEFAULT_LIMITS, RISING_AVERAGE, FALLING_FEED, 0, 2).value;
    FallingEntryBarExits(FREE_TRADING.trading, DEFAULT_LIMITS, st,
        B.PendingSignal(RISING_AVERAGE, FALLING_FEED, 2, false), FALLING_FEED[2]);
  }

  lemma FallingFeedIsFeed()
    ensures Feed(FREE_TRADING, FALLING_FEED) && !Unsellable(FREE_TRADING.trading, FALLING_FEED[0])
  {}

  /** Flat before and after a bar: nothing was filled on it. */
  lemma FlatBarPartsNothing(k: nat)
    requires k < 2
    ensures !PartsAt(FREE_TRADING, DEFAULT_LIMITS, RISING_AVERAGE, FALLING_FEED, k)
  {
    hide SignalAt, SizeNewPosition;
    FlatSoFar();
    RiseIsBought();
  }

  /** On the third bar of this feed the engines part: the session keeps the shares that the backtester has sold. */
  lemma FallingEntryBarDiverges()
    ensures Feed(FREE_TRADING, FALLING_FEED)
    ensures forall k | 0 <= k <= 2 :: Agree(FREE_TRADING, DEFAULT_LIMITS, RISING_AVERAGE, FALLING_FEED, k)
    ensures !Agree(FREE_TRADING, DEFAULT_LIMITS, RISING_AVERAGE, FALLING_FEED, 3)
  {
    hide Feed, StepInvariant, EntersAndExitsAt, PartsAt, Agree;
    FallingFeedIsFeed();
    FallingFeedEntersAndExits();
    FlatBarPartsNothing(0);
    FlatBarPartsNothing(1);
    forall k | 0 <= k <= 2 ensures Agree(FREE_TRADING, DEFAULT_LIMITS, RISING_AVERAGE, FALLING_FEED, k) {
      InStepWithoutParting(FREE_TRADING, DEFAULT_LIMITS, RISING_AVERAGE, FALLING_FEED, k);
      StepInvariantAgrees(FREE_TRADING, DEFAULT_LIMITS, RISING_AVERAGE, FALLING_FEED, k);
    }
    PartedOnEntryBar(FREE_TRADING, DEFAULT_LIMITS, RISING_AVERAGE, FALLING_FEED, 2);
  }
}
