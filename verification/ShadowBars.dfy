/** A bar of the shadow session told in instants, prices and decisions: gaps, suppression, exits, entries. */
module ShadowBars {
  import opened Prelude
  import opened OrderedDict
  import opened Models
  import opened Risk
  import opened PaperBroking
  import opened OrderManaging
  import opened SingleInstrument
  import opened Strategies
  import opened ShadowTrading
  import opened SettlementLaws

  // ----- What every bar records

  /** Only incidents of this instant were added, and none of them reports the feed. */
  ghost predicate AddsTrading(before: seq<Incident>, after: seq<Incident>, instant: int) {
    && before <= after
    && forall i | |before| <= i < |after| ::
         after[i].time == instant && after[i].kind != DataGap && after[i].kind != ManualStale
  }

  ghost predicate SameFeed(s: Session, after: Session, instant: int) {
    && after.history == s.history && after.lastBarTime == s.lastBarTime && after.explicitStale == s.explicitStale
    && after.risk == s.risk && after.events == s.events && AddsTrading(s.incidents, after.incidents, instant)
  }

  lemma ExitsKeepTheFeed(c: SessionConfig, s: Session, bar: Bar)
    requires s.ledger.Valid() && ExitPhase(c, s, bar).Ok?
    ensures SameFeed(s, ExitPhase(c, s, bar).value.session, bar.time.instant)
  {
    hide AfterSellSubmission, CurrentPosition;
  }

  lemma SignalsKeepTheFeed(c: SessionConfig, limits: RiskLimits, strategy: Strategy, exited: Phase, bar: Bar,
                           equity: real, suppress: bool)
    requires exited.session.ledger.Valid()
    requires SignalPhase(c, limits, strategy, exited, bar, equity, suppress).Ok?
    ensures SameFeed(exited.session, SignalPhase(c, limits, strategy, exited, bar, equity, suppress).value.session,
                     bar.time.instant)
  {
    hide AfterSellSubmission, AfterBuySubmission, CurrentPosition, SignalFor;
  }

  lemma TradingAccumulates(a: Session, b: Session, d: Session, instant: int)
    requires SameFeed(a, b, instant) && SameFeed(b, d, instant)
    ensures SameFeed(a, d, instant)
  {}

  /** What the rest of a bar leaves, once it is in the history. */
  ghost predicate Settles(received: Session, bar: Bar, suppress: bool, after: Effect) {
    && after.session.history == received.history && after.session.lastBarTime == received.lastBarTime
    && after.session.explicitStale == received.explicitStale
    && AddsTrading(received.incidents, after.session.incidents, bar.time.instant)
    && (after.error.Some? ==> after.session.events == received.events)
    && (after.error.None? ==>
          && |after.session.events| == |received.events| + 1
          && after.session.events[..|received.events|] == received.events
          && var e := after.session.events[|received.events|];
             e.time == bar.time && (e.suppressedByGap <==> suppress && e.action == Some(Signalled(BUY))))
  }

  lemma ReceiptSettles(c: SessionConfig, limits: RiskLimits, strategy: Strategy, received: Session, bar: Bar,
                       equity: real, suppress: bool)
    requires received.ledger.Valid()
    ensures Settles(received, bar, suppress, AfterReceipt(c, limits, strategy, received, bar, equity, suppress))
  {
    hide ExitPhase, SignalPhase, AfterMark, AddsTrading;
    var risk := AfterMark(limits, received.risk, equity, bar.time);
    assert AddsTrading(received.incidents, received.incidents, bar.time.instant) by { NoneAdded(received, bar); }
    if risk.Ok? {
      var marked := received.(risk := risk.value);
      var exited := ExitPhase(c, marked, bar);
      if exited.Ok? {
        ExitKeepsValid(c, marked, bar);
        ExitsKeepTheFeed(c, marked, bar);
        if SignalPhase(c, limits, strategy, exited.value, bar, equity, suppress).Ok? {
          SignalsKeepTheFeed(c, limits, strategy, exited.value, bar, equity, suppress);
          TradingAccumulates(marked, exited.value.session,
                             SignalPhase(c, limits, strategy, exited.value, bar, equity, suppress).value.session,
                             bar.time.instant);
        }
      }
    }
  }

  lemma NoneAdded(s: Session, bar: Bar)
    ensures AddsTrading(s.incidents, s.incidents, bar.time.instant)
  {}

  /** A bar for another instrument or exchange than the first one raises and changes nothing. */
  lemma ForeignBarIsRefused(c: SessionConfig, limits: RiskLimits, strategy: Strategy, s: Session, bar: Bar)
    requires s.ledger.Valid() && |s.history| > 0
    requires bar.instrument != s.history[0].instrument || bar.exchange != s.history[0].exchange
    ensures AfterBar(c, limits, strategy, s, bar) == Effect(s, Some(ValueError))
  {
    hide AfterReceipt;
  }

  predicate RightInstrument(s: Session, bar: Bar) {
    |s.history| > 0 ==> bar.instrument == s.history[0].instrument && bar.exchange == s.history[0].exchange
  }

  /**
   * A data gap is reported exactly when more than the tolerated time has passed since the last bar. Every bar joins
   * the history, becomes the last one and clears the stale mark, whatever else happens on it; the bar's event says
   * that an entry was suppressed exactly when the gap or the stale mark met a purchase signal.
   */
  lemma GapsAreReportedExactly(c: SessionConfig, limits: RiskLimits, strategy: Strategy, s: Session, bar: Bar)
    requires s.ledger.Valid() && RightInstrument(s, bar)
    ensures var after := AfterBar(c, limits, strategy, s, bar);
            var late := s.lastBarTime.Some? && bar.time.instant - s.lastBarTime.value > c.maxBarGap;
            && after.session.history == s.history + [bar]
            && after.session.lastBarTime == Some(bar.time.instant) && !after.session.explicitStale
            && AddsTrading(s.incidents + (if late then [Incident(bar.time.instant, DataGap)] else []),
                           after.session.incidents, bar.time.instant)
            && (after.error.Some? ==> after.session.events == s.events)
            && (after.error.None? ==>
                  && |after.session.events| == |s.events| + 1 && after.session.events[..|s.events|] == s.events
                  && var e := after.session.events[|s.events|];
                     && e.time == bar.time
                     && (e.suppressedByGap <==> (late || s.explicitStale) && e.action == Some(Signalled(BUY))))
  {
    hide AfterReceipt, EquityAt, AddsTrading;
    ReceiptSettles(c, limits, strategy, Received(c, s, bar), bar, EquityAt(s.ledger, bar.open), Suppresses(c, s, bar));
    assert s.incidents + [] == s.incidents;
  }

  // ----- What a bar trades

  /** The bar's own order ids are new to the book, and its prices can be traded at. */
  ghost predicate Tradable(c: SessionConfig, s: Session, bar: Bar, key: string) {
    && OnlyKey(s.ledger, key) && key == PositionKey(bar.instrument, bar.exchange) && !Blank(bar.instrument)
    && (forall id | id in s.ledger.orders.data :: id.instant != bar.time.instant)
    && s.ledger.rate == c.trading.commissionRate && s.ledger.cash >= 0.0
    && c.trading.slippageRate < 1.0 && bar.open > 0.0
    && (s.stopPrice.Some? ==> s.stopPrice.value > 0.0)
  }

  /** The whole position left a slippage below this price, and the levels went with it. */
  ghost predicate SoldOut(l: Ledger, after: Session, bar: Bar, key: string, kind: OrderKind, quote: real,
                          slippage: real) {
    && after.stopPrice.None? && after.targetPrice.None?
    && l.Held(key) > 0 && after.ledger.Held(key) == 0
    && var id := OrderId(bar.instrument, bar.time.instant, kind);
       && id in after.ledger.orders.data && |after.ledger.orders.data[id].fills| == 1
       && var price := after.ledger.orders.data[id].fills[0].price;
          && price == quote * (1.0 - slippage)
          && Sells(l, after.ledger, OrderRequest(id, bar.instrument, bar.exchange, SELL, l.Held(key)), price, bar.time)
  }

  lemma SellingOut(c: SessionConfig, s: Session, bar: Bar, key: string, kind: OrderKind, quote: real, after: Session)
    requires OnlyKey(s.ledger, key) && key == PositionKey(bar.instrument, bar.exchange) && !Blank(bar.instrument)
    requires IdFor(bar, kind) !in s.ledger.orders.data && s.ledger.Held(key) > 0
    requires quote > 0.0 && c.trading.slippageRate < 1.0
    requires CurrentPosition(s.ledger).Some?
    requires var price := c.trading.SellPrice(quote);
             var sold := AfterSellSubmission(s.ledger, SellAll(bar, CurrentPosition(s.ledger).value, kind, price));
             sold.Ok? ==> after.ledger == sold.value.0 && after.stopPrice.None? && after.targetPrice.None?
    ensures AfterSellSubmission(s.ledger, SellAll(bar, CurrentPosition(s.ledger).value, kind,
                                                  c.trading.SellPrice(quote))).Ok?
    ensures SoldOut(s.ledger, after, bar, key, kind, quote, c.trading.slippageRate)
  {
    hide AfterSellSubmission, PositionKey, OtherPositionsStay, ShowsFill, Select, Blank, Sells,
         Backtesting.Config.SellPrice;
    OnlyPosition(s.ledger, key);
    SlippedStaysPositive(c, quote);
    SlippedDown(c, quote);
    var price := c.trading.SellPrice(quote);
    var a := SellAll(bar, CurrentPosition(s.ledger).value, kind, price);
    SaleSubmissionSettles(s.ledger, a);
    SoldSharesAreGone(s.ledger, AfterSellSubmission(s.ledger, a).value.0,
                      OrderRequest(a.id, a.instrument, a.exchange, SELL, a.quantity), price, a.time, key);
  }

  lemma SlippedDown(c: SessionConfig, price: real)
    ensures c.trading.SellPrice(price) == price * (1.0 - c.trading.slippageRate)
  {}

  lemma SoldSharesAreGone(l: Ledger, after: Ledger, request: OrderRequest, price: real, time: Timestamp, key: string)
    requires Sells(l, after, request, price, time) && key == PositionKey(request.instrument, request.exchange)
    ensures after.Held(key) == l.Held(key) - request.quantity
    ensures request.id in after.orders.data && |after.orders.data[request.id].fills| == 1
    ensures after.orders.data[request.id].fills[0].price == price
  {
    hide PositionKey;
  }

  lemma SlippedStaysPositive(c: SessionConfig, price: real)
    requires price > 0.0 && c.trading.slippageRate < 1.0
    ensures c.trading.SellPrice(price) > 0.0
  {
    var kept := 1.0 - c.trading.slippageRate;
    PositiveProduct(price, kept);
    assert c.trading.SellPrice(price) == price * kept;
  }

  /** What the exits do to a held position on a bar. */
  ghost predicate ExitsTold(c: SessionConfig, s: Session, bar: Bar, key: string, p: Phase) {
    if s.stopPrice.Some? && bar.low <= s.stopPrice.value then
      && p.action == Some(StoppedOut)
      && SoldOut(s.ledger, p.session, bar, key, KStopLoss, Min(bar.open, s.stopPrice.value), c.trading.slippageRate)
      && p.session.incidents == s.incidents + [Incident(bar.time.instant, StopLossHit)]
    else if s.targetPrice.Some? && bar.high >= s.targetPrice.value then
      && p.action == Some(TargetExited)
      && SoldOut(s.ledger, p.session, bar, key, KTarget, Max(bar.open, s.targetPrice.value), c.trading.slippageRate)
      && p.session.incidents == s.incidents + [Incident(bar.time.instant, TargetReached)]
    else p == Phase(s, None, None)
  }

  lemma ExitsAsTold(c: SessionConfig, s: Session, bar: Bar, key: string)
    requires Tradable(c, s, bar, key) && s.ledger.Held(key) > 0
    ensures ExitPhase(c, s, bar).Ok? && ExitsTold(c, s, bar, key, ExitPhase(c, s, bar).value)
  {
    hide AfterSellSubmission, PositionKey, SoldOut, CurrentPosition, Blank, Min, Max, Backtesting.Config.SellPrice;
    OnlyPosition(s.ledger, key);
    var p := CurrentPosition(s.ledger).value;
    if s.stopPrice.Some? && bar.low <= s.stopPrice.value {
      var level := Min(bar.open, s.stopPrice.value);
      assert level > 0.0 by { SmallerIsPositive(bar.open, s.stopPrice.value); }
      ExitSells(c, s, bar, key, p, KStopLoss, level, StoppedOut, StopLossHit);
    } else if s.targetPrice.Some? && bar.high >= s.targetPrice.value {
      var level := Max(bar.open, s.targetPrice.value);
      assert level > 0.0 by { LargerIsPositive(bar.open, s.targetPrice.value); }
      ExitSells(c, s, bar, key, p, KTarget, level, TargetExited, TargetReached);
    }
  }

  lemma SmallerIsPositive(a: real, b: real)
    requires a > 0.0 && b > 0.0
    ensures Min(a, b) > 0.0
  {}

  lemma LargerIsPositive(a: real, b: real)
    requires a > 0.0
    ensures Max(a, b) > 0.0
  {}

  lemma ExitSells(c: SessionConfig, s: Session, bar: Bar, key: string, p: Position, kind: OrderKind, quote: real,
                  action: BarAction, incident: IncidentKind)
    requires OnlyKey(s.ledger, key) && key == PositionKey(bar.instrument, bar.exchange) && !Blank(bar.instrument)
    requires IdFor(bar, kind) !in s.ledger.orders.data && s.ledger.Held(key) > 0
    requires quote > 0.0 && c.trading.slippageRate < 1.0
    requires CurrentPosition(s.ledger) == Some(p)
    ensures var r := ExitAt(s, bar, p, kind, c.trading.SellPrice(quote), action, incident);
            && r.Ok? && r.value.action == Some(action)
            && SoldOut(s.ledger, r.value.session, bar, key, kind, quote, c.trading.slippageRate)
            && r.value.session.incidents == s.incidents + [Incident(bar.time.instant, incident)]
  {
    hide AfterSellSubmission, PositionKey, SoldOut, CurrentPosition, Blank, Backtesting.Config.SellPrice;
    var r := ExitAt(s, bar, p, kind, c.trading.SellPrice(quote), action, incident);
    SellingOut(c, s, bar, key, kind, quote, if r.Ok? then r.value.session else s);
  }

  /** The decision on the bar before, which is the last one the session has seen. */
  predicate Decided(strategy: Strategy, s: Session, holding: bool, action: OrderSide) {
    |s.history| > 0 && Proposes(SignalAt(strategy, s.history, |s.history| - 1, holding), action)
  }

  lemma SignalIsDecision(strategy: Strategy, s: Session, bar: Bar, holding: bool)
    ensures var signal := SignalFor(strategy, s.history + [bar], holding);
            && (Proposes(signal, BUY) <==> Decided(strategy, s, holding, BUY))
            && (Proposes(signal, SELL) <==> Decided(strategy, s, holding, SELL))
            && (signal.Some? ==> Proposes(signal, if holding then SELL else BUY))
  {
    hide SignalAt;
    if |s.history| > 0 {
      assert (s.history + [bar])[..|s.history|] == s.history;
      DecisionIsCausal(strategy, s.history + [bar], s.history, |s.history| - 1, holding);
      SignalFitsHolding(strategy, s.history, |s.history| - 1, holding);
    }
  }

  /** What a bar does to a held position: stop before target before the decision to sell; otherwise nothing moves. */
  ghost predicate HeldBarTold(c: SessionConfig, strategy: Strategy, s: Session, bar: Bar, key: string, after: Session,
                              action: Option<BarAction>) {
    if s.stopPrice.Some? && bar.low <= s.stopPrice.value then
      && SoldOut(s.ledger, after, bar, key, KStopLoss, Min(bar.open, s.stopPrice.value), c.trading.slippageRate)
      && action == Some(StoppedOut) && Incident(bar.time.instant, StopLossHit) in after.incidents
    else if s.targetPrice.Some? && bar.high >= s.targetPrice.value then
      && SoldOut(s.ledger, after, bar, key, KTarget, Max(bar.open, s.targetPrice.value), c.trading.slippageRate)
      && action == Some(TargetExited) && Incident(bar.time.instant, TargetReached) in after.incidents
    else if Decided(strategy, s, true, SELL) then
      SoldOut(s.ledger, after, bar, key, KSell, bar.open, c.trading.slippageRate) && action == Some(Signalled(SELL))
    else
      && after.ledger == s.ledger && after.stopPrice == s.stopPrice && after.targetPrice == s.targetPrice
      && action.None?
  }

  lemma SaleSells(c: SessionConfig, s: Session, bar: Bar, key: string, p: Position)
    requires Tradable(c, s, bar, key) && s.ledger.Held(key) > 0 && CurrentPosition(s.ledger) == Some(p)
    ensures var r := SalePhase(c, s, bar, p);
            && r.Ok? && r.value.action == Some(Signalled(SELL)) && r.value.session.incidents == s.incidents
            && SoldOut(s.ledger, r.value.session, bar, key, KSell, bar.open, c.trading.slippageRate)
  {
    hide AfterSellSubmission, PositionKey, SoldOut, CurrentPosition, Blank, Backtesting.Config.SellPrice;
    var r := SalePhase(c, s, bar, p);
    SellingOut(c, s, bar, key, KSell, bar.open, if r.Ok? then r.value.session else s);
  }

  lemma HeldSignalTold(c: SessionConfig, limits: RiskLimits, strategy: Strategy, s: Session, marked: Session, bar: Bar,
                       key: string, equity: real, suppress: bool)
    requires marked.ledger.Valid() && Tradable(c, marked, bar, key) && marked.ledger.Held(key) > 0
    requires marked == s.(history := s.history + [bar], risk := marked.risk, incidents := marked.incidents,
                          explicitStale := false, lastBarTime := marked.lastBarTime)
    requires ExitPhase(c, marked, bar).Ok? && ExitsTold(c, marked, bar, key, ExitPhase(c, marked, bar).value)
    requires ExitPhase(c, marked, bar).value.session.ledger.Valid()
    requires SameFeed(marked, ExitPhase(c, marked, bar).value.session, bar.time.instant)
    ensures var acted := SignalPhase(c, limits, strategy, ExitPhase(c, marked, bar).value, bar, equity, suppress);
            acted.Ok? &&
            HeldBarTold(c, strategy, s, bar, key, acted.value.session, acted.value.action)
  {
    hide ExitPhase, SalePhase, EntryPhase, PositionKey, SoldOut, CurrentPosition, Blank, Tradable, SignalFor, Decided,
         Min, Max, SameFeed, Ledger.Held;
    var exited := ExitPhase(c, marked, bar).value;
    TradableFacts(c, marked, bar, key);
    FeedFacts(marked, exited.session, bar.time.instant);
    SignalIsDecision(strategy, s, bar, true);
    if exited.action.None? {
      if Decided(strategy, s, true, SELL) {
        SaleSells(c, marked, bar, key, CurrentPosition(marked.ledger).value);
      }
    }
  }

  lemma FeedFacts(s: Session, after: Session, instant: int)
    requires SameFeed(s, after, instant)
    ensures after.history == s.history && after.risk == s.risk
  {}

  lemma TradableFacts(c: SessionConfig, s: Session, bar: Bar, key: string)
    requires Tradable(c, s, bar, key)
    ensures s.ledger.Valid() && (CurrentPosition(s.ledger).Some? <==> s.ledger.Held(key) > 0)
    ensures EquityAt(s.ledger, bar.open) == s.ledger.cash + bar.open * s.ledger.Held(key) as real
    ensures EquityAt(s.ledger, bar.open) >= 0.0
    ensures OpenPositions(s.ledger) == if s.ledger.Held(key) > 0 then 1 else 0
  {
    hide Blank, PositionKey, Select;
    OnlyPosition(s.ledger, key);
    if s.ledger.Held(key) > 0 {
      PositiveProduct(bar.open, s.ledger.Held(key) as real);
    }
  }

  /** The stop lies below an entry price, and the target above it, by the configured fractions; each may be off. */
  predicate LevelsAt(c: SessionConfig, limits: RiskLimits, s: Session, entry: real) {
    && s.stopPrice.Some? == c.trading.enableStopLoss && s.targetPrice.Some? == c.trading.enableTargetExit
    && (s.stopPrice.Some? ==> s.stopPrice.value == entry * (1.0 - c.trading.stopLossDistanceFraction))
    && (s.targetPrice.Some? ==>
          s.targetPrice.value == entry * (1.0 + c.trading.stopLossDistanceFraction * limits.minimumRewardRisk))
  }

  /** The shares bought at this price: the greatest number the bounds allow, with levels around that price. */
  ghost predicate Entered(c: SessionConfig, limits: RiskLimits, s: Session, bar: Bar, price: real, after: Session) {
    && LevelsAt(c, limits, after, price)
    && var id := OrderId(bar.instrument, bar.time.instant, KBuy);
       && id in after.ledger.orders.data
       && var q := after.ledger.orders.data[id].request.quantity;
          && Buys(s.ledger, after.ledger, OrderRequest(id, bar.instrument, bar.exchange, BUY, q), price, bar.time)
          && forall n | n > 0 ::
               n <= q <==> FitsRisk(limits, price, c.trading.stopDistanceFraction, n) &&
                           FitsCapital(limits, s.ledger.cash, price, c.trading.initialCapital, c.trading.commissionRate,
                                       n)
  }

  /** The gate is open with no other position, and the bounds allow a share at this price. */
  predicate MayEnter(c: SessionConfig, limits: RiskLimits, risk: RiskState, cash: real, price: real) {
    && MayOpen(limits, risk, cash, 0)
    && FitsRisk(limits, price, c.trading.stopDistanceFraction, 1)
    && FitsCapital(limits, cash, price, c.trading.initialCapital, c.trading.commissionRate, 1)
  }

  /** What a bar does to a flat session: a prompt, approved and affordable decision to buy is filled. */
  ghost predicate FlatBarTold(c: SessionConfig, limits: RiskLimits, strategy: Strategy, s: Session, bar: Bar,
                              suppress: bool, price: real, after: Session, action: Option<BarAction>) {
    if Decided(strategy, s, false, BUY) && !suppress && MayEnter(c, limits, after.risk, s.ledger.cash, price) then
      Entered(c, limits, s, bar, price, after) && action == Some(Signalled(BUY))
    else
      && after.ledger == s.ledger && after.stopPrice == s.stopPrice && after.targetPrice == s.targetPrice
      && if Decided(strategy, s, false, BUY)
         then action == Some(Signalled(BUY)) && Incident(bar.time.instant, OrderBlocked) in after.incidents
         else action.None?
  }

  lemma EntryArgsAllow(c: SessionConfig, limits: RiskLimits, bar: Bar, cash: real, equity: real, n: int)
    ensures Allowed(limits, cash, EntryArgs(c, bar, equity), n) <==>
            FitsRisk(limits, c.trading.BuyPrice(bar.open), c.trading.stopDistanceFraction, n) &&
            FitsCapital(limits, cash, c.trading.BuyPrice(bar.open), c.trading.initialCapital, c.trading.commissionRate,
                        n)
  {
    hide FitsRisk, FitsCapital, Backtesting.Config.BuyPrice;
  }

  lemma SlippedUp(c: SessionConfig, price: real)
    ensures c.trading.BuyPrice(price) == price * (1.0 + c.trading.slippageRate)
    ensures price > 0.0 ==> c.trading.BuyPrice(price) > 0.0
  {
    var factor := 1.0 + c.trading.slippageRate;
    assert c.trading.BuyPrice(price) == price * factor;
    if price > 0.0 {
      PositiveProduct(price, factor);
    }
  }

  lemma LevelsAround(c: SessionConfig, limits: RiskLimits, price: real)
    ensures c.trading.StopPrice(price) == price * (1.0 - c.trading.stopLossDistanceFraction)
    ensures c.trading.TargetPrice(price, limits.minimumRewardRisk)
         == price * (1.0 + c.trading.stopLossDistanceFraction * limits.minimumRewardRisk)
  {}

  lemma FlatSignalTold(c: SessionConfig, limits: RiskLimits, strategy: Strategy, s: Session, marked: Session, bar: Bar,
                       key: string, suppress: bool, price: real)
    requires marked.ledger.Valid() && Tradable(c, marked, bar, key) && marked.ledger.Held(key) == 0
    requires price == c.trading.BuyPrice(bar.open)
    requires marked == s.(history := s.history + [bar], risk := marked.risk, incidents := marked.incidents,
                          explicitStale := false, lastBarTime := marked.lastBarTime)
    ensures var acted := SignalPhase(c, limits, strategy, Phase(marked, None, None), bar, marked.ledger.cash, suppress);
            && acted.Ok? && acted.value.session.risk == marked.risk
            && FlatBarTold(c, limits, strategy, s, bar, suppress, price, acted.value.session, acted.value.action)
  {
    hide SalePhase, EntryPhase, PositionKey, CurrentPosition, Blank, Tradable, SignalFor, Decided, MayEnter, Entered;
    TradableFacts(c, marked, bar, key);
    SignalIsDecision(strategy, s, bar, false);
    if Decided(strategy, s, false, BUY) {
      EntryTold(c, limits, s, marked, bar, key, suppress, price);
    }
  }

  lemma EntryTold(c: SessionConfig, limits: RiskLimits, s: Session, marked: Session, bar: Bar, key: string,
                  suppress: bool, price: real)
    requires marked.ledger.Valid() && Tradable(c, marked, bar, key) && marked.ledger.Held(key) == 0
    requires price == c.trading.BuyPrice(bar.open)
    requires marked.ledger == s.ledger && marked.stopPrice == s.stopPrice && marked.targetPrice == s.targetPrice
    ensures var r := EntryPhase(c, limits, marked, bar, marked.ledger.cash, suppress);
            && r.Ok? && r.value.action == Some(Signalled(BUY)) && r.value.session.risk == marked.risk
            && if !suppress && MayEnter(c, limits, marked.risk, s.ledger.cash, price)
               then Entered(c, limits, s, bar, price, r.value.session)
               else && r.value.session.ledger == s.ledger && r.value.session.stopPrice == s.stopPrice
                    && r.value.session.targetPrice == s.targetPrice
                    && Incident(bar.time.instant, OrderBlocked) in r.value.session.incidents
  {
    hide AfterBuySubmission, PositionKey, OpenPositions, Blank, MayOpen, FitsRisk, FitsCapital, Allowed, Buys,
         Backtesting.Config.BuyPrice, Backtesting.Config.StopPrice, Backtesting.Config.TargetPrice, CurrentPosition;
    var a := EntryArgs(c, bar, marked.ledger.cash);
    TradableFacts(c, marked, bar, key);
    SlippedUp(c, bar.open);
    LevelsAround(c, limits, price);
    forall n: int ensures Allowed(limits, s.ledger.cash, a, n) <==>
              FitsRisk(limits, price, c.trading.stopDistanceFraction, n) &&
              FitsCapital(limits, s.ledger.cash, price, c.trading.initialCapital, c.trading.commissionRate, n)
    {
      EntryArgsAllow(c, limits, bar, s.ledger.cash, marked.ledger.cash, n);
    }
    GatedBuySettles(limits, marked.ledger, marked.risk, a);
  }

  // ----- Whole bars

  lemma HeldStaysTold(c: SessionConfig, strategy: Strategy, s: Session, bar: Bar, key: string, acted: Session,
                      logged: Session, action: Option<BarAction>)
    requires HeldBarTold(c, strategy, s, bar, key, acted, action)
    requires logged == acted.(events := logged.events)
    ensures HeldBarTold(c, strategy, s, bar, key, logged, action)
  {
    hide Sells, Decided, Min, Max, PositionKey;
  }

  lemma FlatStaysTold(c: SessionConfig, limits: RiskLimits, strategy: Strategy, s: Session, bar: Bar, suppress: bool,
                      price: real, acted: Session, logged: Session, action: Option<BarAction>)
    requires FlatBarTold(c, limits, strategy, s, bar, suppress, price, acted, action)
    requires logged == acted.(events := logged.events)
    ensures FlatBarTold(c, limits, strategy, s, bar, suppress, price, logged, action)
  {
    hide Buys, Decided, PositionKey, FitsRisk, FitsCapital, MayEnter;
  }

  /** The bar's own event. */
  function LastAction(s: Session): Option<BarAction> {
    if |s.events| == 0 then None else s.events[|s.events| - 1].action
  }

  /**
   * A bar on a held position never raises: it marks the risk engine with the equity at the open, and the position
   * leaves exactly when the bar reaches a level or the last decision was to sell, stale feed or not.
   */
  lemma HeldBarAsTold(c: SessionConfig, limits: RiskLimits, strategy: Strategy, s: Session, bar: Bar, key: string,
                      equity: real)
    requires s.ledger.Valid() && Tradable(c, s, bar, key) && RightInstrument(s, bar) && s.ledger.Held(key) > 0
    requires equity == s.ledger.cash + bar.open * s.ledger.Held(key) as real
    ensures var after := AfterBar(c, limits, strategy, s, bar);
            && after.error.None?
            && AfterMark(limits, s.risk, equity, bar.time) == Ok(after.session.risk)
            && HeldBarTold(c, strategy, s, bar, key, after.session, LastAction(after.session))
  {
    hide ExitPhase, SignalPhase, AfterMark, EquityAt, PositionKey, Blank, Tradable, Decided, SoldOut, ExitsTold, Min,
         Max;
    TradableFacts(c, s, bar, key);
    assert equity == EquityAt(s.ledger, bar.open);
    MarkOutcome(limits, s.risk, equity, bar.time);
    var marked := Received(c, s, bar).(risk := AfterMark(limits, s.risk, equity, bar.time).value);
    StillTradable(c, s, marked, bar, key);
    ExitsAsTold(c, marked, bar, key);
    ExitKeepsValid(c, marked, bar);
    ExitsKeepTheFeed(c, marked, bar);
    HeldSignalTold(c, limits, strategy, s, marked, bar, key, equity, Suppresses(c, s, bar));
    SignalsKeepTheFeed(c, limits, strategy, ExitPhase(c, marked, bar).value, bar, equity, Suppresses(c, s, bar));
    var acted := SignalPhase(c, limits, strategy, ExitPhase(c, marked, bar).value, bar, equity, Suppresses(c, s, bar));
    HeldStaysTold(c, strategy, s, bar, key, acted.value.session, Logged(acted.value, bar, Suppresses(c, s, bar)),
                  acted.value.action);
  }

  lemma StillTradable(c: SessionConfig, s: Session, marked: Session, bar: Bar, key: string)
    requires Tradable(c, s, bar, key)
    requires marked.ledger == s.ledger && marked.stopPrice == s.stopPrice
    ensures Tradable(c, marked, bar, key)
  {}

  lemma FlatNeverExits(c: SessionConfig, s: Session, bar: Bar, key: string)
    requires Tradable(c, s, bar, key) && s.ledger.Held(key) == 0 && s.ledger.Valid()
    ensures ExitPhase(c, s, bar) == Ok(Phase(s, None, None))
  {
    hide CurrentPosition, Tradable;
    TradableFacts(c, s, bar, key);
  }

  /**
   * A bar on a flat session never raises: it buys exactly when the last decision was to buy, no more than the
   * tolerated time has passed since the last bar, no stale mark stands, and the gate and the bounds allow it.
   */
  lemma FlatBarAsTold(c: SessionConfig, limits: RiskLimits, strategy: Strategy, s: Session, bar: Bar, key: string,
                      price: real)
    requires s.ledger.Valid() && Tradable(c, s, bar, key) && RightInstrument(s, bar) && s.ledger.Held(key) == 0
    requires price == bar.open * (1.0 + c.trading.slippageRate)
    ensures var after := AfterBar(c, limits, strategy, s, bar);
            var suppress := s.explicitStale ||
                            (s.lastBarTime.Some? && bar.time.instant - s.lastBarTime.value > c.maxBarGap);
            && after.error.None?
            && AfterMark(limits, s.risk, s.ledger.cash, bar.time) == Ok(after.session.risk)
            && FlatBarTold(c, limits, strategy, s, bar, suppress, price, after.session, LastAction(after.session))
  {
    hide ExitPhase, SignalPhase, AfterMark, EquityAt, PositionKey, Blank, Tradable, Decided, MayEnter, Entered,
         Backtesting.Config.BuyPrice, FlatBarTold;
    TradableFacts(c, s, bar, key);
    var equity := EquityAt(s.ledger, bar.open);
    assert equity == s.ledger.cash;
    SlippedUp(c, bar.open);
    assert price == c.trading.BuyPrice(bar.open);
    MarkOutcome(limits, s.risk, equity, bar.time);
    var marked := Received(c, s, bar).(risk := AfterMark(limits, s.risk, equity, bar.time).value);
    StillTradable(c, s, marked, bar, key);
    FlatNeverExits(c, marked, bar, key);
    FlatSignalTold(c, limits, strategy, s, marked, bar, key, Suppresses(c, s, bar), price);
    var acted := SignalPhase(c, limits, strategy, Phase(marked, None, None), bar, equity, Suppresses(c, s, bar));
    FlatStaysTold(c, limits, strategy, s, bar, Suppresses(c, s, bar), price, acted.value.session,
                  Logged(acted.value, bar, Suppresses(c, s, bar)), acted.value.action);
  }

  // ----- The levels of a held position

  /** A held position's levels are those of its average price; a flat session has none. */
  ghost predicate Levelled(c: SessionConfig, limits: RiskLimits, s: Session, key: string) {
    && OnlyKey(s.ledger, key) && s.ledger.rate == c.trading.commissionRate
    && if s.ledger.Held(key) > 0 then LevelsAt(c, limits, s, s.ledger.AveragePrice(key))
       else s.stopPrice.None? && s.targetPrice.None?
  }

  lemma SaleKeepsOnlyKey(l: Ledger, after: Ledger, request: OrderRequest, price: real, time: Timestamp, key: string)
    requires OnlyKey(l, key) && after.Valid() && key == PositionKey(request.instrument, request.exchange)
    requires Sells(l, after, request, price, time)
    ensures OnlyKey(after, key) && after.rate == l.rate
  {
    hide PositionKey, ShowsFill, Ledger.Valid;
  }

  lemma FirstPurchase(l: Ledger, after: Ledger, request: OrderRequest, price: real, time: Timestamp, key: string)
    requires OnlyKey(l, key) && after.Valid() && key == PositionKey(request.instrument, request.exchange)
    requires l.Held(key) == 0 && Buys(l, after, request, price, time)
    ensures OnlyKey(after, key) && after.rate == l.rate
    ensures after.Held(key) == request.quantity && after.AveragePrice(key) == price
  {
    hide PositionKey, ShowsFill, Ledger.Valid, MeanCost;
    SharesAtOnePrice(after.AveragePrice(key), l.AveragePrice(key), price, request.quantity);
  }

  lemma SharesAtOnePrice(after: real, average: real, price: real, bought: int)
    requires bought > 0
    ensures MeanCost(after, average, 0, price, bought) ==> after == price
  {
    var q := bought as real;
    if after < price { PositiveProduct(price - after, q); }
    if after > price { PositiveProduct(after - price, q); }
  }

  lemma HeldBarKeepsLevels(c: SessionConfig, limits: RiskLimits, strategy: Strategy, s: Session, bar: Bar, key: string,
                           after: Session)
    requires s.ledger.Valid() && Tradable(c, s, bar, key) && s.ledger.Held(key) > 0 && Levelled(c, limits, s, key)
    requires after.ledger.Valid() && HeldBarTold(c, strategy, s, bar, key, after, LastAction(after))
    ensures Levelled(c, limits, after, key)
  {
    hide Tradable, Decided, PositionKey, Min, Max, Sells, Ledger.Valid, LevelsAt;
    assert key == PositionKey(bar.instrument, bar.exchange) by { TradableKey(c, s, bar, key); }
    if after.ledger != s.ledger {
      var kind := if s.stopPrice.Some? && bar.low <= s.stopPrice.value then KStopLoss
                  else if s.targetPrice.Some? && bar.high >= s.targetPrice.value then KTarget else KSell;
      var id := OrderId(bar.instrument, bar.time.instant, kind);
      SaleKeepsOnlyKey(s.ledger, after.ledger,
                       OrderRequest(id, bar.instrument, bar.exchange, SELL, s.ledger.Held(key)),
                       after.ledger.orders.data[id].fills[0].price, bar.time, key);
    } else {
      SameLevels(c, limits, s, after, s.ledger.AveragePrice(key));
    }
  }

  lemma SameLevels(c: SessionConfig, limits: RiskLimits, s: Session, after: Session, entry: real)
    requires LevelsAt(c, limits, s, entry)
    ensures after.stopPrice == s.stopPrice && after.targetPrice == s.targetPrice ==> LevelsAt(c, limits, after, entry)
  {}

  lemma FlatBarKeepsLevels(c: SessionConfig, limits: RiskLimits, strategy: Strategy, s: Session, bar: Bar, key: string,
                           suppress: bool, price: real, after: Session)
    requires s.ledger.Valid() && Tradable(c, s, bar, key) && s.ledger.Held(key) == 0 && Levelled(c, limits, s, key)
    requires after.ledger.Valid()
    requires FlatBarTold(c, limits, strategy, s, bar, suppress, price, after, LastAction(after))
    ensures Levelled(c, limits, after, key)
  {
    hide Tradable, Decided, PositionKey, MayEnter, FitsRisk, FitsCapital, Buys, Ledger.Valid, LevelsAt;
    assert key == PositionKey(bar.instrument, bar.exchange) by { TradableKey(c, s, bar, key); }
    if Decided(strategy, s, false, BUY) && !suppress && MayEnter(c, limits, after.risk, s.ledger.cash, price) {
      var id := OrderId(bar.instrument, bar.time.instant, KBuy);
      FirstPurchase(s.ledger, after.ledger,
                    OrderRequest(id, bar.instrument, bar.exchange, BUY, after.ledger.orders.data[id].request.quantity),
                    price, bar.time, key);
    }
  }

  /** Whatever a bar does, the levels stay those of the average price of what is held after it. */
  lemma BarKeepsLevels(c: SessionConfig, limits: RiskLimits, strategy: Strategy, s: Session, bar: Bar, key: string)
    requires s.ledger.Valid() && Tradable(c, s, bar, key) && RightInstrument(s, bar) && s.ledger.Held(key) >= 0
    requires Levelled(c, limits, s, key)
    ensures Levelled(c, limits, AfterBar(c, limits, strategy, s, bar).session, key)
  {
    hide AfterBar, Tradable, Ledger.Valid, AfterMark, Levelled, HeldBarTold, FlatBarTold, RightInstrument;
    BarKeepsValid(c, limits, strategy, s, bar);
    var after := AfterBar(c, limits, strategy, s, bar).session;
    if s.ledger.Held(key) > 0 {
      HeldBarAsTold(c, limits, strategy, s, bar, key, s.ledger.cash + bar.open * s.ledger.Held(key) as real);
      HeldBarKeepsLevels(c, limits, strategy, s, bar, key, after);
    } else {
      var price := bar.open * (1.0 + c.trading.slippageRate);
      var suppress := s.explicitStale ||
                      (s.lastBarTime.Some? && bar.time.instant - s.lastBarTime.value > c.maxBarGap);
      FlatBarAsTold(c, limits, strategy, s, bar, key, price);
      FlatBarKeepsLevels(c, limits, strategy, s, bar, key, suppress, price, after);
    }
  }

  lemma TradableKey(c: SessionConfig, s: Session, bar: Bar, key: string)
    requires Tradable(c, s, bar, key)
    ensures key == PositionKey(bar.instrument, bar.exchange)
  {}
}
