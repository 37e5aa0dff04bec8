/** A marking and a proposal told in prices: which level a position leaves at, and what a proposal may buy. */
module ExecutorLaws {
  import opened Prelude
  import opened OrderedDict
  import opened Models
  import opened Risk
  import opened PaperBroking
  import opened OrderManaging
  import opened SingleInstrument
  import opened SettlementLaws
  import opened ProposalExecuting
  import Backtesting

  /** The executor's own orders at this instant are new, and its prices can be traded at. */
  ghost predicate Tradable(c: ExecutorConfig, s: Executor, bar: Bar) {
    && OnlyKey(s.ledger, KeyOf(c)) && !Blank(c.instrument) && s.ledger.Held(KeyOf(c)) >= 0
    && (forall id | id in s.ledger.orders.data :: id.instant != bar.time.instant)
    && s.ledger.rate == c.trading.commissionRate && s.ledger.cash >= 0.0
    && c.trading.slippageRate < 1.0 && bar.open > 0.0
    && (s.stopPrice.Some? ==> s.stopPrice.value > 0.0)
  }

  /** The whole position left a slippage below this price, and the tracked levels went with it. */
  ghost predicate Left(c: ExecutorConfig, l: Ledger, after: Executor, bar: Bar, kind: OrderKind, quote: real) {
    && after.stopPrice.None? && after.targetPrice.None?
    && l.Held(KeyOf(c)) > 0 && after.ledger.Held(KeyOf(c)) == 0
    && var id := OrderId(c.instrument, bar.time.instant, kind);
       && id in after.ledger.orders.data && |after.ledger.orders.data[id].fills| == 1
       && var price := after.ledger.orders.data[id].fills[0].price;
          && price == quote * (1.0 - c.trading.slippageRate)
          && Sells(l, after.ledger, OrderRequest(id, c.instrument, c.exchange, SELL, l.Held(KeyOf(c))), price, bar.time)
  }

  lemma SlippedDown(c: ExecutorConfig, price: real)
    requires price > 0.0 && c.trading.slippageRate < 1.0
    ensures c.trading.SellPrice(price) > 0.0
    ensures c.trading.SellPrice(price) == price * (1.0 - c.trading.slippageRate)
  {
    var kept := 1.0 - c.trading.slippageRate;
    PositiveProduct(price, kept);
    assert c.trading.SellPrice(price) == price * kept;
  }

  lemma SoldShares(l: Ledger, after: Ledger, request: OrderRequest, price: real, time: Timestamp, key: string)
    requires Sells(l, after, request, price, time) && key == PositionKey(request.instrument, request.exchange)
    ensures after.Held(key) == l.Held(key) - request.quantity
    ensures request.id in after.orders.data && |after.orders.data[request.id].fills| == 1
    ensures after.orders.data[request.id].fills[0].price == price
  {
    hide PositionKey;
  }

  lemma ExitLeaves(c: ExecutorConfig, s: Executor, bar: Bar, kind: OrderKind, quote: real)
    requires Tradable(c, s, bar) && s.ledger.Held(KeyOf(c)) > 0 && quote > 0.0
    ensures CurrentPosition(s.ledger).Some?
    ensures var sale := Exited(s, OwnBar(c, bar), CurrentPosition(s.ledger).value, kind, c.trading.SellPrice(quote));
            && sale.result.Ok? && sale.result.value.submitted && sale.executor.risk == s.risk
            && sale.result.value.reasons == []
            && Left(c, s.ledger, sale.executor, bar, kind, quote)
  {
    hide AfterSellSubmission, PositionKey, Select, Blank, Sells, Backtesting.Config.SellPrice;
    OnlyPosition(s.ledger, KeyOf(c));
    SlippedDown(c, quote);
    var a := SellAll(OwnBar(c, bar), CurrentPosition(s.ledger).value, kind, c.trading.SellPrice(quote));
    SaleSubmissionSettles(s.ledger, a);
    SoldShares(s.ledger, AfterSellSubmission(s.ledger, a).value.0,
               OrderRequest(a.id, a.instrument, a.exchange, SELL, a.quantity), a.fillPrice, a.time, KeyOf(c));
  }

  // ----- Marking

  /** The stop before the target; with neither reached only the risk state moves. */
  ghost predicate MarkingTold(c: ExecutorConfig, s: Executor, bar: Bar, after: Executor) {
    if c.trading.enableStopLoss && s.stopPrice.Some? && bar.low <= s.stopPrice.value then
      Left(c, s.ledger, after, bar, KStopLoss, Min(bar.open, s.stopPrice.value))
    else if c.trading.enableTargetExit && s.targetPrice.Some? && bar.high >= s.targetPrice.value then
      Left(c, s.ledger, after, bar, KTarget, Max(bar.open, s.targetPrice.value))
    else after == s.(risk := after.risk)
  }

  lemma EquityIs(c: ExecutorConfig, s: Executor, bar: Bar, equity: real)
    requires Tradable(c, s, bar) && equity == s.ledger.cash + bar.open * s.ledger.Held(KeyOf(c)) as real
    ensures s.ledger.Valid() && EquityAt(s.ledger, bar.open) == equity >= 0.0
    ensures CurrentPosition(s.ledger).Some? <==> s.ledger.Held(KeyOf(c)) > 0
    ensures s.ledger.Held(KeyOf(c)) == 0 ==> OpenPositions(s.ledger) == 0
  {
    hide Blank, PositionKey, Select;
    OnlyPosition(s.ledger, KeyOf(c));
    if s.ledger.Held(KeyOf(c)) > 0 {
      PositiveProduct(bar.open, s.ledger.Held(KeyOf(c)) as real);
    }
  }

  lemma LevelsAsTold(c: ExecutorConfig, s: Executor, bar: Bar)
    requires s.ledger.Valid() && Tradable(c, s, bar) && s.ledger.Held(KeyOf(c)) > 0
    requires CurrentPosition(s.ledger).Some?
    ensures AfterLevels(c, s, bar).result.Ok? && AfterLevels(c, s, bar).executor.risk == s.risk
    ensures MarkingTold(c, s, bar, AfterLevels(c, s, bar).executor)
  {
    hide Exited, PositionKey, Tradable, CurrentPosition, Left, Min, Max, Backtesting.Config.SellPrice;
    QuotesArePositive(c, s, bar);
    if StopHit(c, s, bar) {
      ExitLeaves(c, s, bar, KStopLoss, Min(bar.open, s.stopPrice.value));
    } else if TargetHit(c, s, bar) {
      ExitLeaves(c, s, bar, KTarget, Max(bar.open, s.targetPrice.value));
    }
  }

  lemma QuotesArePositive(c: ExecutorConfig, s: Executor, bar: Bar)
    requires Tradable(c, s, bar)
    ensures s.stopPrice.Some? ==> Min(bar.open, s.stopPrice.value) > 0.0
    ensures s.targetPrice.Some? ==> Max(bar.open, s.targetPrice.value) > 0.0
    ensures bar.open > 0.0
  {}

  /**
   * Marking a held position never raises: it leaves whole exactly when the bar's low is at or below the tracked stop,
   * or else its high at or above the tracked target, at the worse of the open and the stop or the better of the open
   * and the target.
   */
  lemma MarkingActsOnLevels(c: ExecutorConfig, limits: RiskLimits, s: Executor, bar: Bar, equity: real)
    requires s.ledger.Valid() && Tradable(c, s, bar)
    requires bar.instrument == c.instrument && bar.exchange == c.exchange
    requires equity == s.ledger.cash + bar.open * s.ledger.Held(KeyOf(c)) as real
    ensures var marked := AfterMarking(c, limits, s, bar);
            && marked.result.Ok? && AfterMark(limits, s.risk, equity, bar.time) == Ok(marked.executor.risk)
            && if s.ledger.Held(KeyOf(c)) > 0 then MarkingTold(c, s, bar, marked.executor)
               else marked.executor == s.(risk := marked.executor.risk)
  {
    hide AfterMark, Exited, PositionKey, CurrentPosition, EquityAt, Left, Min, Max, Tradable;
    EquityIs(c, s, bar, equity);
    MarkOutcome(limits, s.risk, equity, bar.time);
    var t := s.(risk := AfterMark(limits, s.risk, equity, bar.time).value);
    if s.ledger.Held(KeyOf(c)) > 0 {
      StillTradable(c, s, t, bar);
      LevelsAsTold(c, t, bar);
    }
  }

  lemma StillTradable(c: ExecutorConfig, s: Executor, t: Executor, bar: Bar)
    requires Tradable(c, s, bar) && t.ledger == s.ledger && t.stopPrice == s.stopPrice
    ensures Tradable(c, t, bar)
  {}

  // ----- Proposals

  /** The level tracked is the agent's or the configured one, whichever is nearer to the entry price. */
  predicate TracksNearer(c: ExecutorConfig, limits: RiskLimits, proposal: TradeProposal, entry: real, after: Executor) {
    var stop := entry * (1.0 - c.trading.stopLossDistanceFraction);
    var target := entry * (1.0 + c.trading.stopLossDistanceFraction * limits.minimumRewardRisk);
    && after.stopPrice.Some? == c.trading.enableStopLoss && after.targetPrice.Some? == c.trading.enableTargetExit
    && (after.stopPrice.Some? ==>
          var level := after.stopPrice.value;
          if proposal.stopPrice.Some? && proposal.stopPrice.value >= stop then level == proposal.stopPrice.value
          else level == stop)
    && (after.targetPrice.Some? ==>
          var level := after.targetPrice.value;
          if proposal.targetPrice.Some? && proposal.targetPrice.value <= target
          then level == proposal.targetPrice.value else level == target)
  }

  lemma TrackedIsNearer(c: ExecutorConfig, limits: RiskLimits, proposal: TradeProposal, entry: real, after: Executor)
    requires after.stopPrice == TrackedStop(c, proposal, entry)
    requires after.targetPrice == TrackedTarget(c, limits, proposal, entry)
    ensures TracksNearer(c, limits, proposal, entry, after)
  {}

  /** The gate is open with nothing held, and the bounds allow a share at this price. */
  predicate MayBuy(c: ExecutorConfig, limits: RiskLimits, s: Executor, price: real) {
    && MayOpen(limits, s.risk, s.ledger.cash, 0)
    && FitsRisk(limits, price, c.trading.stopDistanceFraction, 1)
    && FitsCapital(limits, s.ledger.cash, price, c.trading.initialCapital, c.trading.commissionRate, 1)
  }

  ghost predicate Bought(c: ExecutorConfig, limits: RiskLimits, proposal: TradeProposal, s: Executor, bar: Bar,
                         price: real, after: Executor) {
    && TracksNearer(c, limits, proposal, price, after) && after.risk == s.risk
    && var id := OrderId(c.instrument, bar.time.instant, KBuy);
       && id in after.ledger.orders.data
       && var q := after.ledger.orders.data[id].request.quantity;
          && Buys(s.ledger, after.ledger, OrderRequest(id, c.instrument, c.exchange, BUY, q), price, bar.time)
          && forall n | n > 0 ::
               n <= q <==> FitsRisk(limits, price, c.trading.stopDistanceFraction, n) &&
                           FitsCapital(limits, s.ledger.cash, price, c.trading.initialCapital, c.trading.commissionRate,
                                       n)
  }

  lemma EntryArgsAllow(c: ExecutorConfig, limits: RiskLimits, l: Ledger, bar: Bar, n: int)
    ensures Allowed(limits, l.cash, EntryArgs(c, l, bar), n) <==>
            FitsRisk(limits, c.trading.BuyPrice(bar.open), c.trading.stopDistanceFraction, n) &&
            FitsCapital(limits, l.cash, c.trading.BuyPrice(bar.open), c.trading.initialCapital,
                        c.trading.commissionRate, n)
  {
    hide FitsRisk, FitsCapital, Backtesting.Config.BuyPrice;
  }

  lemma SlippedUp(c: ExecutorConfig, price: real)
    requires price > 0.0
    ensures c.trading.BuyPrice(price) > 0.0
    ensures c.trading.BuyPrice(price) == price * (1.0 + c.trading.slippageRate)
  {
    var factor := 1.0 + c.trading.slippageRate;
    PositiveProduct(price, factor);
    assert c.trading.BuyPrice(price) == price * factor;
  }

  lemma PurchaseAsTold(c: ExecutorConfig, limits: RiskLimits, s: Executor, proposal: TradeProposal, bar: Bar,
                       price: real)
    requires s.ledger.Valid() && Tradable(c, s, bar) && s.ledger.Held(KeyOf(c)) == 0
    requires price == c.trading.BuyPrice(bar.open) > 0.0
    ensures var r := AfterBuying(c, limits, s, proposal, bar);
            && r.result.Ok? && (r.result.value.approved <==> MayBuy(c, limits, s, price))
            && if MayBuy(c, limits, s, price) then Bought(c, limits, proposal, s, bar, price, r.executor)
               else r.executor == s && r.result.value.reasons != []
  {
    hide AfterBuySubmission, PositionKey, OpenPositions, Blank, MayOpen, FitsRisk, FitsCapital, Allowed, Buys,
         Backtesting.Config.BuyPrice, TrackedStop, TrackedTarget, TracksNearer, CurrentPosition;
    var a := EntryArgs(c, s.ledger, bar);
    EquityIs(c, s, bar, s.ledger.cash + bar.open * s.ledger.Held(KeyOf(c)) as real);
    forall n: int ensures Allowed(limits, s.ledger.cash, a, n) <==>
              FitsRisk(limits, price, c.trading.stopDistanceFraction, n) &&
              FitsCapital(limits, s.ledger.cash, price, c.trading.initialCapital, c.trading.commissionRate, n)
    {
      EntryArgsAllow(c, limits, s.ledger, bar, n);
    }
    GatedBuySettles(limits, s.ledger, s.risk, a);
    if MayBuy(c, limits, s, price) {
      TrackedIsNearer(c, limits, proposal, price, AfterBuying(c, limits, s, proposal, bar).executor);
    }
  }

  /**
   * A proposal for another instrument raises. Otherwise a proposal to hold moves nothing; one to buy is refused while
   * holding and else buys exactly when the gate and the bounds allow it; one to sell is refused when flat and else
   * sells everything a slippage below the open.
   */
  lemma ProposalActs(c: ExecutorConfig, limits: RiskLimits, s: Executor, proposal: TradeProposal, bar: Bar, price: real)
    requires s.ledger.Valid() && Tradable(c, s, bar) && price == bar.open * (1.0 + c.trading.slippageRate)
    ensures var r, held := AfterProposal(c, limits, s, proposal, bar), s.ledger.Held(KeyOf(c));
            if proposal.instrument != c.instrument || proposal.exchange != c.exchange
            then r == Effect(s, Err(ValueError))
            else r.result.Ok? &&
                 match proposal.action
                 case Hold => r == Effect(s, Ok(ProposalResult(None, true, [])))
                 case ProposeBuy =>
                   if held > 0 then r == Effect(s, Ok(ProposalResult(None, false, [AlreadyHolding])))
                   else
                     && (r.result.value.approved <==> MayBuy(c, limits, s, price))
                     && if MayBuy(c, limits, s, price) then Bought(c, limits, proposal, s, bar, price, r.executor)
                        else r.executor == s && r.result.value.reasons != []
                 case ProposeSell =>
                   if held == 0 then r == Effect(s, Ok(ProposalResult(None, false, [NothingToSell])))
                   else r.result.value.approved && Left(c, s.ledger, r.executor, bar, KSell, bar.open)
  {
    hide AfterBuying, Exited, PositionKey, CurrentPosition, Tradable, MayBuy, Bought, Left,
         Backtesting.Config.SellPrice, Backtesting.Config.BuyPrice;
    EquityIs(c, s, bar, s.ledger.cash + bar.open * s.ledger.Held(KeyOf(c)) as real);
    QuotesArePositive(c, s, bar);
    HeldIsNotNegative(c, s, bar);
    SlippedUp(c, bar.open);
    assert price == c.trading.BuyPrice(bar.open);
    if s.ledger.Held(KeyOf(c)) == 0 {
      PurchaseAsTold(c, limits, s, proposal, bar, price);
    } else {
      ExitLeaves(c, s, bar, KSell, bar.open);
    }
  }

  lemma HeldIsNotNegative(c: ExecutorConfig, s: Executor, bar: Bar)
    requires Tradable(c, s, bar)
    ensures s.ledger.Held(KeyOf(c)) >= 0
  {}
}
