/** With positive prices and costs that leave something of every price, the portfolio loop never raises. */
module PortfolioProgress {
  import opened Prelude
  import opened OrderedDict
  import opened Models
  import opened Metrics
  import opened Risk
  import opened PaperBroking
  import opened Indicators
  import opened LedgerLaws
  import opened LedgerEffects
  import opened PortfolioLoop
  import opened PortfolioBooks
  import opened PortfolioSteps
  import opened PortfolioPhases
  import opened PortfolioLaws
  import opened PortfolioCooldown
  import O = OrderManaging

  // ----- Submissions complete

  lemma PlacingCompletes(l: Ledger, id: OrderId, instrument: string, exchange: string, side: OrderSide, quantity: int,
                         price: real, time: Timestamp)
    requires !Blank(instrument) && quantity > 0 && price > 0.0
    ensures O.AfterPlacing(l, id, instrument, exchange, side, quantity, price, time).Ok?
  {
    hide Blank, PositionKey, Notional, Fee, ApplyDelta;
  }

  lemma PurchaseCompletes(limits: RiskLimits, l: Ledger, r: RiskState, a: O.BuyArgs)
    requires l.Valid() && !Blank(a.instrument) && a.fillPrice > 0.0 && a.stopFraction > 0.0 && a.commissionRate >= 0.0
    ensures O.AfterBuySubmission(limits, l, r, a).Ok?
  {
    hide O.AfterPlacing, BlockReasons, O.OpenPositions, Blank, SizeNewPosition, SizeByWeight;
    SizeByWeightIsMaximal(limits, l.cash, a.fillPrice, a.initialCapital, a.commissionRate);
    SizeNewPositionIsMaximal(limits, l.cash, a.fillPrice, a.stopFraction, a.initialCapital, a.commissionRate);
    var sized := O.Sized(limits, l.cash, a).value;
    var quantity := if a.maxQuantity.Some? then MinInt(sized, a.maxQuantity.value) else sized;
    if quantity > 0 {
      PlacingCompletes(l, a.id, a.instrument, a.exchange, BUY, quantity, a.fillPrice, a.time);
    }
  }

  lemma OrderKeepsFunds(l: Ledger, request: OrderRequest, price: real, time: Timestamp)
    requires l.Valid() && l.cash >= 0.0 && l.rate <= 1.0 && AfterOrder(l, request, price, time).Ok?
    ensures AfterOrder(l, request, price, time).value.cash >= 0.0
  {
    hide Notional, Fee, PositionKey, AfterOrder, SaleProceeds, BuyCost;
    OrderCash(l, request, price, time);
    if price > 0.0 {
      ProceedsSign(l, request, price);
    }
  }

  lemma PlacingKeepsFunds(l: Ledger, id: OrderId, instrument: string, exchange: string, side: OrderSide, quantity: int,
                          price: real, time: Timestamp)
    requires l.Valid() && l.cash >= 0.0 && l.rate <= 1.0
    requires O.AfterPlacing(l, id, instrument, exchange, side, quantity, price, time).Ok?
    ensures O.AfterPlacing(l, id, instrument, exchange, side, quantity, price, time).value.0.cash >= 0.0
  {
    hide AfterOrder, Blank;
    OrderKeepsFunds(l, MakeRequest(id, instrument, exchange, side, quantity).value, price, time);
  }

  lemma PurchaseKeepsFunds(limits: RiskLimits, l: Ledger, r: RiskState, a: O.BuyArgs)
    requires l.Valid() && l.cash >= 0.0 && l.rate <= 1.0 && O.AfterBuySubmission(limits, l, r, a).Ok?
    ensures O.AfterBuySubmission(limits, l, r, a).value.0.cash >= 0.0
  {
    hide O.AfterPlacing, BlockReasons, O.OpenPositions, O.Sized;
    var sized := O.Sized(limits, l.cash, a);
    if sized.Ok? {
      var quantity := if a.maxQuantity.Some? then MinInt(sized.value, a.maxQuantity.value) else sized.value;
      if O.AfterPlacing(l, a.id, a.instrument, a.exchange, BUY, quantity, a.fillPrice, a.time).Ok? {
        PlacingKeepsFunds(l, a.id, a.instrument, a.exchange, BUY, quantity, a.fillPrice, a.time);
      }
    }
  }

  // ----- What keeps the loop going

  /** Slipped prices stay positive, and a sale brings in more than its commission. */
  predicate CheapCosts(c: Config) {
    -1.0 < c.slippageRate < 1.0 && c.commissionRate < 1.0
  }

  /** Such costs, and instruments that can be ordered. */
  ghost predicate Tradable(m: Market, c: Config) {
    && CheapCosts(c)
    && forall i | i in m :: !Blank(i)
  }

  ghost predicate PositiveBars(bars: seq<Bar>) {
    forall b | b in bars :: b.open > 0.0 && b.close > 0.0
  }

  ghost predicate PositiveHistories(histories: map<string, seq<Bar>>) {
    forall i | i in histories :: PositiveBars(histories[i])
  }

  predicate SoundPlan(plan: Plan) { 0.0 < plan.stopPrice < plan.highestClose }

  predicate SoundAction(action: Pending) {
    action.PendingBuy? ==> 0.0 < action.candidate.stopPrice < action.candidate.technical.close
  }

  /** There is cash, or something is held and nothing is owed. */
  ghost predicate Solvent(m: Market, l: Ledger) {
    l.cash > 0.0 || (l.cash >= 0.0 && Holding(m, l) != {})
  }

  predicate AllPositive(curve: seq<real>) {
    forall i :: 0 <= i < |curve| ==> curve[i] > 0.0
  }

  /** Solvent accounts, positive equity so far, and stops strictly between zero and the closes they were set from. */
  ghost predicate Sound(m: Market, s: Portfolio) {
    && Solvent(m, s.ledger)
    && AllPositive(s.curve)
    && PositiveHistories(s.histories)
    && (forall i | i in s.plans :: SoundPlan(s.plans[i]))
    && (forall i | i in s.pending.data :: SoundAction(s.pending.data[i]))
  }

  lemma PositiveProduct(a: real, b: real)
    requires a > 0.0 && b > 0.0
    ensures a * b > 0.0
  {}

  lemma PositiveSell(c: Config, price: real)
    requires CheapCosts(c) && price > 0.0
    ensures c.SellPrice(price) > 0.0 && c.BuyPrice(price) > 0.0
  {
    PositiveProduct(price, 1.0 - c.slippageRate);
    PositiveProduct(price, 1.0 + c.slippageRate);
  }

  lemma SaleBringsCash(price: real, quantity: int, rate: real)
    requires price > 0.0 && quantity > 0 && rate < 1.0
    ensures Notional(price, quantity) - Fee(Notional(price, quantity), rate) > 0.0
  {
    PositiveProduct(price, quantity as real);
    PositiveProduct(Notional(price, quantity), 1.0 - rate);
    assert Notional(price, quantity) * (1.0 - rate) == Notional(price, quantity) - Fee(Notional(price, quantity), rate);
  }

  lemma SellSubmissionCompletes(l: Ledger, a: O.SellArgs)
    requires !Blank(a.instrument) && a.quantity > 0 && a.fillPrice > 0.0
    ensures O.AfterSellSubmission(l, a).Ok?
  {
    hide Blank, O.AfterPlacing;
    PlacingCompletes(l, a.id, a.instrument, a.exchange, SELL, a.quantity, a.fillPrice, a.time);
  }

  lemma ClosedCash(m: Market, l: Ledger, after: Ledger, a: O.SellArgs)
    requires a.instrument in m && l.Valid() && Closed(m, l, after, a)
    ensures after.cash == l.cash + (Notional(a.fillPrice, a.quantity) - Fee(Notional(a.fillPrice, a.quantity), l.rate))
  {
    hide Worth, Coherent, Holding, OneOrder, Notional, Fee, KeyOf, Ledger.AveragePrice;
  }

  /** Selling a held position at a positive price succeeds, and leaves cash. */
  lemma SaleGoesThrough(m: Market, c: Config, s: Portfolio, now: int, bar: Bar, quantity: int, price: real, id: OrderId)
    requires Booked(m, c, s) && Tradable(m, c) && s.ledger.Valid() && s.ledger.cash >= 0.0
    requires Listed(m, bar) && bar.instrument in Holding(m, s.ledger)
             && quantity == s.ledger.Held(KeyOf(m, bar.instrument))
    requires id !in Ids(s) && price > 0.0
    ensures Sold(s, bar, quantity, price, id).Ok? && Sold(s, bar, quantity, price, id).value.ledger.cash > 0.0
    ensures SoldOut(s, bar, quantity, price, id).Ok?
  {
    hide PositionKey, Holding, OpenList, Blank, RecordsFor, Ledger.Valid, O.AfterSellSubmission, Closed, Notional, Fee;
    BookedIsValid(m, c, s);
    HeldQuantity(m, s.ledger, bar.instrument);
    LookupFindsHeld(m, s.ledger, bar.instrument);
    BookedRate(m, c, s);
    hide Booked;
    var a := O.SellArgs(id, bar.instrument, bar.exchange, quantity, price, bar.time);
    SellSubmissionCompletes(s.ledger, a);
    FullSale(m, s.ledger, a);
    ClosedCash(m, s.ledger, O.AfterSellSubmission(s.ledger, a).value.0, a);
    SaleBringsCash(price, quantity, s.ledger.rate);
  }

  lemma BookedRate(m: Market, c: Config, s: Portfolio)
    requires Booked(m, c, s)
    ensures s.ledger.rate == c.commissionRate
  {
    hide Holding, Entries;
  }

  // ----- Pending actions go through

  /** A filled purchase leaves something held, a refused one moves nothing. */
  lemma PurchaseKeepsSolvent(m: Market, limits: RiskLimits, l: Ledger, r: RiskState, a: O.BuyArgs)
    requires ValidMarket(m) && Coherent(m, l) && a.instrument in m && a.exchange == m[a.instrument]
    requires a.id !in l.orders.data && Solvent(m, l) && l.rate <= 1.0
    requires O.AfterBuySubmission(limits, l, r, a).Ok?
    ensures Solvent(m, O.AfterBuySubmission(limits, l, r, a).value.0)
  {
    hide O.AfterBuySubmission, PositionKey, Holding, Worth, OneOrder;
    GatedPurchase(m, limits, l, r, a);
    PurchaseKeepsFunds(limits, l, r, a);
    assert a.instrument in Holding(m, l) + {a.instrument};
  }

  lemma EntryGoesThrough(m: Market, c: Config, limits: RiskLimits, s: Portfolio, bar: Bar, candidate: Candidate,
                         e: MarketEvent)
    requires Tradable(m, c) && Listed(m, bar) && bar.open > 0.0
    requires ValidMarket(m) && Coherent(m, s.ledger) && OrderIdAt(bar.instrument, e.time, KBuy) !in Ids(s)
    requires s.ledger.Valid() && s.ledger.rate <= 1.0 && Sound(m, s)
    requires 0.0 < candidate.stopPrice < candidate.technical.close
    ensures Entered(c, limits, s, bar, candidate, e).Ok?
    ensures Sound(m, Entered(c, limits, s, bar, candidate, e).value)
  {
    hide O.AfterBuySubmission, AverageFillPrice, Blank, Config.BuyPrice, EquityAtPrices, Ledger.Valid, Solvent,
         ValidMarket,
         Coherent;
    PositiveSell(c, bar.open);
    var a := EntryArgs(c, s, bar, candidate, e);
    StopFractionIsPositive(candidate.technical.close, candidate.stopPrice);
    PurchaseCompletes(limits, s.ledger, s.risk, a);
    PurchaseKeepsSolvent(m, limits, s.ledger, s.risk, a);
  }

  lemma StopFractionIsPositive(close: real, stop: real)
    requires 0.0 < stop < close
    ensures (close - stop) / close > 0.0
  {
    var q := (close - stop) / close;
    assert q * close == close - stop;
    assert q <= 0.0 ==> q * close <= 0.0;
  }

  lemma PyramidGoesThrough(m: Market, c: Config, limits: RiskLimits, s: Portfolio, bar: Bar, position: Position,
                           e: MarketEvent)
    requires Tradable(m, c) && Listed(m, bar) && bar.open > 0.0
    requires ValidMarket(m) && Coherent(m, s.ledger) && OrderIdAt(bar.instrument, e.time, KPyramid) !in Ids(s)
    requires s.ledger.Valid() && s.ledger.rate <= 1.0 && Sound(m, s)
    ensures Pyramided(c, limits, s, bar, position, e).Ok?
    ensures Sound(m, Pyramided(c, limits, s, bar, position, e).value)
  {
    hide O.AfterBuySubmission, Blank, Config.BuyPrice, EquityAtPrices, Ledger.Valid, Solvent, ValidMarket, Coherent;
    if bar.instrument in s.plans {
      PositiveSell(c, bar.open);
      var plan := s.plans[bar.instrument];
      assert SoundPlan(plan);
      var a := PyramidArgs(c, s, bar, position, plan, e);
      PurchaseCompletes(limits, s.ledger, s.risk, a);
      PurchaseKeepsSolvent(m, limits, s.ledger, s.risk, a);
    }
  }

  /** The bars of an event are positive. */
  ghost predicate PositiveEvent(m: Market, e: MarketEvent) {
    ProperEvent(m, e) && PositiveBars(e.bars)
  }

  lemma PopKeepsSound(m: Market, s: Portfolio, k: string)
    requires Sound(m, s)
    ensures Sound(m, s.(pending := s.pending.Remove(k)))
  {
    hide PositiveHistories, SoundPlan, SoundAction;
  }

  lemma PendingStepGoesThrough(m: Market, c: Config, limits: RiskLimits, s: Portfolio, e: MarketEvent, k: string,
                               acted: set<string>)
    requires Tradable(m, c) && PositiveEvent(m, e) && Sound(m, s)
    requires Steady(m, c, s, e.time.instant) && Visible(s, e)
    requires Spent(Ids(s), e.time.instant, acted, {}) && k !in acted && s.ledger.Valid()
    ensures PendingStep(c, limits, s, e, k).Ok?
    ensures Sound(m, PendingStep(c, limits, s, e, k).value)
  {
    hide PositionKey, Holding, Entered, Pyramided, Sold, Spent, Steady, OpenList, FindPosition, BarOf, Sound,
         Ledger.Valid, Config.SellPrice;
    BarOfFinds(e.bars, k);
    var bar := BarOf(e.bars, k);
    if bar.Some? && k in s.pending.data {
      var popped := s.(pending := s.pending.Remove(k));
      PopKeepsSound(m, s, k);
      PopKeepsSteady(m, c, s, e.time.instant, k);
      SteadyIsBooked(m, c, popped, e.time.instant);
      BookedRate(m, c, popped);
      FoundPosition(m, c, s, e.time.instant, bar.value);
      SoundParts(m, s, k);
      PositiveSell(c, bar.value.open);
      var action, position := s.pending.data[k], FindPosition(OpenList(s.ledger), k, bar.value.exchange);
      if action.PendingSell? && position.Some? {
        FreshAction(Ids(s), e, acted, k, KTrend);
        SaleGoesThrough(m, c, popped, e.time.instant, bar.value, position.value.quantity, c.SellPrice(bar.value.open),
            OrderIdAt(k, e.time, KTrend));
        SaleKeepsSound(m, popped, bar.value, position.value.quantity, c.SellPrice(bar.value.open),
            OrderIdAt(k, e.time, KTrend));
      } else if action.PendingPyramid? && position.Some? {
        FreshAction(Ids(s), e, acted, k, KPyramid);
        PyramidGoesThrough(m, c, limits, popped, bar.value, position.value, e);
      } else if action.PendingBuy? && position.None? {
        FreshAction(Ids(s), e, acted, k, KBuy);
        EntryGoesThrough(m, c, limits, popped, bar.value, action.candidate, e);
      }
    }
  }

  lemma SoundParts(m: Market, s: Portfolio, k: string)
    requires Sound(m, s)
    ensures Solvent(m, s.ledger) && s.ledger.cash >= 0.0 && AllPositive(s.curve)
    ensures k in s.pending.data ==> SoundAction(s.pending.data[k])
    ensures k in s.plans ==> SoundPlan(s.plans[k])
    ensures PositiveHistories(s.histories)
  {}

  lemma SaleKeepsSound(m: Market, s: Portfolio, bar: Bar, quantity: int, price: real, id: OrderId)
    requires Sound(m, s) && s.ledger.Valid() && Sold(s, bar, quantity, price, id).Ok?
    requires Sold(s, bar, quantity, price, id).value.ledger.cash > 0.0
    ensures SoldOut(s, bar, quantity, price, id).Ok? && Sound(m, SoldOut(s, bar, quantity, price, id).value)
    ensures Sound(m, Sold(s, bar, quantity, price, id).value)
    ensures Sold(s, bar, quantity, price, id).value.histories == s.histories
  {
    hide O.AfterSellSubmission, RecordsFor, FindInstrument, OpenList, Ledger.Valid, PositiveHistories, SoundPlan,
         SoundAction;
  }

  lemma {:induction false} PendingGoesThrough(m: Market, c: Config, limits: RiskLimits, s: Portfolio, e: MarketEvent,
                                              keys: seq<string>)
    requires Tradable(m, c) && PositiveEvent(m, e) && Sound(m, s)
    requires Steady(m, c, s, e.time.instant) && Visible(s, e)
    requires Spent(Ids(s), e.time.instant, {}, {}) && Distinct(keys) && s.ledger.Valid()
    ensures AfterPending(c, limits, s, e, keys).Ok?
    ensures Sound(m, AfterPending(c, limits, s, e, keys).value)
  {
    hide Spent, Steady, PendingStep, Sound, Tradable, ProperEvent, PositiveBars;
    if |keys| > 0 {
      var init, last := keys[..|keys| - 1], keys[|keys| - 1];
      PendingGoesThrough(m, c, limits, s, e, init);
      PendingActsWell(m, c, limits, s, e, init);
      var acted := set k | k in init;
      assert last !in acted;
      PendingStepGoesThrough(m, c, limits, AfterPending(c, limits, s, e, init).value, e, last, acted);
    }
  }

  // ----- Stops and targets go through

  lemma StopLevelIsPositive(c: Config, s: Portfolio, plan: Plan, instrument: string)
    requires SoundPlan(plan)
    ensures StopLevel(c, s, plan, instrument) > 0.0
  {
    hide SnapshotFor;
  }

  lemma ExitStepGoesThrough(m: Market, c: Config, s: Portfolio, e: MarketEvent, p: Position, acted: set<string>,
                            exited: set<string>)
    requires Tradable(m, c) && PositiveEvent(m, e) && Sound(m, s)
    requires Steady(m, c, s, e.time.instant)
    requires StillOpen(m, s.ledger, p) && p.instrument !in exited
    requires Spent(Ids(s), e.time.instant, acted, exited) && s.ledger.Valid()
    ensures ExitStep(c, s, e, p).Ok?
    ensures Sound(m, ExitStep(c, s, e, p).value)
  {
    hide PositionKey, Holding, Sold, Spent, Steady, BarOf, StopLevel, Sound, Ledger.Valid, Config.SellPrice;
    BarOfFinds(e.bars, p.instrument);
    FreshExit(Ids(s), e, acted, exited, p.instrument, KStop);
    FreshExit(Ids(s), e, acted, exited, p.instrument, KTarget);
    SteadyIsBooked(m, c, s, e.time.instant);
    SoundParts(m, s, p.instrument);
    var bar := BarOf(e.bars, p.instrument);
    if bar.Some? && p.instrument in s.plans {
      var plan := s.plans[p.instrument];
      var stop := StopLevel(c, s, plan, p.instrument);
      StopLevelIsPositive(c, s, plan, p.instrument);
      if bar.value.low <= stop {
        var price := c.SellPrice(Min(bar.value.open, stop));
        PositiveSell(c, Min(bar.value.open, stop));
        SaleGoesThrough(m, c, s, e.time.instant, bar.value, p.quantity, price, OrderIdAt(p.instrument, e.time, KStop));
        SaleKeepsSound(m, s, bar.value, p.quantity, price, OrderIdAt(p.instrument, e.time, KStop));
      } else if plan.targetPrice.Some? && bar.value.high >= plan.targetPrice.value {
        var price := c.SellPrice(Max(bar.value.open, plan.targetPrice.value));
        PositiveSell(c, Max(bar.value.open, plan.targetPrice.value));
        SaleGoesThrough(m, c, s, e.time.instant, bar.value, p.quantity, price,
            OrderIdAt(p.instrument, e.time, KTarget));
        SaleKeepsSound(m, s, bar.value, p.quantity, price, OrderIdAt(p.instrument, e.time, KTarget));
      } else if plan.trailing.Some? {
        TrailingKeepsSound(m, s, p.instrument, plan, Max(plan.highestClose, bar.value.close));
      }
    }
  }

  lemma TrailingKeepsSound(m: Market, s: Portfolio, k: string, plan: Plan, highest: real)
    requires Sound(m, s) && k in s.plans && SoundPlan(plan) && highest >= plan.highestClose
    ensures Sound(m, s.(plans := s.plans[k := plan.(highestClose := highest)]))
  {
    hide PositiveHistories, SoundAction;
  }

  lemma {:induction false} ExitsGoThrough(m: Market, c: Config, s: Portfolio, e: MarketEvent, positions: seq<Position>,
                                          acted: set<string>)
    requires Tradable(m, c) && PositiveEvent(m, e) && Sound(m, s)
    requires Steady(m, c, s, e.time.instant)
    requires OnePerInstrument(positions) && forall p | p in positions :: StillOpen(m, s.ledger, p)
    requires Spent(Ids(s), e.time.instant, acted, {}) && s.ledger.Valid()
    ensures AfterExits(c, s, e, positions).Ok?
    ensures Sound(m, AfterExits(c, s, e, positions).value)
  {
    hide Spent, Steady, ExitStep, StillOpen, OnePerInstrument, Names, Sound, Tradable, ProperEvent, PositiveBars;
    if |positions| > 0 {
      var init, last := positions[..|positions| - 1], positions[|positions| - 1];
      NamesSnoc(positions);
      ExitsGoThrough(m, c, s, e, init, acted);
      ExitsAreWell(m, c, s, e, init, acted);
      ExitStepGoesThrough(m, c, AfterExits(c, s, e, init).value, e, last, acted, Names(init));
    }
  }

  // ----- The rest of an event keeps the loop going

  lemma {:induction false} AppendedArePositive(histories: map<string, seq<Bar>>, bars: seq<Bar>)
    requires PositiveHistories(histories) && PositiveBars(bars)
    ensures PositiveHistories(AppendBars(histories, bars))
  {
    if |bars| > 0 {
      var init, last := bars[..|bars| - 1], bars[|bars| - 1];
      assert last in bars;
      AppendedArePositive(histories, init);
    }
  }

  lemma {:induction false} PositionsAreWorthSomething(positions: seq<Position>, histories: map<string, seq<Bar>>,
                                                      useOpen: bool)
    requires PositiveHistories(histories) && forall p | p in positions :: p.quantity > 0
    ensures PositionsValue(positions, histories, useOpen) >= 0.0
    ensures |positions| > 0 && |HistoryOf(histories, LastOf(positions).instrument)| > 0 ==>
              PositionsValue(positions, histories, useOpen) > 0.0
  {
    if |positions| > 0 {
      var last := positions[|positions| - 1];
      PositionsAreWorthSomething(positions[..|positions| - 1], histories, useOpen);
      var history := HistoryOf(histories, last.instrument);
      if |history| > 0 {
        assert LastOf(history) in history;
        PositiveProduct(if useOpen then LastOf(history).open else LastOf(history).close, last.quantity as real);
      }
    }
  }

  /** A solvent account that knows a price for everything it holds has positive equity. */
  lemma EquityIsPositive(m: Market, s: Portfolio, useOpen: bool)
    requires ValidMarket(m) && Coherent(m, s.ledger) && Solvent(m, s.ledger) && PositiveHistories(s.histories)
    requires forall i | i in Holding(m, s.ledger) :: |HistoryOf(s.histories, i)| > 0
    ensures EquityAtPrices(s.ledger, s.histories, useOpen) > 0.0
  {
    hide Holding, PositionsValue, OpenList, PositiveHistories, HistoryOf, PositionKey;
    OpenQuantities(s.ledger);
    OpenInstrumentsAreHeld(m, s.ledger);
    var positions := OpenList(s.ledger);
    PositionsAreWorthSomething(positions, s.histories, useOpen);
    if |positions| > 0 {
      assert LastOf(positions) in positions;
      OpenPositionsAreHeld(m, s.ledger, LastOf(positions));
    }
  }

  lemma OpenQuantities(l: Ledger)
    requires l.Valid()
    ensures forall p | p in OpenList(l) :: p.quantity > 0
  {
    hide PositionKey;
    SelectMembers(l.positions.keys, l.positions.data, IsOpen);
  }

  lemma EventBegins(m: Market, c: Config, limits: RiskLimits, s: Portfolio, e: MarketEvent)
    requires PositiveEvent(m, e) && Sound(m, s) && s.ledger.Valid()
    ensures Marked(limits, WithBars(s, e), e).Ok?
    ensures Sound(m, CooledDown(c, Marked(limits, WithBars(s, e), e).value, e))
  {
    hide Ledger.Valid, ProperEvent, PositionsValue, OpenList, AppendBars, PositiveHistories, PositiveBars, SoundPlan,
         SoundAction, AfterReset;
    AppendedArePositive(s.histories, e.bars);
    OpenQuantities(s.ledger);
    PositionsAreWorthSomething(OpenList(s.ledger), WithBars(s, e).histories, true);
  }

  lemma TradingGoesThrough(m: Market, c: Config, limits: RiskLimits, s: Portfolio, e: MarketEvent, last: int)
    requires Tradable(m, c) && PositiveEvent(m, e) && Sound(m, s)
    requires Steady(m, c, s, last) && last < e.time.instant && SpentBy(Ids(s), last) && s.ledger.Valid()
    ensures Traded(c, limits, s, e).Ok? && Sound(m, Traded(c, limits, s, e).value)
  {
    hide Steady, ProperEvent, PositiveBars, Visible, OpenList, AfterPending, AfterExits, AfterMark, EquityAtPrices,
         AfterReset, Sound, Tradable;
    BarsKeepSteady(m, c, s, e, last);
    EventBegins(m, c, limits, s, e);
    var marked := Marked(limits, WithBars(s, e), e).value;
    var cooled := CooledDown(c, marked, e);
    SteadyIgnores(m, c, WithBars(s, e), cooled, e.time.instant);
    VisibleIsHistories(WithBars(s, e), cooled, e);
    PendingIsValid(m, c, cooled, e.time.instant);
    PendingGoesThrough(m, c, limits, cooled, e, cooled.pending.keys);
    PendingActsWell(m, c, limits, cooled, e, cooled.pending.keys);
    var acted := AfterPending(c, limits, cooled, e, cooled.pending.keys).value;
    SteadyIsBooked(m, c, acted, e.time.instant);
    ListedPositionsAreOpen(m, acted.ledger);
    ExitsGoThrough(m, c, acted, e, OpenList(acted.ledger), set k | k in cooled.pending.keys);
  }

  // ----- Scheduling keeps the plans sound

  lemma PutKeepsSound(m: Market, s: Portfolio, k: string, action: Pending)
    requires Sound(m, s) && SoundAction(action)
    ensures Sound(m, s.(pending := s.pending.Put(k, action)))
  {
    hide PositiveHistories, SoundPlan, SoundAction;
  }

  lemma {:induction false} PyramidsKeepSound(m: Market, c: Config, s: Portfolio, e: MarketEvent,
                                             positions: seq<Position>)
    requires Sound(m, s)
    ensures Sound(m, AfterPyramids(c, s, e, positions))
  {
    hide Sound, WantsPyramid;
    if |positions| > 0 {
      PyramidsKeepSound(m, c, s, e, positions[..|positions| - 1]);
      PutKeepsSound(m, AfterPyramids(c, s, e, positions[..|positions| - 1]), positions[|positions| - 1].instrument,
          PendingPyramid);
    }
  }

  ghost predicate SoundCandidates(candidates: seq<Candidate>) {
    forall x | x in candidates :: SoundAction(PendingBuy(x))
  }

  /** A candidate's stop lies some positive ranges below its close, and above zero. */
  lemma CandidateIsSound(c: Config, f: Filters, s: Portfolio, snapshot: Snapshot, history: seq<Bar>)
    requires CandidateFrom(c, f, s, snapshot, history).Some?
    ensures SoundAction(PendingBuy(CandidateFrom(c, f, s, snapshot, history).value))
  {
    PositiveProduct(snapshot.atr, c.stopAtrMultiple);
  }

  lemma {:induction false} ScanKeepsSound(m: Market, c: Config, f: Filters, s: Portfolio, bars: seq<Bar>,
                                          allowEntries: bool)
    requires s.ledger.Valid() && Sound(m, s)
    ensures var scan := Scanned(c, f, s, bars, allowEntries);
            Sound(m, scan.portfolio) && SoundCandidates(scan.candidates)
  {
    hide Sound, OpenList, FindPosition, SnapshotFor, CandidateFrom, Ledger.Valid, SoundAction;
    if |bars| > 0 {
      var bar := bars[|bars| - 1];
      ScanKeepsSound(m, c, f, s, bars[..|bars| - 1], allowEntries);
      var before := Scanned(c, f, s, bars[..|bars| - 1], allowEntries).portfolio;
      SellIsSound();
      PutKeepsSound(m, before, bar.instrument, PendingSell);
      var snapshot := SnapshotFor(c, HistoryOf(before.histories, bar.instrument));
      if snapshot.Some? && CandidateFrom(c, f, before, snapshot.value,
          HistoryOf(before.histories, bar.instrument)).Some? {
        CandidateIsSound(c, f, before, snapshot.value, HistoryOf(before.histories, bar.instrument));
      }
    }
  }

  lemma SellIsSound()
    ensures SoundAction(PendingSell)
  {}

  lemma {:induction false} SchedulesAreSound(m: Market, s: Portfolio, candidates: seq<Candidate>)
    requires Sound(m, s) && SoundCandidates(candidates)
    ensures Sound(m, Schedule(s, candidates))
  {
    hide Sound, SoundAction;
    if |candidates| > 0 {
      SchedulesAreSound(m, s, candidates[..|candidates| - 1]);
      var last := candidates[|candidates| - 1];
      assert last in candidates;
      PutKeepsSound(m, Schedule(s, candidates[..|candidates| - 1]), last.instrument, PendingBuy(last));
    }
  }

  lemma SoundIgnores(m: Market, s: Portfolio, after: Portfolio)
    requires Sound(m, s)
    requires after == s.(universe := after.universe, lastRebalance := after.lastRebalance,
             recentEntries := after.recentEntries)
    ensures Sound(m, after)
  {}

  lemma SchedulingKeepsSound(m: Market, c: Config, f: Filters, s: Portfolio, e: MarketEvent)
    requires s.ledger.Valid() && Sound(m, s)
    ensures Sound(m, Scheduled(c, f, s, e))
  {
    hide Sound, OpenList, Ledger.Valid, AfterPyramids, Scanned, Schedule, Slots, SortCandidates, SoundAction;
    PyramidsKeepSound(m, c, s, e, OpenList(s.ledger));
    PyramidsKeepLedger(c, s, e, OpenList(s.ledger));
    var pyramided := if c.enablePyramiding then AfterPyramids(c, s, e, OpenList(s.ledger)) else s;
    var balanced := Rebalanced(c, f, pyramided, e);
    SoundIgnores(m, pyramided, balanced);
    ScanKeepsSound(m, c, f, balanced, e.bars, f.regime(balanced.regime));
    var scan := Scanned(c, f, balanced, e.bars, f.regime(balanced.regime));
    var pruned := WithPruning(c, scan.portfolio, e);
    SoundIgnores(m, scan.portfolio, pruned);
    var ranked := SortCandidates(scan.candidates);
    var chosen := ranked[..MinInt(Slots(c, pruned), |ranked|)];
    forall x | x in chosen ensures SoundAction(PendingBuy(x)) {
      assert x in multiset(ranked) && x in multiset(scan.candidates);
    }
    SchedulesAreSound(m, pruned, chosen);
  }

  // ----- Whole runs go through

  ghost predicate PositiveRun(m: Market, events: seq<MarketEvent>) {
    ProperRun(m, events) && forall k | 0 <= k < |events| :: PositiveBars(events[k].bars)
  }

  lemma EventGoesThrough(m: Market, c: Config, f: Filters, limits: RiskLimits, s: Portfolio, e: MarketEvent, last: int)
    requires Tradable(m, c) && PositiveEvent(m, e) && Sound(m, s)
    requires Steady(m, c, s, last) && last < e.time.instant && SpentBy(Ids(s), last) && s.ledger.Valid()
    ensures AfterEvent(c, f, limits, s, e).Ok? && Sound(m, AfterEvent(c, f, limits, s, e).value)
  {
    hide Steady, Traded, Scheduled, ProperEvent, Tradable, PositiveBars, AtClose, Sound, Ledger.Valid;
    TradingGoesThrough(m, c, limits, s, e, last);
    var traded := Traded(c, limits, s, e).value;
    SchedulingKeepsSound(m, c, f, traded, e);
    TradingKeepsSteady(m, c, limits, s, e, last);
    SchedulingKeepsSteady(m, c, f, traded, e);
    ClosingPointIsSound(m, c, Scheduled(c, f, traded, e), e.time.instant);
  }

  lemma {:induction false} EventsGoThrough(m: Market, c: Config, f: Filters, limits: RiskLimits, histories: map<string,
                                           seq<Bar>>,
                                           regime: seq<Bar>, events: seq<MarketEvent>, before: int)
    requires ValidMarket(m) && Tradable(m, c) && KnownHistories(m, histories) && PositiveHistories(histories)
             && PositiveRun(m, events)
    requires |events| > 0 ==> before < events[0].time.instant
    ensures AfterEvents(c, f, limits, StartPortfolio(c, histories, regime), events).Ok?
    ensures Sound(m, AfterEvents(c, f, limits, StartPortfolio(c, histories, regime), events).value)
  {
    hide Steady, AfterEvent, KnownHistories, PositiveHistories, ValidMarket, ProperEvent, Tradable, PositiveBars, Sound;
    var start := StartPortfolio(c, histories, regime);
    if |events| == 0 {
      StartIsSound(m, c, histories, regime);
    } else {
      var init, last := events[..|events| - 1], events[|events| - 1];
      EventsGoThrough(m, c, f, limits, histories, regime, init, before);
      var prior := AfterEvents(c, f, limits, start, init).value;
      RunStaysSteady(m, c, f, limits, histories, regime, init, prior, before);
      EventGoesThrough(m, c, f, limits, prior, last, Clock(init, before));
    }
  }

  lemma StartIsSound(m: Market, c: Config, histories: map<string, seq<Bar>>, regime: seq<Bar>)
    requires PositiveHistories(histories)
    ensures Sound(m, StartPortfolio(c, histories, regime))
  {
    hide PositiveHistories;
  }

  lemma ClosingPointIsSound(m: Market, c: Config, s: Portfolio, now: int)
    requires s.ledger.Valid() && Sound(m, s) && Steady(m, c, s, now)
    ensures Sound(m, AtClose(s))
  {
    hide EquityAtPrices, Ledger.Valid, Holding, Booked, KnownHistories, BuyKeys, Paced, HistoryOf, PositiveHistories;
    SteadyIsBooked(m, c, s, now);
    EquityIsPositive(m, s, false);
  }

  lemma FinalStepGoesThrough(m: Market, c: Config, s: Portfolio, time: Timestamp, p: Position, sold: set<string>)
    requires Tradable(m, c) && Closing(m, c, s, sold) && Sound(m, s) && s.ledger.Valid()
    requires StillOpen(m, s.ledger, p) && p.instrument !in sold && |HistoryOf(s.histories, p.instrument)| > 0
    ensures FinalStep(c, s, time, p).Ok? && Sound(m, FinalStep(c, s, time, p).value)
    ensures FinalStep(c, s, time, p).value.histories == s.histories
  {
    hide PositionKey, Holding, Sold, Booked, Sound, Ledger.Valid, Config.SellPrice;
    var last := LastOf(HistoryOf(s.histories, p.instrument));
    assert last in HistoryOf(s.histories, p.instrument);
    SoundParts(m, s, p.instrument);
    PositiveSell(c, last.close);
    var id := OrderIdAt(p.instrument, time, KFinal);
    SaleGoesThrough(m, c, s, time.instant, last, p.quantity, c.SellPrice(last.close), id);
    SaleKeepsSound(m, s, last, p.quantity, c.SellPrice(last.close), id);
  }

  lemma {:induction false} FinalSalesGoThrough(m: Market, c: Config, s: Portfolio, time: Timestamp,
                                               positions: seq<Position>)
    requires Tradable(m, c) && Closing(m, c, s, {}) && Sound(m, s) && s.ledger.Valid()
    requires OnePerInstrument(positions)
    requires forall p | p in positions :: StillOpen(m, s.ledger, p) && |HistoryOf(s.histories, p.instrument)| > 0
    ensures AfterFinalSales(c, s, time, positions).Ok? && Sound(m, AfterFinalSales(c, s, time, positions).value)
    ensures AfterFinalSales(c, s, time, positions).value.histories == s.histories
  {
    hide FinalStep, StillOpen, OnePerInstrument, Names, Closing, Sound, Tradable, Ledger.Valid;
    if |positions| > 0 {
      var init, last := positions[..|positions| - 1], positions[|positions| - 1];
      NamesSnoc(positions);
      FinalSalesGoThrough(m, c, s, time, init);
      FinalSalesClose(m, c, s, time, init);
      FinalStepGoesThrough(m, c, AfterFinalSales(c, s, time, init).value, time, last, Names(init));
    }
  }

  lemma HeldHaveHistories(m: Market, c: Config, s: Portfolio, now: int)
    requires Steady(m, c, s, now)
    ensures forall p: Position | StillOpen(m, s.ledger, p) :: |HistoryOf(s.histories, p.instrument)| > 0
  {
    hide Holding, Booked, KnownHistories, BuyKeys, Paced, HistoryOf;
  }

  /** The run's curve has a point for its start and one for every event. */
  lemma {:induction false} OnePointPerEvent(c: Config, f: Filters, limits: RiskLimits, start: Portfolio,
                                            events: seq<MarketEvent>)
    requires start.ledger.Valid() && AfterEvents(c, f, limits, start, events).Ok?
    ensures |AfterEvents(c, f, limits, start, events).value.curve| == |start.curve| + |events|
  {
    hide AfterEvent, Ledger.Valid, EquityAtPrices;
    if |events| > 0 {
      var init := events[..|events| - 1];
      OnePointPerEvent(c, f, limits, start, init);
      EventAddsOnePoint(c, f, limits, AfterEvents(c, f, limits, start, init).value, events[|events| - 1]);
    }
  }

  /** What is left once everything is sold: cash, since nothing else is held. */
  lemma LiquidationLeavesCash(m: Market, c: Config, s: Portfolio, now: int, time: Timestamp)
    requires s.ledger.Valid() && Steady(m, c, s, now) && SpentBy(Ids(s), now) && Tradable(m, c) && Sound(m, s)
    ensures AfterFinalSales(c, s, time, OpenList(s.ledger)).Ok?
    ensures var sold := AfterFinalSales(c, s, time, OpenList(s.ledger)).value;
            sold.ledger.cash > 0.0 && sold.curve == s.curve
  {
    hide Steady, Holding, Closing, AfterFinalSales, Tradable, PositiveHistories, OpenList, Sound, StillOpen, Entries,
         Names;
    SteadyIsBooked(m, c, s, now);
    SteadyIsClosing(m, c, s, now);
    HeldHaveHistories(m, c, s, now);
    ListedPositionsAreOpen(m, s.ledger);
    FinalSalesGoThrough(m, c, s, time, OpenList(s.ledger));
    FinalSalesClose(m, c, s, time, OpenList(s.ledger));
    LiquidationFlattens(m, c, s, now, time);
    SoundParts(m, AfterFinalSales(c, s, time, OpenList(s.ledger)).value, "");
  }

  /** The end of a run whose events and final sales went through: the cash replaces the last equity point. */
  lemma RunFinishes(c: Config, f: Filters, limits: RiskLimits, start: Portfolio, events: seq<MarketEvent>,
                    traded: Portfolio, sold: Portfolio)
    requires start.ledger.Valid() && |events| > 0 && AfterEvents(c, f, limits, start, events) == Ok(traded)
    requires traded.ledger.Valid() && AfterFinalSales(c, traded, LastOf(events).time, OpenList(traded.ledger))
             == Ok(sold)
    requires |sold.curve| > 0
    ensures var final := sold.(curve := sold.curve[..|sold.curve| - 1] + [sold.ledger.cash]);
            AfterRun(c, f, limits, start, events) == if Accepted(final.curve) then Ok(final) else Err(ValueError)
  {
    hide AfterFinalSales, AfterEvents, OpenList, Accepted, Ledger.Valid;
  }

  /** The run did not raise, has cash, and its curve has a positive point per event plus one and ends at that cash. */
  predicate Completed(r: Result<Portfolio, Error>, events: nat) {
    && r.Ok?
    && r.value.ledger.cash > 0.0
    && |r.value.curve| == events + 1 && AllPositive(r.value.curve) && LastOf(r.value.curve) == r.value.ledger.cash
  }

  /**
   * Over positive prices, with costs that leave something of every price, every non-empty run completes, the check of
   * its metrics included: it ends with cash, its curve has one positive point per event plus one and ends at that cash.
   */
  lemma RunCompletes(m: Market, c: Config, f: Filters, limits: RiskLimits, histories: map<string, seq<Bar>>,
                     regime: seq<Bar>, events: seq<MarketEvent>)
    requires ValidMarket(m) && Tradable(m, c) && KnownHistories(m, histories) && PositiveHistories(histories)
             && PositiveRun(m, events)
    requires |events| > 0
    ensures Completed(AfterRun(c, f, limits, StartPortfolio(c, histories, regime), events), |events|)
  {
    hide Steady, KnownHistories, ProperRun, AfterFinalSales, ValidMarket, AfterEvents, Tradable, PositiveHistories,
         OpenList, Sound,
         AfterRun;
    var start, before := StartPortfolio(c, histories, regime), events[0].time.instant - 1;
    EventsGoThrough(m, c, f, limits, histories, regime, events, before);
    var traded := AfterEvents(c, f, limits, start, events).value;
    RunStaysSteady(m, c, f, limits, histories, regime, events, traded, before);
    SteadyIsBooked(m, c, traded, Clock(events, before));
    LiquidationLeavesCash(m, c, traded, Clock(events, before), LastOf(events).time);
    SoundParts(m, traded, "");
    OnePointPerEvent(c, f, limits, start, events);
    RunFinishes(c, f, limits, start, events, traded, AfterFinalSales(c, traded, LastOf(events).time,
        OpenList(traded.ledger)).value);
  }
}
