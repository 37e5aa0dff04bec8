/** What the loop's orders fill at: sales whole, at slipped prices, for the reasons that were scheduled or reached. */
module PortfolioFills {
  import opened Prelude
  import opened OrderedDict
  import opened Models
  import opened Strategies
  import opened Risk
  import opened PaperBroking
  import opened LedgerEffects
  import opened Indicators
  import opened IndicatorLaws
  import opened SettlementLaws
  import opened PortfolioLoop
  import opened PortfolioBooks
  import opened PortfolioSteps
  import opened PortfolioPhases
  import opened PortfolioLaws
  import opened PortfolioRanking
  import opened PortfolioSignals
  import opened PortfolioTrades
  import O = OrderManaging
  import LedgerLaws

  // ----- One whole position sold

  /** The order was filled in one go, a slippage below the quoted price. */
  ghost predicate FilledBelow(l: Ledger, id: OrderId, quantity: int, quote: real, slippage: real) {
    && id in l.orders.data && l.orders.data[id].status == FILLED && |l.orders.data[id].fills| == 1
    && l.orders.data[id].fills[0].quantity == quantity
    && l.orders.data[id].fills[0].price == quote * (1.0 - slippage)
  }

  /** What the sale of a whole position leaves: proceeds less commission, and a record of its lot. */
  ghost predicate SoldAll(m: Market, c: Config, s: Portfolio, after: Portfolio, b: Bar, id: OrderId, quote: real)
    requires b.instrument in m
  {
    var i, held := b.instrument, s.ledger.Held(KeyOf(m, b.instrument));
    && i !in Holding(m, after.ledger)
    && FilledBelow(after.ledger, id, held, quote, c.slippageRate)
    && var price := after.ledger.orders.data[id].fills[0].price;
       && after.ledger.cash == s.ledger.cash + (price * held as real - price * held as real * c.commissionRate)
       && |after.pnls| == |s.pnls| + 1 && after.pnls[..|s.pnls|] == s.pnls
       && after.pnls[|s.pnls|] == (price - s.ledger.AveragePrice(KeyOf(m, i))) * held as real
       && |after.records| == |s.records| + 1 && after.records[..|s.records|] == s.records
       && i in s.active && |s.active[i]| == 1
       && Recounts(after.records[|s.records|], s.active[i][0], b, price, held, id.kind)
  }

  /** ... and no plan. */
  ghost predicate SoldWhole(m: Market, c: Config, s: Portfolio, after: Portfolio, b: Bar, id: OrderId, quote: real)
    requires b.instrument in m
  {
    SoldAll(m, c, s, after, b, id, quote) && after.plans == s.plans - {b.instrument}
  }

  /** A trade record tells a lot's sale. */
  predicate Recounts(r: TradeRecord, lot: Lot, b: Bar, price: real, held: int, reason: OrderKind) {
    && r.instrument == b.instrument && r.exchange == b.exchange && r.reason == reason
    && r.entryTime == lot.time && r.entryPrice == lot.price && r.exitTime == b.time && r.exitPrice == price
    && r.quantity == (if held <= lot.quantity then held else lot.quantity)
    && r.pnl == (price - lot.price) * lot.quantity as real
  }

  lemma SlippedDown(c: Config, price: real)
    ensures c.SellPrice(price) == price * (1.0 - c.slippageRate)
  {}

  lemma ClosedInPrices(m: Market, c: Config, l: Ledger, after: Ledger, a: O.SellArgs)
    requires a.instrument in m && l.Valid() && Closed(m, l, after, a)
    ensures a.instrument !in Holding(m, after)
    ensures a.id in after.orders.data && after.orders.data[a.id].status == FILLED
    ensures |after.orders.data[a.id].fills| == 1 && after.orders.data[a.id].fills[0].quantity == a.quantity
    ensures after.orders.data[a.id].fills[0].price == a.fillPrice
    ensures after.cash == l.cash + (a.fillPrice * a.quantity as real - a.fillPrice * a.quantity as real * l.rate)
  {
    hide LedgerLaws.Worth, Coherent, PositionKey;
  }

  lemma BookedRate(m: Market, c: Config, s: Portfolio)
    requires Booked(m, c, s)
    ensures s.ledger.rate == c.commissionRate
  {
    hide LedgerLaws.Worth, Holding, Entries, Coherent;
  }

  lemma SoldPlanGoes(s: Portfolio, b: Bar, quantity: int, price: real, id: OrderId)
    requires s.ledger.Valid() && SoldOut(s, b, quantity, price, id).Ok?
    ensures Sold(s, b, quantity, price, id).Ok?
    ensures var sold := Sold(s, b, quantity, price, id).value;
            SoldOut(s, b, quantity, price, id).value == sold.(plans := sold.plans - {b.instrument})
  {
    hide Sold;
  }

  lemma WholePosition(m: Market, c: Config, s: Portfolio, b: Bar, quantity: int, quote: real, id: OrderId)
    requires Booked(m, c, s) && s.ledger.Valid() && Listed(m, b) && b.instrument in Holding(m, s.ledger)
    requires quantity == s.ledger.Held(KeyOf(m, b.instrument)) && id !in s.ledger.orders.data
    requires Sold(s, b, quantity, c.SellPrice(quote), id).Ok?
    ensures SoldAll(m, c, s, Sold(s, b, quantity, c.SellPrice(quote), id).value, b, id, quote)
    ensures Sold(s, b, quantity, c.SellPrice(quote), id).value.plans == s.plans
  {
    hide PositionKey, Holding, Sold, Closed, Coherent, ValidMarket, Booked, Config.SellPrice, Ledger.Valid,
         Ledger.Held, Ledger.AveragePrice;
    var price := c.SellPrice(quote);
    BookedIsValid(m, c, s);
    BookedRate(m, c, s);
    HeldHasOneLot(m, c, s, b.instrument);
    SoldContents(m, s, b, quantity, price, id);
    var sold := Sold(s, b, quantity, price, id).value;
    ClosedInPrices(m, c, s.ledger, sold.ledger, O.SellArgs(id, b.instrument, b.exchange, quantity, price, b.time));
    SlippedDown(c, quote);
  }

  lemma SoldAllIgnoresPlans(m: Market, c: Config, s: Portfolio, sold: Portfolio, after: Portfolio, b: Bar, id: OrderId,
                            quote: real)
    requires b.instrument in m && SoldAll(m, c, s, sold, b, id, quote) && after == sold.(plans := after.plans)
    ensures SoldAll(m, c, s, after, b, id, quote)
  {
    hide Holding, PositionKey;
  }

  lemma WholeSale(m: Market, c: Config, s: Portfolio, b: Bar, quantity: int, quote: real, id: OrderId)
    requires Booked(m, c, s) && s.ledger.Valid() && Listed(m, b) && b.instrument in Holding(m, s.ledger)
    requires quantity == s.ledger.Held(KeyOf(m, b.instrument)) && id !in s.ledger.orders.data
    requires SoldOut(s, b, quantity, c.SellPrice(quote), id).Ok?
    ensures SoldWhole(m, c, s, SoldOut(s, b, quantity, c.SellPrice(quote), id).value, b, id, quote)
  {
    hide PositionKey, Holding, Sold, SoldOut, Booked, Config.SellPrice, Ledger.Valid, SoldAll;
    SoldPlanGoes(s, b, quantity, c.SellPrice(quote), id);
    WholePosition(m, c, s, b, quantity, quote, id);
    SoldAllIgnoresPlans(m, c, s, Sold(s, b, quantity, c.SellPrice(quote), id).value,
                        SoldOut(s, b, quantity, c.SellPrice(quote), id).value, b, id, quote);
  }

  // ----- Sales out of trend

  /** Only an instrument's own orders may be new, and the other positions are as they were. */
  ghost predicate TouchesOnly(m: Market, l: Ledger, after: Ledger, id: OrderId, instrument: string) {
    && after.orders.data.Keys <= l.orders.data.Keys + {id}
    && (forall x | x in l.orders.data :: x in after.orders.data && after.orders.data[x] == l.orders.data[x])
    && (forall j | j != instrument :: j in Holding(m, after) <==> j in Holding(m, l))
    && forall p: Position :: StillOpen(m, l, p) && p.instrument != instrument ==> StillOpen(m, after, p)
  }

  lemma OneOrderTouches(m: Market, l: Ledger, after: Ledger, id: OrderId, instrument: string, delta: int)
    requires ValidMarket(m) && instrument in m && OneOrder(l, after, id, KeyOf(m, instrument), delta)
    requires Holding(m, after) == Holding(m, l) - {instrument} || Holding(m, after) == Holding(m, l) + {instrument} ||
             Holding(m, after) == Holding(m, l)
    ensures TouchesOnly(m, l, after, id, instrument)
  {
    hide Holding, PositionKey, StillOpen;
    OneOrderIds(m, l, after, id, instrument, delta);
  }

  lemma NothingTouched(m: Market, l: Ledger, id: OrderId, instrument: string)
    ensures TouchesOnly(m, l, l, id, instrument)
  {
    hide Holding;
  }

  lemma PurchaseTouches(m: Market, limits: RiskLimits, l: Ledger, r: RiskState, a: O.BuyArgs)
    requires ValidMarket(m) && Coherent(m, l) && a.instrument in m && a.exchange == m[a.instrument]
    requires a.id !in l.orders.data && l.Valid() && O.AfterBuySubmission(limits, l, r, a).Ok?
    ensures TouchesOnly(m, l, O.AfterBuySubmission(limits, l, r, a).value.0, a.id, a.instrument)
  {
    hide Holding, PositionKey, OneOrder, O.AfterBuySubmission, Coherent, TouchesOnly, LedgerLaws.Worth;
    GatedPurchase(m, limits, l, r, a);
    var (after, outcome) := O.AfterBuySubmission(limits, l, r, a).value;
    if after == l {
      NothingTouched(m, l, a.id, a.instrument);
    } else {
      OneOrderTouches(m, l, after, a.id, a.instrument,
                      if outcome.submitted then outcome.order.value.fills[0].quantity else 0);
    }
  }

  /** The kind of order a pending action places. */
  function KindOf(action: Pending): OrderKind {
    match action
    case PendingSell => KTrend
    case PendingPyramid => KPyramid
    case PendingBuy(_) => KBuy
  }

  /** A pending sale of a held instrument that has a bar. */
  ghost predicate SellsOut(m: Market, s: Portfolio, e: MarketEvent, i: string) {
    IsPending(s.pending.data, i, PendingSell) && i in Holding(m, s.ledger) && BarOf(e.bars, i).Some?
  }

  lemma PoppedSale(m: Market, c: Config, s: Portfolio, e: MarketEvent, b: Bar, quantity: int)
    requires Steady(m, c, s, e.time.instant) && s.ledger.Valid() && Listed(m, b)
    requires b.instrument in Holding(m, s.ledger) && quantity == s.ledger.Held(KeyOf(m, b.instrument))
    requires OrderIdAt(b.instrument, e.time, KTrend) !in Ids(s)
    requires SoldOut(s, b, quantity, c.SellPrice(b.open), OrderIdAt(b.instrument, e.time, KTrend)).Ok?
    ensures var id := OrderIdAt(b.instrument, e.time, KTrend);
            var after := SoldOut(s, b, quantity, c.SellPrice(b.open), id).value;
            TouchesOnly(m, s.ledger, after.ledger, id, b.instrument) && SoldWhole(m, c, s, after, b, id, b.open)
  {
    hide Holding, PositionKey, Steady, SoldOut, Sold, Booked, SoldWhole, Config.SellPrice, TouchesOnly, SaleMade;
    var id := OrderIdAt(b.instrument, e.time, KTrend);
    SteadyIsBooked(m, c, s, e.time.instant);
    WholeSale(m, c, s, b, quantity, b.open, id);
    SoldPlanGoes(s, b, quantity, c.SellPrice(b.open), id);
    SaleKeepsBooks(m, c, s, b, quantity, c.SellPrice(b.open), id);
    var sold := Sold(s, b, quantity, c.SellPrice(b.open), id).value;
    SaleShape(m, c, s, sold, id, b.instrument);
    OneOrderTouches(m, s.ledger, sold.ledger, id, b.instrument, 0 - quantity);
  }

  lemma EntryTouches(m: Market, c: Config, limits: RiskLimits, s: Portfolio, b: Bar, candidate: Candidate,
                     e: MarketEvent)
    requires ValidMarket(m) && Coherent(m, s.ledger) && s.ledger.Valid() && Listed(m, b)
    requires OrderIdAt(b.instrument, e.time, KBuy) !in Ids(s) && Entered(c, limits, s, b, candidate, e).Ok?
    ensures TouchesOnly(m, s.ledger, Entered(c, limits, s, b, candidate, e).value.ledger,
                        OrderIdAt(b.instrument, e.time, KBuy), b.instrument)
  {
    hide Holding, PositionKey, TouchesOnly, O.AfterBuySubmission, AverageFillPrice, Coherent, ValidMarket, Ledger.Valid,
         EquityAtPrices;
    PurchaseTouches(m, limits, s.ledger, s.risk, EntryArgs(c, s, b, candidate, e));
  }

  lemma PyramidTouches(m: Market, c: Config, limits: RiskLimits, s: Portfolio, b: Bar, position: Position,
                       e: MarketEvent)
    requires ValidMarket(m) && Coherent(m, s.ledger) && s.ledger.Valid() && Listed(m, b)
    requires OrderIdAt(b.instrument, e.time, KPyramid) !in Ids(s) && Pyramided(c, limits, s, b, position, e).Ok?
    ensures TouchesOnly(m, s.ledger, Pyramided(c, limits, s, b, position, e).value.ledger,
                        OrderIdAt(b.instrument, e.time, KPyramid), b.instrument)
  {
    hide Holding, PositionKey, TouchesOnly, O.AfterBuySubmission, Coherent, ValidMarket, Ledger.Valid, EquityAtPrices;
    if b.instrument in s.plans {
      PurchaseTouches(m, limits, s.ledger, s.risk, PyramidArgs(c, s, b, position, s.plans[b.instrument], e));
    } else {
      NothingTouched(m, s.ledger, OrderIdAt(b.instrument, e.time, KPyramid), b.instrument);
    }
  }

  /** The order a step may place: none of its instrument's other kinds. */
  function StepId(s: Portfolio, e: MarketEvent, k: string): OrderId {
    OrderIdAt(k, e.time, if k in s.pending.data then KindOf(s.pending.data[k]) else KBuy)
  }

  /** One step of the pending phase: only its own instrument moves, and it sells exactly when a sale is due. */
  lemma PendingStepFills(m: Market, c: Config, limits: RiskLimits, s: Portfolio, e: MarketEvent, k: string,
                         acted: set<string>)
    requires Steady(m, c, s, e.time.instant) && ProperEvent(m, e)
    requires Spent(Ids(s), e.time.instant, acted, {}) && k !in acted
    requires s.ledger.Valid() && PendingStep(c, limits, s, e, k).Ok?
    ensures var after, id := PendingStep(c, limits, s, e, k).value, OrderIdAt(k, e.time, KTrend);
            && TouchesOnly(m, s.ledger, after.ledger, StepId(s, e, k), k)
            && id !in Ids(s) && (id in Ids(after) <==> SellsOut(m, s, e, k))
            && (SellsOut(m, s, e, k) ==>
                  && k in m && BarOf(e.bars, k).value.instrument == k
                  && SoldWhole(m, c, s, after, BarOf(e.bars, k).value, id, BarOf(e.bars, k).value.open))
  {
    hide PositionKey, Holding, Entered, Pyramided, SoldOut, Spent, Steady, OpenList, FindPosition, BarOf, TouchesOnly,
         SoldWhole, Booked, Ledger.Valid, Config.SellPrice, Ledger.Held;
    BarOfFinds(e.bars, k);
    FreshAction(Ids(s), e, acted, k, KTrend);
    FreshAction(Ids(s), e, acted, k, KBuy);
    FreshAction(Ids(s), e, acted, k, KPyramid);
    SteadyIsBooked(m, c, s, e.time.instant);
    NothingTouched(m, s.ledger, StepId(s, e, k), k);
    var bar := BarOf(e.bars, k);
    if bar.Some? && k in s.pending.data {
      var popped := s.(pending := s.pending.Remove(k));
      FoundPosition(m, c, s, e.time.instant, bar.value);
      PopKeepsSteady(m, c, s, e.time.instant, k);
      SteadyIsBooked(m, c, popped, e.time.instant);
      var action, position := s.pending.data[k], FindPosition(OpenList(s.ledger), k, bar.value.exchange);
      if action.PendingSell? && position.Some? {
        PoppedSale(m, c, popped, e, bar.value, position.value.quantity);
        SoldIsOnTheBook(m, c, popped, PendingStep(c, limits, s, e, k).value, bar.value,
                        OrderIdAt(k, e.time, KTrend), bar.value.open);
        SoldWholeIgnoresPending(m, c, s, popped, PendingStep(c, limits, s, e, k).value, bar.value,
                                OrderIdAt(k, e.time, KTrend), bar.value.open);
      } else if action.PendingPyramid? && position.Some? {
        PyramidTouches(m, c, limits, popped, bar.value, position.value, e);
        OnlyItsOwnId(m, s.ledger, PendingStep(c, limits, s, e, k).value.ledger, StepId(s, e, k), k);
      } else if action.PendingBuy? && position.None? {
        EntryTouches(m, c, limits, popped, bar.value, action.candidate, e);
        OnlyItsOwnId(m, s.ledger, PendingStep(c, limits, s, e, k).value.ledger, StepId(s, e, k), k);
      }
    }
  }

  lemma OnlyItsOwnId(m: Market, l: Ledger, after: Ledger, id: OrderId, instrument: string)
    requires TouchesOnly(m, l, after, id, instrument)
    ensures after.orders.data.Keys <= l.orders.data.Keys + {id}
  {}

  lemma SoldIsOnTheBook(m: Market, c: Config, s: Portfolio, after: Portfolio, b: Bar, id: OrderId, quote: real)
    requires b.instrument in m && SoldWhole(m, c, s, after, b, id, quote)
    ensures id in Ids(after)
  {
    hide Holding;
  }

  lemma SoldWholeIgnoresPending(m: Market, c: Config, s: Portfolio, popped: Portfolio, after: Portfolio, b: Bar,
                                id: OrderId, quote: real)
    requires popped == s.(pending := popped.pending) && b.instrument in m
    requires SoldWhole(m, c, popped, after, b, id, quote)
    ensures SoldWhole(m, c, s, after, b, id, quote)
  {
    hide Holding, PositionKey;
  }

  /** An instrument as the steps of the others leave it. */
  ghost predicate Unmoved(m: Market, s: Portfolio, after: Portfolio, i: string) {
    && (i in Holding(m, after.ledger) <==> i in Holding(m, s.ledger))
    && (i in Holding(m, s.ledger) && i in m ==> after.ledger.Held(KeyOf(m, i)) == s.ledger.Held(KeyOf(m, i)))
    && Same(after.pending.data, s.pending.data, i)
  }

  lemma OthersUnmoved(m: Market, s: Portfolio, after: Portfolio, id: OrderId, k: string, i: string)
    requires TouchesOnly(m, s.ledger, after.ledger, id, k) && i != k
    requires Same(after.pending.data, s.pending.data, i)
    ensures Unmoved(m, s, after, i)
  {
    hide Holding, PositionKey;
    if i in Holding(m, s.ledger) && i in m {
      var p := Position(i, "", s.ledger.Held(KeyOf(m, i)), 0.0);
      assert StillOpen(m, s.ledger, p);
      assert StillOpen(m, after.ledger, p);
    }
  }

  lemma UnmovedTwice(m: Market, s: Portfolio, t: Portfolio, u: Portfolio, i: string)
    requires Unmoved(m, s, t, i) && Unmoved(m, t, u, i)
    ensures Unmoved(m, s, u, i)
  {
    hide Holding, PositionKey;
  }

  /** The trend sale of an instrument on an event: placed exactly when due, and filled whole below the open. */
  ghost predicate TrendSaleTold(m: Market, c: Config, s: Portfolio, after: Portfolio, e: MarketEvent, i: string,
                                due: bool) {
    var id := OrderIdAt(i, e.time, KTrend);
    && (id in Ids(after) <==> due)
    && (due ==>
          && i in m && i !in Holding(m, after.ledger) && BarOf(e.bars, i).Some?
          && FilledBelow(after.ledger, id, s.ledger.Held(KeyOf(m, i)), BarOf(e.bars, i).value.open, c.slippageRate))
  }

  lemma TrendSaleIsMade(m: Market, c: Config, s: Portfolio, before: Portfolio, after: Portfolio, e: MarketEvent,
                        k: string)
    requires Unmoved(m, s, before, k) && k in m && SellsOut(m, s, e, k) && BarOf(e.bars, k).value.instrument == k
    requires SoldWhole(m, c, before, after, BarOf(e.bars, k).value, OrderIdAt(k, e.time, KTrend),
                       BarOf(e.bars, k).value.open)
    ensures TrendSaleTold(m, c, s, after, e, k, true)
  {
    hide Holding, PositionKey;
  }

  lemma TrendSaleStays(m: Market, c: Config, s: Portfolio, before: Portfolio, after: Portfolio, e: MarketEvent,
                       i: string, due: bool, id: OrderId, k: string)
    requires TrendSaleTold(m, c, s, before, e, i, due) && i != k
    requires TouchesOnly(m, before.ledger, after.ledger, id, k) && id.instrument == k
    ensures TrendSaleTold(m, c, s, after, e, i, due)
  {
    hide Holding, PositionKey;
  }

  lemma {:induction false} PendingFills(m: Market, c: Config, limits: RiskLimits, s: Portfolio, e: MarketEvent,
                                        keys: seq<string>, i: string)
    requires Steady(m, c, s, e.time.instant) && ProperEvent(m, e) && Visible(s, e)
    requires Spent(Ids(s), e.time.instant, {}, {}) && Distinct(keys)
    requires s.ledger.Valid() && AfterPending(c, limits, s, e, keys).Ok?
    ensures var after := AfterPending(c, limits, s, e, keys).value;
            && (i !in keys ==> Unmoved(m, s, after, i))
            && TrendSaleTold(m, c, s, after, e, i, i in keys && SellsOut(m, s, e, i))
  {
    hide Spent, Steady, PendingStep, Holding, PositionKey, ProperEvent, Visible, TouchesOnly, SoldWhole, FilledBelow,
         TrendSaleTold, SellsOut, Unmoved;
    if |keys| == 0 {
      NoTrendSaleYet(m, c, s, e, i);
    } else {
      var init, last := keys[..|keys| - 1], keys[|keys| - 1];
      assert keys == init + [last];
      PendingFills(m, c, limits, s, e, init, i);
      PendingActsWell(m, c, limits, s, e, init);
      var before := AfterPending(c, limits, s, e, init).value;
      var acted := set k | k in init;
      PendingStepFills(m, c, limits, before, e, last, acted);
      PopsOne(c, limits, before, e, last);
      var after := PendingStep(c, limits, before, e, last).value;
      if i == last {
        SameSale(m, s, before, e, last);
        if SellsOut(m, s, e, last) {
          TrendSaleIsMade(m, c, s, before, after, e, last);
        } else {
          NoTrendSale(m, c, s, after, e, last);
        }
      } else {
        TrendSaleStays(m, c, s, before, after, e, i, i in init && SellsOut(m, s, e, i), StepId(before, e, last), last);
        OthersUnmoved(m, before, after, StepId(before, e, last), last, i);
        if i !in keys {
          UnmovedTwice(m, s, before, after, i);
        }
      }
    }
  }

  lemma NoTrendSaleYet(m: Market, c: Config, s: Portfolio, e: MarketEvent, i: string)
    requires Spent(Ids(s), e.time.instant, {}, {})
    ensures TrendSaleTold(m, c, s, s, e, i, false) && Unmoved(m, s, s, i)
  {
    hide Holding, PositionKey;
  }

  lemma NoTrendSale(m: Market, c: Config, s: Portfolio, after: Portfolio, e: MarketEvent, i: string)
    requires OrderIdAt(i, e.time, KTrend) !in Ids(after)
    ensures TrendSaleTold(m, c, s, after, e, i, false)
  {}

  lemma SameSale(m: Market, s: Portfolio, before: Portfolio, e: MarketEvent, i: string)
    requires Unmoved(m, s, before, i)
    ensures SellsOut(m, before, e, i) == SellsOut(m, s, e, i)
  {
    hide Holding, PositionKey;
  }

  // ----- ... over a whole event

  lemma SaleOrders(l: Ledger, a: O.SellArgs)
    requires O.AfterSellSubmission(l, a).Ok?
    ensures var after := O.AfterSellSubmission(l, a).value.0;
            && after.orders.data.Keys <= l.orders.data.Keys + {a.id}
            && forall x | x in l.orders.data :: x in after.orders.data && after.orders.data[x] == l.orders.data[x]
  {
    hide AfterOrder, Blank;
    var made := MakeRequest(a.id, a.instrument, a.exchange, SELL, a.quantity);
    if made.Ok? && AfterOrder(l, made.value, a.fillPrice, a.time).Ok? {
      var after := AfterOrder(l, made.value, a.fillPrice, a.time).value;
      forall x: OrderId ensures x != a.id ==> (x in after.orders.data <==> x in l.orders.data)
      {
        O.OrderTouchesOneId(l, made.value, a.fillPrice, a.time, x);
      }
      forall x | x in l.orders.data ensures x in after.orders.data && after.orders.data[x] == l.orders.data[x] {
        O.OrderTouchesOneId(l, made.value, a.fillPrice, a.time, x);
      }
    }
  }

  /** The orders of one kind of sale are all that is new. */
  ghost predicate OnlyExits(l: Ledger, after: Ledger) {
    && (forall x | x in after.orders.data :: x in l.orders.data || x.kind.KStop? || x.kind.KTarget?)
    && (forall x | x in l.orders.data :: x in after.orders.data && after.orders.data[x] == l.orders.data[x])
  }

  lemma ExitStepOrders(c: Config, s: Portfolio, e: MarketEvent, p: Position)
    requires s.ledger.Valid() && ExitStep(c, s, e, p).Ok?
    ensures OnlyExits(s.ledger, ExitStep(c, s, e, p).value.ledger)
  {
    hide Ledger.Valid, O.AfterSellSubmission, FindInstrument, OpenList, RecordsFor, BarOf, StopLevel, Notional,
         Config.SellPrice, Min, Max;
    var bar := BarOf(e.bars, p.instrument);
    if bar.Some? && p.instrument in s.plans {
      var plan := s.plans[p.instrument];
      var stop := StopLevel(c, s, plan, p.instrument);
      var kind, price :=
        if bar.value.low <= stop then KStop else KTarget,
        if bar.value.low <= stop then c.SellPrice(Min(bar.value.open, stop))
        else if plan.targetPrice.Some? then c.SellPrice(Max(bar.value.open, plan.targetPrice.value)) else 0.0;
      var a := O.SellArgs(OrderIdAt(p.instrument, e.time, kind), bar.value.instrument, bar.value.exchange, p.quantity,
                          price, bar.value.time);
      if O.AfterSellSubmission(s.ledger, a).Ok? {
        SaleOrders(s.ledger, a);
      }
    }
  }

  lemma {:induction false} ExitsOrders(c: Config, s: Portfolio, e: MarketEvent, positions: seq<Position>)
    requires s.ledger.Valid() && AfterExits(c, s, e, positions).Ok?
    ensures OnlyExits(s.ledger, AfterExits(c, s, e, positions).value.ledger)
  {
    hide Ledger.Valid, ExitStep;
    if |positions| > 0 {
      var init := positions[..|positions| - 1];
      ExitsOrders(c, s, e, init);
      ExitStepOrders(c, AfterExits(c, s, e, init).value, e, positions[|positions| - 1]);
    }
  }

  lemma NothingSpentYet(ids: set<OrderId>, last: int, now: int)
    requires SpentBy(ids, last) && last < now
    ensures Spent(ids, now, {}, {})
  {}

  /** What the pending phase of an event starts from. */
  function BeforePending(c: Config, limits: RiskLimits, s: Portfolio, e: MarketEvent): (r: Portfolio)
    requires s.ledger.Valid() && Marked(limits, WithBars(s, e), e).Ok?
    ensures r.ledger == s.ledger && r.pending == s.pending
  {
    CooledDown(c, Marked(limits, WithBars(s, e), e).value, e)
  }

  lemma BeforePendingIsSteady(m: Market, c: Config, limits: RiskLimits, s: Portfolio, e: MarketEvent, last: int)
    requires Steady(m, c, s, last) && ProperEvent(m, e) && last < e.time.instant && SpentBy(Ids(s), last)
    requires s.ledger.Valid() && Marked(limits, WithBars(s, e), e).Ok?
    ensures var u := BeforePending(c, limits, s, e);
            && Steady(m, c, u, e.time.instant) && Visible(u, e) && Spent(Ids(u), e.time.instant, {}, {})
            && Distinct(u.pending.keys) && u.pending.Valid()
  {
    hide Steady, ProperEvent, Visible, OpenList, AfterMark, EquityAtPrices, AfterReset, Spent, SpentBy;
    BarsKeepSteady(m, c, s, e, last);
    var u := BeforePending(c, limits, s, e);
    SteadyIgnores(m, c, WithBars(s, e), u, e.time.instant);
    VisibleIsHistories(WithBars(s, e), u, e);
    SteadyPends(m, c, u, e.time.instant);
    PendingIsValid(m, c, u, e.time.instant);
    NothingSpentYet(Ids(s), last, e.time.instant);
  }

  lemma TrendSaleSurvivesExits(m: Market, c: Config, s: Portfolio, acted: Portfolio, after: Portfolio, e: MarketEvent,
                               i: string, due: bool)
    requires TrendSaleTold(m, c, s, acted, e, i, due) && OnlyExits(acted.ledger, after.ledger)
    requires i in Holding(m, after.ledger) ==> i in Holding(m, acted.ledger)
    ensures TrendSaleTold(m, c, s, after, e, i, due)
  {
    hide Holding, PositionKey;
  }

  lemma SameDue(m: Market, s: Portfolio, u: Portfolio, e: MarketEvent, i: string)
    requires u.ledger == s.ledger && u.pending == s.pending && u.pending.Valid()
    ensures SellsOut(m, u, e, i) == SellsOut(m, s, e, i)
    ensures SellsOut(m, u, e, i) ==> i in u.pending.keys
  {
    hide Holding, BarOf;
  }

  lemma SameTold(m: Market, c: Config, s: Portfolio, u: Portfolio, after: Portfolio, e: MarketEvent, i: string,
                 due: bool)
    requires TrendSaleTold(m, c, u, after, e, i, due) && u.ledger == s.ledger
    ensures TrendSaleTold(m, c, s, after, e, i, due)
  {
    hide Holding, BarOf;
  }

  /**
   * In every event of a run an instrument is sold out of trend exactly when that was pending for it, it is held and it
   * has a bar; the whole position then leaves, a slippage below the open.
   */
  lemma TrendSalesHappenExactly(m: Market, c: Config, limits: RiskLimits, s: Portfolio, e: MarketEvent, last: int,
                                i: string)
    requires Steady(m, c, s, last) && ProperEvent(m, e) && last < e.time.instant && SpentBy(Ids(s), last)
    requires s.ledger.Valid() && Traded(c, limits, s, e).Ok?
    ensures TrendSaleTold(m, c, s, Traded(c, limits, s, e).value, e, i, SellsOut(m, s, e, i))
  {
    hide Steady, ProperEvent, Visible, OpenList, AfterPending, AfterExits, Spent, SpentBy, TrendSaleTold, SellsOut,
         Holding, OnlyExits, Exits, Marked, CooledDown, Ledger.Valid, OnePerInstrument, StillOpen, Names, Unmoved;
    var u := BeforePending(c, limits, s, e);
    BeforePendingIsSteady(m, c, limits, s, e, last);
    SameDue(m, s, u, e, i);
    PendingFills(m, c, limits, u, e, u.pending.keys, i);
    PendingActsWell(m, c, limits, u, e, u.pending.keys);
    var acted := AfterPending(c, limits, u, e, u.pending.keys).value;
    SteadyIsBooked(m, c, acted, e.time.instant);
    ListedPositionsAreOpen(m, acted.ledger);
    ExitsAreExact(m, c, acted, e, OpenList(acted.ledger), set k | k in u.pending.keys);
    ExitsOrders(c, acted, e, OpenList(acted.ledger));
    var after := AfterExits(c, acted, e, OpenList(acted.ledger)).value;
    NamedAreHeld(m, acted);
    SameTold(m, c, s, u, acted, e, i, SellsOut(m, s, e, i));
    TrendSaleSurvivesExits(m, c, s, acted, after, e, i, SellsOut(m, s, e, i));
  }

  lemma NamedAreHeld(m: Market, s: Portfolio)
    requires s.ledger.Valid() && forall p | p in OpenList(s.ledger) :: StillOpen(m, s.ledger, p)
    ensures forall i | i in Names(OpenList(s.ledger)) :: i in Holding(m, s.ledger)
  {
    hide Holding, OpenList, PositionKey;
  }

  /**
   * Over two events of a run: a position with a bar in both is sold out of trend on the second exactly when its closes
   * up to the first were falling, at the second bar's open less slippage; it is kept by the trend rule otherwise.
   */
  lemma FallingPositionsAreSoldNext(m: Market, c: Config, f: Filters, limits: RiskLimits, s: Portfolio,
                                    e: MarketEvent, next: MarketEvent, last: int, b: Bar, after: Bar)
    requires Steady(m, c, s, last) && ProperEvent(m, e) && last < e.time.instant && SpentBy(Ids(s), last)
    requires s.ledger.Valid() && AfterEvent(c, f, limits, s, e).Ok? && b in e.bars
    requires HighAboveLow(HistoryOf(s.histories, b.instrument) + [b])
    requires ProperEvent(m, next) && e.time.instant < next.time.instant && after in next.bars
    requires after.instrument == b.instrument && b.instrument in Holding(m, AfterEvent(c, f, limits, s, e).value.ledger)
    requires Traded(c, limits, AfterEvent(c, f, limits, s, e).value, next).Ok?
    ensures var a, i := AfterEvent(c, f, limits, s, e).value, b.instrument;
            var t, id := Traded(c, limits, a, next).value, OrderId(i, next.time.instant, KTrend);
            && i in m
            && (id in t.ledger.orders.data <==> Falling(c, HistoryOf(s.histories, i) + [b]))
            && (id in t.ledger.orders.data ==>
                  && i !in Holding(m, t.ledger)
                  && FilledBelow(t.ledger, id, a.ledger.Held(KeyOf(m, i)), after.open, c.slippageRate))
  {
    hide Steady, Traded, Holding, Ledger.Valid, HighAboveLow, Falling, WantsAddition, BarOf, SpentBy, FilledBelow,
         Scheduled;
    HeldPositionsPend(m, c, f, limits, s, e, last, b);
    EventKeepsSteady(m, c, f, limits, s, e, last);
    var a := AfterEvent(c, f, limits, s, e).value;
    BarOfIsTheBar(next.bars, after);
    TrendSalesHappenExactly(m, c, limits, a, next, e.time.instant, b.instrument);
  }
}
