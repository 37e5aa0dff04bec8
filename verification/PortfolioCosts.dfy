/** The exact cost rates under which every run of the portfolio loop completes. */
module PortfolioCostBound {
  import opened Prelude
  import opened OrderedDict
  import opened Models
  import opened Metrics
  import opened Risk
  import opened PaperBroking
  import opened SingleInstrument
  import opened Strategies
  import opened Indicators
  import opened LedgerLaws
  import opened LedgerEffects
  import opened PortfolioLoop
  import opened PortfolioBooks
  import opened PortfolioSteps
  import opened PortfolioPhases
  import opened PortfolioLaws
  import opened PortfolioProgress
  import C = PortfolioCooldown
  import O = OrderManaging

  // ----- A market of one instrument, calm until it falls

  const NAME: string := "ABC"
  const PLACE: string := "NSE"
  const ONE_MARKET: Market := map["ABC" := "NSE"]

  /** The range that puts the stop at three quarters of a close of one. */
  lemma NarrowRange(c: Config) returns (d: real)
    ensures d > 0.0 && d * c.stopAtrMultiple == 0.25
  {
    d := 0.25 / c.stopAtrMultiple;
    assert d <= 0.0 ==> -d * c.stopAtrMultiple >= 0.0;
  }

  function At(day: int): Timestamp { Timestamp(day * SECONDS_PER_DAY, Date(2024, 1, day)) }

  function CalmBar(d: real, time: Timestamp): Bar {
    Bar(NAME, PLACE, "1d", time, time.instant, 1.0, 1.0 + d, 1.0, 1.0, 100)
  }

  predicate AllCalm(d: real, bars: seq<Bar>) {
    forall i :: 0 <= i < |bars| ==> bars[i] == CalmBar(d, bars[i].time)
  }

  function CalmHistory(c: Config, d: real): (bars: seq<Bar>)
    ensures |bars| == MinimumBars(c.periods)
  {
    seq(MinimumBars(c.periods), i requires 0 <= i < MinimumBars(c.periods) =>
      CalmBar(d, Timestamp(i - MinimumBars(c.periods), Date(2023, 12, 31))))
  }

  lemma CalmHistoryIsCalm(c: Config, d: real)
    ensures AllCalm(d, CalmHistory(c, d))
  {
    var bars, n := CalmHistory(c, d), MinimumBars(c.periods);
    forall i | 0 <= i < |bars| ensures bars[i] == CalmBar(d, bars[i].time) {
      assert bars[i] == CalmBar(d, Timestamp(i - n, Date(2023, 12, 31)));
    }
  }

  lemma {:induction false} SumOfEqual(s: seq<real>, v: real)
    requires forall i :: 0 <= i < |s| ==> s[i] == v
    ensures Sum(s) == |s| as real * v
  {
    if |s| > 0 {
      SumOfEqual(s[..|s| - 1], v);
    }
  }

  lemma CalmRanges(d: real, window: seq<Bar>)
    requires d > 0.0 && AllCalm(d, window)
    ensures forall i :: 0 <= i < |TrueRanges(window)| ==> TrueRanges(window)[i] == d
  {}

  /** Calm bars have the calm range as their average range. */
  lemma CalmAtr(d: real, bars: seq<Bar>, period: int)
    requires period >= 1 && |bars| >= period + 1 && d > 0.0 && AllCalm(d, bars)
    ensures Atr(bars, period) == d
  {
    hide TrueRanges, TrueRange;
    var ranges := TrueRanges(LastN(bars, period + 1));
    CalmRanges(d, LastN(bars, period + 1));
    SumOfEqual(ranges, d);
    Quotient(Sum(ranges), period as real, d);
  }

  lemma CalmSnapshot(c: Config, d: real, bars: seq<Bar>)
    requires |bars| >= MinimumBars(c.periods) && d > 0.0 && AllCalm(d, bars)
    ensures var snapshot := SnapshotFor(c, bars);
            && snapshot.Some? && snapshot.value.instrument == NAME && snapshot.value.exchange == PLACE
            && snapshot.value.close == 1.0 && snapshot.value.atr == d
  {
    hide Sma, Rsi, Atr;
    CalmAtr(d, bars, c.periods.atr);
  }

  /** Filters that let everything pass. */
  const OPEN_FILTERS: Filters := Filters((snapshot, history, regime) => Some(0.0), (histories, time) => {"ABC"},
      regime => true)

  /** Limits that bind nothing but the cash. */
  function WideLimits(capital: real): RiskLimits
    requires capital > 0.0
  {
    Limits(capital, 1.0, 1.0, 1.0, 1.0, 1.0, 1.0, 1.0, 0.5, 1.0, 1.0, 1.0, 1)
  }

  /** No loss so far: every baseline is the initial capital. */
  predicate Unharmed(capital: real, r: RiskState) {
    && !r.tripped
    && (r.peak.Some? ==> r.peak.value == capital)
    && (r.dailyStart.Some? ==> r.dailyStart.value == capital)
    && (r.monthlyStart.Some? ==> r.monthlyStart.value == capital)
  }

  lemma MarkingUnharmed(capital: real, r: RiskState, time: Timestamp)
    requires capital > 0.0 && Unharmed(capital, r)
    ensures var marked := AfterMark(WideLimits(capital), r, capital, time);
            marked.Ok? && Unharmed(capital, marked.value)
    ensures BlockReasons(WideLimits(capital), r, capital, 0) == []
  {}

  // ----- The first event schedules the purchase

  /** A portfolio without positions is worth its cash. */
  lemma FlatEquity(c: Config, s: Portfolio, useOpen: bool)
    requires s.ledger == NewLedger(c.initialCapital, c.commissionRate)
    ensures s.ledger.Valid() && OpenList(s.ledger) == [] && OpenInstruments(s.ledger) == {}
    ensures EquityAtPrices(s.ledger, s.histories, useOpen) == c.initialCapital
  {}

  /** Nothing has happened yet, except that a purchase may be pending. */
  predicate Waiting(c: Config, s: Portfolio) {
    && s.ledger == NewLedger(c.initialCapital, c.commissionRate)
    && Unharmed(c.initialCapital, s.risk)
    && s.plans == map[] && s.active == map[] && s.recentEntries == []
    && s.triggeredAt.None?
  }

  /** Such a portfolio passes the mark and the cooldown of an event unchanged. */
  lemma WaitingMark(c: Config, s: Portfolio, e: MarketEvent)
    requires Waiting(c, s) && s.ledger.Valid()
    ensures var cooled := C.AfterCooldown(c, WideLimits(c.initialCapital), s, e);
            && cooled.Ok? && Waiting(c, cooled.value)
            && cooled.value == WithBars(s, e).(risk := cooled.value.risk)
  {
    hide Ledger.Valid, EquityAtPrices, AppendBars, AfterMark, BlockReasons, Unharmed, OpenList;
    FlatEquity(c, WithBars(s, e), true);
    MarkingUnharmed(c.initialCapital, s.risk, e.time);
    UnharmedIsClear(c.initialCapital, AfterMark(WideLimits(c.initialCapital), s.risk, c.initialCapital, e.time).value);
  }

  lemma UnharmedIsClear(capital: real, r: RiskState)
    requires Unharmed(capital, r)
    ensures !r.tripped
  {}

  /** The bought candidate is the calm one. */
  predicate CalmPurchase(action: Pending) {
    && action.PendingBuy?
    && action.candidate.instrument == NAME
    && action.candidate.technical.close == 1.0 && action.candidate.stopPrice == 0.75
  }

  function EventOf(bar: Bar): MarketEvent { MarketEvent(bar.time, [bar], []) }

  lemma OneBarIsFound(bar: Bar)
    requires bar.instrument == NAME
    ensures BarOf([bar], NAME) == Some(bar)
  {}

  /** The calm bar is scanned into the one candidate. */
  lemma CalmScan(c: Config, d: real, s: Portfolio, bar: Bar)
    requires Waiting(c, s) && s.ledger.Valid() && NAME in s.universe
    requires d > 0.0 && d * c.stopAtrMultiple == 0.25 && bar == CalmBar(d, bar.time)
    requires NAME in s.histories && AllCalm(d, s.histories[NAME]) && |s.histories[NAME]| >= MinimumBars(c.periods)
    ensures var scan := Scanned(c, OPEN_FILTERS, s, [bar], true);
            scan.portfolio == s && |scan.candidates| == 1 && CalmPurchase(PendingBuy(scan.candidates[0]))
  {
    hide Unharmed, SnapshotFor, MinimumBars, AllCalm, Ledger.Valid, OpenList;
    FlatEquity(c, s, true);
    CalmSnapshot(c, d, s.histories[NAME]);
    assert [bar][..0] == [];
  }

  lemma OneCandidateIsSorted(x: Candidate)
    ensures SortCandidates([x]) == [x]
  {
    assert [x][..0] == [];
  }

  lemma OneSlotIsFree(c: Config, s: Portfolio)
    requires Waiting(c, s) && s.ledger.Valid() && s.pending == Empty()
    ensures Slots(c, s) >= 1
  {
    hide Unharmed, Ledger.Valid, OpenList, OpenInstruments;
    FlatEquity(c, s, true);
    assert BuyKeys(s.pending) == {};
  }

  /** ... and takes the free slot. */
  lemma CalmSlot(c: Config, s: Portfolio, e: MarketEvent, x: Candidate)
    requires Waiting(c, s) && s.ledger.Valid() && s.pending == Empty()
    ensures SlotsFilled(c, Scan(s, [x]), e) == s.(pending := Empty().Put(x.instrument, PendingBuy(x)))
  {
    hide Unharmed, Ledger.Valid, Slots;
    OneSlotIsFree(c, s);
    OneCandidateIsSorted(x);
    assert WithPruning(c, s, e) == s;
    var chosen := SortCandidates([x])[..MinInt(Slots(c, s), 1)];
    assert chosen == [x] && [x][..0] == [];
    assert Schedule(s, chosen[..|chosen| - 1]) == s;
  }

  /** The state between the two events: a purchase is pending, and nothing else has happened. */
  predicate Armed(c: Config, s: Portfolio) {
    && Waiting(c, s)
    && s.pending.keys == [NAME] && s.pending.data.Keys == {NAME} && CalmPurchase(s.pending.data[NAME])
    && |s.curve| == 2
  }

  /** Before trading, nothing is pending and nothing is held: the trading half of an event only marks. */
  lemma NothingToTrade(c: Config, s: Portfolio, e: MarketEvent)
    requires Waiting(c, s) && s.ledger.Valid() && s.pending == Empty()
    ensures var traded := Traded(c, WideLimits(c.initialCapital), s, e);
            && traded.Ok? && Waiting(c, traded.value)
            && traded.value == WithBars(s, e).(risk := traded.value.risk)
  {
    hide Unharmed, Ledger.Valid, AfterMark, EquityAtPrices, CooledDown, OpenList, AppendBars;
    WaitingMark(c, s, e);
    var cooled := C.AfterCooldown(c, WideLimits(c.initialCapital), s, e).value;
    FlatEquity(c, cooled, true);
  }

  lemma FirstEvent(c: Config, d: real, histories: map<string, seq<Bar>>, bar: Bar)
    requires d > 0.0 && d * c.stopAtrMultiple == 0.25 && bar == CalmBar(d, bar.time)
    requires NAME in histories && AllCalm(d, histories[NAME]) && |histories[NAME]| >= MinimumBars(c.periods)
    ensures var after := AfterEvent(c, OPEN_FILTERS, WideLimits(c.initialCapital), StartPortfolio(c, histories, []),
            EventOf(bar));
            after.Ok? && Armed(c, after.value)
  {
    hide Unharmed, Ledger.Valid, Traded, EquityAtPrices, OpenList, Scanned, SlotsFilled, MinimumBars, AllCalm;
    var start := StartPortfolio(c, histories, []);
    assert Waiting(c, start) by { StartIsWaiting(c, histories); }
    NothingToTrade(c, start, EventOf(bar));
    var traded := Traded(c, WideLimits(c.initialCapital), start, EventOf(bar)).value;
    FlatEquity(c, traded, true);
    AppendedCalm(d, histories, bar);
    var balanced := Rebalanced(c, OPEN_FILTERS, traded, EventOf(bar));
    CalmScan(c, d, balanced, bar);
    var x := Scanned(c, OPEN_FILTERS, balanced, [bar], true).candidates[0];
    assert Scanned(c, OPEN_FILTERS, balanced, [bar], true) == Scan(balanced, [x]);
    assert OPEN_FILTERS.regime(balanced.regime);
    CalmSlot(c, balanced, EventOf(bar), x);
    assert AfterPyramids(c, traded, EventOf(bar), []) == traded;
    assert Scheduled(c, OPEN_FILTERS, traded, EventOf(bar))
           == balanced.(pending := Empty().Put(x.instrument, PendingBuy(x)));
  }

  lemma StartIsWaiting(c: Config, histories: map<string, seq<Bar>>)
    ensures Waiting(c, StartPortfolio(c, histories, []))
  {}

  lemma AppendedCalm(d: real, histories: map<string, seq<Bar>>, bar: Bar)
    requires NAME in histories && AllCalm(d, histories[NAME]) && bar == CalmBar(d, bar.time)
    ensures var after := AppendBars(histories, [bar]);
            NAME in after && AllCalm(d, after[NAME]) && |after[NAME]| == |histories[NAME]| + 1
  {
    assert [bar][..0] == [];
  }

  // ----- The second event spends everything, and stops out

  const KEY: string := PositionKey("ABC", "NSE")

  /** Bought at this open, one share and its commission cost the whole capital. */
  ghost predicate CostsEverything(c: Config, open: real) {
    open > 0.0 && (c.slippageRate > -1.0 ==>
      c.BuyPrice(open) > 0.0 && c.BuyPrice(open) * (1.0 + c.commissionRate) == c.initialCapital)
  }

  lemma EverythingForOneShare(c: Config) returns (open: real)
    ensures CostsEverything(c, open)
  {
    if c.slippageRate <= -1.0 {
      open := 1.0;
    } else {
      var price := c.initialCapital / (1.0 + c.commissionRate);
      PositiveQuotient(c.initialCapital, 1.0 + c.commissionRate);
      open := price / (1.0 + c.slippageRate);
      PositiveQuotient(price, 1.0 + c.slippageRate);
    }
  }

  lemma PositiveQuotient(a: real, b: real)
    requires a > 0.0 && b > 0.0
    ensures a / b > 0.0 && (a / b) * b == a
  {
    var q := a / b;
    assert q * b == a;
    if q <= 0.0 {
      NonNegativeProduct(-q, b);
    }
  }

  /** Sized against such a price, exactly one share fits. */
  lemma OneShareFits(capital: real, price: real, rate: real)
    requires capital > 0.0 && price > 0.0 && rate >= 0.0 && price * (1.0 + rate) == capital
    ensures SizeNewPosition(WideLimits(capital), capital, price, 0.25, capital, rate) == Ok(1)
    ensures SizeByWeight(WideLimits(capital), capital, price, capital, rate) == Ok(1)
  {
    hide SizeNewPosition, SizeByWeight;
    var limits := WideLimits(capital);
    SizeByWeightIsMaximal(limits, capital, price, capital, rate);
    SizeNewPositionIsMaximal(limits, capital, price, 0.25, capital, rate);
    NonNegativeProduct(price, rate);
    assert price * (1.0 + rate) == price + price * rate;
    assert price <= capital;
    assert FitsCapital(limits, capital, price, capital, rate, 1);
    assert FitsRisk(limits, price, 0.25, 1);
    assert !FitsCapital(limits, capital, price, capital, rate, 2);
  }

  predicate CalmEntry(c: Config, a: O.BuyArgs, price: real) {
    && a.instrument == NAME && a.exchange == PLACE && a.fillPrice == price && a.stopFraction == 0.25
    && a.equity == a.initialCapital == c.initialCapital && a.commissionRate == c.commissionRate && a.maxQuantity == None
  }

  lemma NameIsNotBlank()
    ensures !Blank(NAME)
  {}

  /** The purchase goes through and takes all the cash. */
  lemma OneShareBought(c: Config, r: RiskState, a: O.BuyArgs, price: real)
    requires CalmEntry(c, a, price) && Unharmed(c.initialCapital, r)
    requires price > 0.0 && price * (1.0 + c.commissionRate) == c.initialCapital
    ensures var l := NewLedger(c.initialCapital, c.commissionRate);
            && l.Valid()
            && var bought := O.AfterBuySubmission(WideLimits(c.initialCapital), l, r, a);
               && bought.Ok? && bought.value.1.submitted
               && bought.value.1.order.Some? && |bought.value.1.order.value.fills| == 1
                   && bought.value.1.order.value.fills[0].quantity == 1
               && OneShare(c, bought.value.0, a.id)
  {
    hide Notional, Fee, PositionKey, AfterOrder, SizeNewPosition, SizeByWeight, BlockReasons, Blank, Unharmed;
    var l := NewLedger(c.initialCapital, c.commissionRate);
    assert O.OpenPositions(l) == 0;
    MarkingUnharmed(c.initialCapital, r, a.time);
    OneShareFits(c.initialCapital, price, c.commissionRate);
    NameIsNotBlank();
    var request := OrderRequest(a.id, NAME, PLACE, BUY, 1);
    CostWithFee(price, 1, c.commissionRate);
    PurchaseOpens(l, request, price, a.time, KEY);
    PurchaseIsOneOrder(l, request, price, a.time);
    O.PlacedIsOnTheBook(l, request, price, a.time);
  }

  /** One share held, nothing else, no cash, one order on the book. */
  ghost predicate OneShare(c: Config, l: Ledger, id: OrderId) {
    && OnlyKey(l, KEY) && l.Held(KEY) == 1 && l.cash == 0.0 && l.rate == c.commissionRate
    && l.orders.data.Keys == {id}
    && KEY in l.positions.data && l.positions.data[KEY].instrument == NAME && l.positions.data[KEY].exchange == PLACE
  }

  lemma OneShareIsListed(c: Config, l: Ledger, id: OrderId)
    requires OneShare(c, l, id)
    ensures l.Valid() && OpenList(l) == [l.positions.data[KEY]] && l.positions.data[KEY].quantity == 1
    ensures FindInstrument(OpenList(l), NAME) == Some(l.positions.data[KEY])
  {
    hide PositionKey;
    SoleKey(l.positions.keys, KEY);
    assert KEY in l.positions.keys;
    SelectSole(l.positions.keys, l.positions.data, KEY);
  }

  /** Sold again, it brings nothing in when the commission takes the whole price or more. */
  lemma OneShareSold(c: Config, l: Ledger, id: OrderId, a: O.SellArgs)
    requires OneShare(c, l, id) && a.id != id && a.instrument == NAME && a.exchange == PLACE && a.quantity == 1
             && a.fillPrice > 0.0
    ensures var sold := O.AfterSellSubmission(l, a);
            && sold.Ok? && sold.value.1.submitted && sold.value.0.Valid() && OpenList(sold.value.0) == []
            && sold.value.0.cash == a.fillPrice * (1.0 - c.commissionRate)
  {
    hide Notional, Fee, PositionKey, Blank, O.AfterSellSubmission;
    NameIsNotBlank();
    FullSaleCloses(l, a, KEY);
    var after := O.AfterSellSubmission(l, a).value.0;
    SoleKey(after.positions.keys, KEY);
    if KEY in after.positions.data {
      SelectSole(after.positions.keys, after.positions.data, KEY);
    }
    OneShareProceeds(a.fillPrice, c.commissionRate);
  }

  lemma OneShareProceeds(price: real, rate: real)
    ensures Notional(price, 1) - Fee(Notional(price, 1), rate) == price * (1.0 - rate)
  {}

  /** The falling bar: it opens where one share costs everything, and trades below the stop. */
  function FallingBar(open: real): Bar {
    Bar(NAME, PLACE, "1d", At(2), At(2).instant, open, Max(open, 1.0), Min(open, 0.25), Min(open, 0.25), 100)
  }

  /** After the purchase, before the exits: one share, and a plan with the calm stop. */
  ghost predicate Loaded(c: Config, s: Portfolio, id: OrderId) {
    && OneShare(c, s.ledger, id)
    && NAME in s.plans && s.plans[NAME].stopPrice == 0.75
    && |s.curve| == 2
  }

  lemma EntryLoads(c: Config, s: Portfolio, e: MarketEvent, bar: Bar, x: Candidate)
    requires Waiting(c, s) && s.ledger.Valid() && |s.curve| == 2
    requires CalmPurchase(PendingBuy(x)) && bar.instrument == NAME && bar.exchange == PLACE
    requires CostsEverything(c, bar.open)
    ensures var entered := Entered(c, WideLimits(c.initialCapital), s, bar, x, e);
            if c.slippageRate <= -1.0 then entered.Err?
            else entered.Ok? && Loaded(c, entered.value, OrderIdAt(NAME, e.time, KBuy))
  {
    hide Unharmed, Ledger.Valid, EquityAtPrices, O.AfterBuySubmission, AverageFillPrice, Config.BuyPrice, OneShare;
    FlatEquity(c, s, true);
    var a := EntryArgs(c, s, bar, x, e);
    if c.slippageRate <= -1.0 {
      UnslippableEntry(c, bar.open);
      UnpricedPurchaseRaises(c, s.risk, a);
    } else {
      OneShareBought(c, s.risk, a, c.BuyPrice(bar.open));
    }
  }

  lemma UnslippablePrice(open: real, slippage: real)
    requires open > 0.0 && slippage <= -1.0
    ensures open * (1.0 + slippage) <= 0.0
  {
    NonNegativeProduct(open, -1.0 - slippage);
    assert open * (1.0 + slippage) == -(open * (-1.0 - slippage));
  }

  lemma UnslippableEntry(c: Config, open: real)
    requires open > 0.0 && c.slippageRate <= -1.0
    ensures c.BuyPrice(open) <= 0.0
  {
    UnslippablePrice(open, c.slippageRate);
  }

  lemma UnpricedPurchaseRaises(c: Config, r: RiskState, a: O.BuyArgs)
    requires Unharmed(c.initialCapital, r) && a.equity == c.initialCapital && a.fillPrice <= 0.0
    ensures NewLedger(c.initialCapital, c.commissionRate).Valid()
    ensures O.AfterBuySubmission(WideLimits(c.initialCapital), NewLedger(c.initialCapital, c.commissionRate), r, a).Err?
  {
    hide Unharmed, BlockReasons;
    MarkingUnharmed(c.initialCapital, r, a.time);
    assert O.OpenPositions(NewLedger(c.initialCapital, c.commissionRate)) == 0;
  }

  /** The pending phase of the second event buys the share, or raises on the price. */
  lemma PendingLoads(c: Config, s: Portfolio, bar: Bar)
    requires Armed(c, s) && s.ledger.Valid() && CostsEverything(c, bar.open)
    requires bar.instrument == NAME && bar.exchange == PLACE
    ensures var acted := AfterPending(c, WideLimits(c.initialCapital), s, EventOf(bar), [NAME]);
            if c.slippageRate <= -1.0 then acted.Err?
            else acted.Ok? && Loaded(c, acted.value, OrderIdAt(NAME, bar.time, KBuy))
  {
    hide Unharmed, Ledger.Valid, OpenList, BarOf, Entered, CostsEverything, Loaded;
    FlatEquity(c, s, true);
    OneBarIsFound(bar);
    var x := s.pending.data[NAME].candidate;
    EntryLoads(c, s.(pending := s.pending.Remove(NAME)), EventOf(bar), bar, x);
    assert [NAME][..0] == [];
    assert AfterPending(c, WideLimits(c.initialCapital), s, EventOf(bar), []) == Ok(s);
    assert AfterPending(c, WideLimits(c.initialCapital), s, EventOf(bar), [NAME])
        == PendingStep(c, WideLimits(c.initialCapital), s, EventOf(bar), NAME);
  }

  /** The exit phase sells it below the stop: the price does not survive the slippage, or brings no cash. */
  lemma ExitEmpties(c: Config, s: Portfolio, bar: Bar)
    requires Loaded(c, s, OrderIdAt(NAME, bar.time, KBuy)) && s.ledger.Valid() && c.slippageRate > -1.0
             && !CheapCosts(c)
    requires bar.instrument == NAME && bar.exchange == PLACE && bar.open > 0.0 && bar.low <= 0.25
    ensures var exited := AfterExits(c, s, EventOf(bar), OpenList(s.ledger));
            exited.Ok? ==>
              exited.value.ledger.Valid() && OpenList(exited.value.ledger) == [] && exited.value.ledger.cash <= 0.0
                           && exited.value.curve == s.curve
  {
    hide Ledger.Valid, BarOf, SnapshotFor, OneShare, Sold, OpenList, Config.SellPrice;
    var id := OrderIdAt(NAME, bar.time, KBuy);
    OneShareIsListed(c, s.ledger, id);
    OneBarIsFound(bar);
    ShareFacts(c, s.ledger, id);
    var p := s.ledger.positions.data[KEY];
    assert OpenList(s.ledger)[..0] == [];
    var stop := StopLevel(c, s, s.plans[NAME], NAME);
    assert stop >= 0.75;
    SaleEmpties(c, s, bar, c.SellPrice(Min(bar.open, stop)), OrderIdAt(NAME, bar.time, KStop), id, Min(bar.open, stop));
    assert AfterExits(c, s, EventOf(bar), OpenList(s.ledger)) == ExitStep(c, s, EventOf(bar), p);
  }

  lemma ShareFacts(c: Config, l: Ledger, id: OrderId)
    requires OneShare(c, l, id)
    ensures KEY in l.positions.data && l.positions.data[KEY].instrument == NAME && l.positions.data[KEY].quantity == 1
  {
    hide PositionKey;
  }

  lemma SaleEmpties(c: Config, s: Portfolio, bar: Bar, price: real, id: OrderId, bought: OrderId, raw: real)
    requires OneShare(c, s.ledger, bought) && s.ledger.Valid() && id != bought && c.slippageRate > -1.0
             && !CheapCosts(c)
    requires bar.instrument == NAME && bar.exchange == PLACE && raw > 0.0 && price == c.SellPrice(raw)
    ensures var sold := SoldOut(s, bar, 1, price, id);
            sold.Ok? ==> sold.value.ledger.Valid() && OpenList(sold.value.ledger) == [] && sold.value.ledger.cash <= 0.0
                         && sold.value.curve == s.curve
  {
    hide Ledger.Valid, OneShare, OpenList, O.AfterSellSubmission, RecordsFor, Blank;
    OneShareIsListed(c, s.ledger, bought);
    var a := O.SellArgs(id, bar.instrument, bar.exchange, 1, price, bar.time);
    if price > 0.0 {
      OneShareSold(c, s.ledger, bought, a);
      PositiveSaleMeansFullCommission(c, raw);
      NoProceeds(price, c.commissionRate);
    } else {
      ShareFacts(c, s.ledger, bought);
      UnpricedSaleRaises(c, s.ledger, bought, a);
    }
  }

  lemma PositiveSaleMeansFullCommission(c: Config, raw: real)
    requires raw > 0.0 && c.SellPrice(raw) > 0.0 && c.slippageRate > -1.0 && !CheapCosts(c)
    ensures c.commissionRate >= 1.0
  {
    if c.slippageRate >= 1.0 {
      UnslippablePrice(raw, 0.0 - c.slippageRate);
    }
  }

  lemma NoProceeds(price: real, rate: real)
    requires price > 0.0 && rate >= 1.0
    ensures price * (1.0 - rate) <= 0.0
  {
    UnslippablePrice(price, 0.0 - rate);
  }

  lemma UnpricedSaleRaises(c: Config, l: Ledger, bought: OrderId, a: O.SellArgs)
    requires OneShare(c, l, bought) && a.id != bought && a.fillPrice <= 0.0
    ensures O.AfterSellSubmission(l, a).Err?
  {
    hide PositionKey, Blank;
  }

  /** After the second event, if it does not raise: an equity point that is not positive. */
  lemma SecondEvent(c: Config, s: Portfolio, bar: Bar)
    requires Armed(c, s) && s.ledger.Valid() && !CheapCosts(c)
    requires CostsEverything(c, bar.open) && bar.instrument == NAME && bar.exchange == PLACE && bar.low <= 0.25
    ensures var after := AfterEvent(c, OPEN_FILTERS, WideLimits(c.initialCapital), s, EventOf(bar));
            after.Ok? ==> |after.value.curve| == 3 && after.value.curve[2] <= 0.0
  {
    hide Unharmed, Ledger.Valid, OpenList, CostsEverything, Loaded, AfterPending, AfterExits, EquityAtPrices,
         AppendBars, Scheduled,
         CheapCosts, CalmPurchase;
    var e, limits := EventOf(bar), WideLimits(c.initialCapital);
    WaitingMark(c, s, e);
    var cooled := C.AfterCooldown(c, limits, s, e).value;
    assert Armed(c, cooled);
    PendingLoads(c, cooled, bar);
    var acted := AfterPending(c, limits, cooled, e, [NAME]);
    if acted.Ok? && AfterExits(c, acted.value, e, OpenList(acted.value.ledger)).Ok? {
      CostsArePositive(c, bar.open);
      ExitEmpties(c, acted.value, bar);
      LoadedCurve(c, acted.value, OrderIdAt(NAME, bar.time, KBuy));
      C.EventAddsOnePoint(c, OPEN_FILTERS, limits, s, e);
      var exited := AfterExits(c, acted.value, e, OpenList(acted.value.ledger)).value;
      var after := Scheduled(c, OPEN_FILTERS, exited, e);
      NothingHeldEquity(after.ledger, after.histories);
    }
  }

  lemma CostsArePositive(c: Config, open: real)
    requires CostsEverything(c, open)
    ensures open > 0.0
  {}

  lemma LoadedCurve(c: Config, s: Portfolio, id: OrderId)
    requires Loaded(c, s, id)
    ensures |s.curve| == 2
  {}

  lemma NothingHeldEquity(l: Ledger, histories: map<string, seq<Bar>>)
    requires l.Valid() && OpenList(l) == []
    ensures EquityAtPrices(l, histories, false) == l.cash
  {}

  /** From then on the curve keeps that point before its last one, so the run raises at the metrics if not before. */
  lemma RuinedRunRaises(c: Config, f: Filters, limits: RiskLimits, start: Portfolio, events: seq<MarketEvent>)
    requires start.ledger.Valid() && |events| == 3
    requires var two := AfterEvents(c, f, limits, start, events[..2]);
             two.Ok? ==> |two.value.curve| == 3 && two.value.curve[2] <= 0.0
    ensures AfterRun(c, f, limits, start, events).Err?
  {
    hide AfterEvent, Ledger.Valid, OpenList, AfterFinalSales, EquityAtPrices;
    assert events[..|events| - 1] == events[..2];
    var two := AfterEvents(c, f, limits, start, events[..2]);
    if AfterEvents(c, f, limits, start, events).Ok? {
      C.EventAddsOnePoint(c, f, limits, two.value, events[2]);
      var s := AfterEvents(c, f, limits, start, events).value;
      if AfterFinalSales(c, s, LastOf(events).time, OpenList(s.ledger)).Ok? {
        FinalSalesKeepCurve(c, s, LastOf(events).time, OpenList(s.ledger));
        var sold := AfterFinalSales(c, s, LastOf(events).time, OpenList(s.ledger)).value;
        var curve := sold.curve[..|sold.curve| - 1] + [sold.ledger.cash];
        assert curve[2] == two.value.curve[2] && |curve| == 4;
      }
    }
  }

  lemma {:induction false} FinalSalesKeepCurve(c: Config, s: Portfolio, time: Timestamp, positions: seq<Position>)
    requires s.ledger.Valid() && AfterFinalSales(c, s, time, positions).Ok?
    ensures AfterFinalSales(c, s, time, positions).value.curve == s.curve
  {
    hide Ledger.Valid, O.AfterSellSubmission, FindInstrument, OpenList, RecordsFor;
    if |positions| > 0 {
      FinalSalesKeepCurve(c, s, time, positions[..|positions| - 1]);
    }
  }

  // ----- The bound is exact

  /** Every run over positive prices completes. */
  ghost predicate AlwaysCompletes(c: Config) {
    forall m: Market, f: Filters, limits: RiskLimits, histories: map<string, seq<Bar>>, regime: seq<Bar>,
        events: seq<MarketEvent> ::
      PositiveInput(m, histories, events) && limits.accountCapital == c.initialCapital ==>
        AfterRun(c, f, limits, StartPortfolio(c, histories, regime), events).Ok?
  }

  /** What a run is given: instruments that can be told apart and ordered, and events in order, at positive prices. */
  ghost predicate PositiveInput(m: Market, histories: map<string, seq<Bar>>, events: seq<MarketEvent>) {
    && ValidMarket(m) && (forall i | i in m :: !Blank(i))
    && KnownHistories(m, histories) && PositiveHistories(histories) && PositiveRun(m, events) && |events| > 0
  }

  function RuinousEvents(d: real, open: real): seq<MarketEvent> {
    [EventOf(CalmBar(d, At(1))), EventOf(FallingBar(open)), EventOf(CalmBar(d, At(3)))]
  }

  lemma RuinousInput(c: Config, d: real, open: real)
    requires d > 0.0 && open > 0.0
    ensures PositiveInput(ONE_MARKET, map[NAME := CalmHistory(c, d)], RuinousEvents(d, open))
  {
    CalmHistoryIsCalm(c, d);
    NameIsNotBlank();
    hide PositionKey, Blank, CalmHistory, MinimumBars;
    var events := RuinousEvents(d, open);
    forall k | 0 <= k < |events| ensures ProperEvent(ONE_MARKET, events[k]) && PositiveBars(events[k].bars) {}
  }

  /** With costs that take the whole of some price, one share bought and stopped out ends the run in an exception. */
  lemma RuinousRun(c: Config) returns (histories: map<string, seq<Bar>>, events: seq<MarketEvent>)
    requires !CheapCosts(c)
    ensures PositiveInput(ONE_MARKET, histories, events)
    ensures AfterRun(c, OPEN_FILTERS, WideLimits(c.initialCapital), StartPortfolio(c, histories, []), events).Err?
  {
    hide CheapCosts, CostsEverything, Armed, AfterRun, AfterEvent, PositiveInput, CalmHistory, AllCalm;
    var d := NarrowRange(c);
    var open := EverythingForOneShare(c);
    CostsArePositive(c, open);
    histories, events := map[NAME := CalmHistory(c, d)], RuinousEvents(d, open);
    RuinousInput(c, d, open);
    CalmHistoryIsCalm(c, d);
    var limits, start := WideLimits(c.initialCapital), StartPortfolio(c, histories, []);
    FirstEvent(c, d, histories, CalmBar(d, At(1)));
    var armed := AfterEvent(c, OPEN_FILTERS, limits, start, events[0]).value;
    SecondEvent(c, armed, FallingBar(open));
    assert events[..2][..1] == [events[0]] && [events[0]][..0] == [];
    assert AfterEvents(c, OPEN_FILTERS, limits, start, []) == Ok(start);
    assert AfterEvents(c, OPEN_FILTERS, limits, start, [events[0]]) == Ok(armed);
    assert AfterEvents(c, OPEN_FILTERS, limits, start, events[..2])
           == AfterEvent(c, OPEN_FILTERS, limits, armed, events[1]);
    RuinedRunRaises(c, OPEN_FILTERS, limits, start, events);
  }

  /**
   * Every run over positive prices completes exactly when slipped prices stay positive and the commission is below
   * the whole price.
   */
  lemma CostsBoundExactly(c: Config)
    ensures AlwaysCompletes(c) <==> -1.0 < c.slippageRate < 1.0 && c.commissionRate < 1.0
  {
    hide AfterRun, PositiveInput, ValidMarket, KnownHistories, PositiveHistories, PositiveRun, Blank, OPEN_FILTERS,
         WideLimits;
    if CheapCosts(c) {
      forall m: Market, f: Filters, limits: RiskLimits, histories: map<string, seq<Bar>>, regime: seq<Bar>,
          events: seq<MarketEvent> |
        PositiveInput(m, histories, events)
        ensures AfterRun(c, f, limits, StartPortfolio(c, histories, regime), events).Ok?
      {
        InputParts(m, c, histories, events);
        RunCompletes(m, c, f, limits, histories, regime, events);
      }
    } else {
      var histories, events := RuinousRun(c);
      WideCapital(c);
    }
  }

  lemma WideCapital(c: Config)
    ensures WideLimits(c.initialCapital).accountCapital == c.initialCapital
  {}

  lemma InputParts(m: Market, c: Config, histories: map<string, seq<Bar>>, events: seq<MarketEvent>)
    requires PositiveInput(m, histories, events) && CheapCosts(c)
    ensures ValidMarket(m) && Tradable(m, c) && KnownHistories(m, histories) && PositiveHistories(histories)
            && PositiveRun(m, events)
    ensures |events| > 0
  {
    hide ValidMarket, KnownHistories, PositiveHistories, PositiveRun;
  }
}
