/** What every run of the portfolio loop guarantees: capacity, pacing, and the closing identity. */
module PortfolioLaws {
  import opened Prelude
  import opened OrderedDict
  import opened Models
  import opened Risk
  import opened PaperBroking
  import opened LedgerLaws
  import opened LedgerEffects
  import opened PortfolioLoop
  import opened PortfolioBooks
  import opened PortfolioSteps
  import opened PortfolioPhases

  // ----- The beginning of an event

  lemma OneMoreBarKnown(m: Market, histories: map<string, seq<Bar>>, bar: Bar)
    requires KnownHistories(m, histories) && Listed(m, bar)
    ensures KnownHistories(m, histories[bar.instrument := HistoryOf(histories, bar.instrument) + [bar]])
  {
    hide Listed;
    assert bar.instrument in m by { ListedIsKnown(m, bar); }
  }

  lemma ListedIsKnown(m: Market, bar: Bar)
    requires Listed(m, bar)
    ensures bar.instrument in m
  {}

  lemma {:induction false} AppendKeepsKnown(m: Market, histories: map<string, seq<Bar>>, bars: seq<Bar>)
    requires KnownHistories(m, histories) && forall b | b in bars :: Listed(m, b)
    ensures KnownHistories(m, AppendBars(histories, bars))
  {
    hide KnownHistories, Listed, HistoryOf;
    if |bars| > 0 {
      AppendKeepsKnown(m, histories, bars[..|bars| - 1]);
      OneMoreBarKnown(m, AppendBars(histories, bars[..|bars| - 1]), bars[|bars| - 1]);
    }
  }

  /** Each current bar is the last of its history. */
  lemma {:induction false} BarsAreAppended(histories: map<string, seq<Bar>>, bars: seq<Bar>)
    requires forall i, j :: 0 <= i < j < |bars| ==> bars[i].instrument != bars[j].instrument
    ensures forall b | b in bars ::
              HistoryOf(AppendBars(histories, bars), b.instrument) == HistoryOf(histories, b.instrument) + [b]
  {
    if |bars| > 0 {
      var init, last := bars[..|bars| - 1], bars[|bars| - 1];
      assert bars == init + [last];
      BarsAreAppended(histories, init);
      OthersUntouched(histories, init, last.instrument);
    }
  }

  lemma BarsKeepSteady(m: Market, c: Config, s: Portfolio, e: MarketEvent, last: int)
    requires Steady(m, c, s, last) && ProperEvent(m, e) && last <= e.time.instant
    ensures Steady(m, c, WithBars(s, e), e.time.instant)
    ensures Visible(WithBars(s, e), e)
  {
    hide Holding, BooksAgree, KnownHistories, BuyKeys, Paced, HistoryOf, AppendBars;
    AppendKeepsKnown(m, s.histories, e.bars);
    BarsAreAppended(s.histories, e.bars);
    forall i ensures HistoryOf(s.histories, i) <= HistoryOf(AppendBars(s.histories, e.bars), i) {
      AppendingExtends(s.histories, e.bars, i);
    }
    LaterKeepsPace(c, s.ledger, s.recentEntries, |BuyKeys(s.pending)|, last, e.time.instant);
    forall b | b in e.bars
      ensures |HistoryOf(WithBars(s, e).histories, b.instrument)| > 0
              && LastOf(HistoryOf(WithBars(s, e).histories, b.instrument)) == b
    {
      assert HistoryOf(AppendBars(s.histories, e.bars), b.instrument) == HistoryOf(s.histories, b.instrument) + [b];
    }
  }

  /** The invariant says nothing about the switch, the universe or the equity curve. */
  lemma SteadyIgnores(m: Market, c: Config, s: Portfolio, after: Portfolio, now: int)
    requires Steady(m, c, s, now)
    requires after == s.(risk := after.risk, triggeredAt := after.triggeredAt, resets := after.resets,
                         universe := after.universe, lastRebalance := after.lastRebalance, curve := after.curve)
    ensures Steady(m, c, after, now)
  {
    hide Holding, BooksAgree, KnownHistories, BuyKeys, Paced;
  }

  lemma TradingKeepsSteady(m: Market, c: Config, limits: RiskLimits, s: Portfolio, e: MarketEvent, last: int)
    requires Steady(m, c, s, last) && ProperEvent(m, e) && last < e.time.instant && SpentBy(Ids(s), last)
    requires s.ledger.Valid() && Traded(c, limits, s, e).Ok?
    ensures var after := Traded(c, limits, s, e).value;
            Steady(m, c, after, e.time.instant) && Visible(after, e) && SpentBy(Ids(after), e.time.instant)
  {
    hide Steady, ProperEvent, Visible, OpenList, AfterPending, AfterExits, AfterMark, EquityAtPrices, AfterReset;
    BarsKeepSteady(m, c, s, e, last);
    var marked := Marked(limits, WithBars(s, e), e).value;
    var cooled := CooledDown(c, marked, e);
    SteadyIgnores(m, c, WithBars(s, e), cooled, e.time.instant);
    assert Visible(cooled, e) by { VisibleIsHistories(WithBars(s, e), cooled, e); }
    PendingIsValid(m, c, cooled, e.time.instant);
    PendingActsWell(m, c, limits, cooled, e, cooled.pending.keys);
    var acted := AfterPending(c, limits, cooled, e, cooled.pending.keys).value;
    SteadyIsBooked(m, c, acted, e.time.instant);
    ListedPositionsAreOpen(m, acted.ledger);
    ExitsAreWell(m, c, acted, e, OpenList(acted.ledger), set k | k in cooled.pending.keys);
    VisibleIsHistories(cooled, AfterExits(c, acted, e, OpenList(acted.ledger)).value, e);
  }

  lemma VisibleIsHistories(s: Portfolio, after: Portfolio, e: MarketEvent)
    requires Visible(s, e) && after.histories == s.histories
    ensures Visible(after, e)
  {}

  lemma PendingIsValid(m: Market, c: Config, s: Portfolio, now: int)
    requires Steady(m, c, s, now)
    ensures Distinct(s.pending.keys)
  {
    hide Holding, Booked, KnownHistories, BuyKeys, Paced;
  }

  lemma SchedulingKeepsSteady(m: Market, c: Config, f: Filters, s: Portfolio, e: MarketEvent)
    requires s.ledger.Valid() && Steady(m, c, s, e.time.instant) && ProperEvent(m, e) && Visible(s, e)
    ensures Steady(m, c, Scheduled(c, f, s, e), e.time.instant)
  {
    hide Steady, OpenList, AfterPyramids, Scanned, SlotsFilled;
    PyramidsKeepSteady(m, c, s, e, OpenList(s.ledger));
    PyramidsKeepLedger(c, s, e, OpenList(s.ledger));
    var pyramided := if c.enablePyramiding then AfterPyramids(c, s, e, OpenList(s.ledger)) else s;
    var balanced := Rebalanced(c, f, pyramided, e);
    SteadyIgnores(m, c, pyramided, balanced, e.time.instant);
    assert balanced.histories == s.histories;
    ScanIsWell(m, c, f, balanced, e.bars, f.regime(balanced.regime), e.time.instant);
    FillingSlotsKeepsSteady(m, c, Scanned(c, f, balanced, e.bars, f.regime(balanced.regime)), e);
  }

  lemma EventKeepsSteady(m: Market, c: Config, f: Filters, limits: RiskLimits, s: Portfolio, e: MarketEvent, last: int)
    requires Steady(m, c, s, last) && ProperEvent(m, e) && last < e.time.instant && SpentBy(Ids(s), last)
    requires s.ledger.Valid() && AfterEvent(c, f, limits, s, e).Ok?
    ensures var after := AfterEvent(c, f, limits, s, e).value;
            Steady(m, c, after, e.time.instant) && SpentBy(Ids(after), e.time.instant)
  {
    hide Steady, ProperEvent, Visible, Traded, Scheduled;
    TradingKeepsSteady(m, c, limits, s, e, last);
    var traded := Traded(c, limits, s, e).value;
    SchedulingKeepsSteady(m, c, f, traded, e);
    SteadyIgnores(m, c, Scheduled(c, f, traded, e), AtClose(Scheduled(c, f, traded, e)), e.time.instant);
  }

  // ----- Whole runs

  lemma StartIsSteady(m: Market, c: Config, histories: map<string, seq<Bar>>, regime: seq<Bar>, now: int)
    requires ValidMarket(m) && KnownHistories(m, histories)
    ensures Steady(m, c, StartPortfolio(c, histories, regime), now)
    ensures Ids(StartPortfolio(c, histories, regime)) == {}
  {
    hide PositionKey, KnownHistories, ValidMarket;
    var s := StartPortfolio(c, histories, regime);
    assert Holding(m, s.ledger) == {} && Entries(s.ledger) == {};
    assert BuyKeys(s.pending) == {};
    forall since ensures EntriesSince(s.ledger, since) == {} {}
    forall t ensures WindowEndingAt(c, s.ledger, t) == {} {}
    assert Worth(s.ledger) == c.initialCapital;
  }

  /** A run over a known market: the state reached, and the events that led there. */
  ghost predicate RunReaches(m: Market, c: Config, f: Filters, limits: RiskLimits, histories: map<string, seq<Bar>>,
                             regime: seq<Bar>, events: seq<MarketEvent>, s: Portfolio)
  {
    && ValidMarket(m) && KnownHistories(m, histories) && ProperRun(m, events)
    && AfterEvents(c, f, limits, StartPortfolio(c, histories, regime), events) == Ok(s)
  }

  ghost function Clock(events: seq<MarketEvent>, before: int): int {
    if |events| == 0 then before else LastOf(events).time.instant
  }

  lemma {:induction false} RunStaysSteady(m: Market, c: Config, f: Filters, limits: RiskLimits, histories: map<string,
                                          seq<Bar>>,
                                          regime: seq<Bar>, events: seq<MarketEvent>, s: Portfolio, before: int)
    requires RunReaches(m, c, f, limits, histories, regime, events, s)
    requires |events| > 0 ==> before < events[0].time.instant
    ensures Steady(m, c, s, Clock(events, before)) && SpentBy(Ids(s), Clock(events, before))
  {
    hide Steady, AfterEvent, KnownHistories, ValidMarket, ProperEvent;
    if |events| == 0 {
      StartIsSteady(m, c, histories, regime, before);
    } else {
      var init, last := events[..|events| - 1], events[|events| - 1];
      var prior := AfterEvents(c, f, limits, StartPortfolio(c, histories, regime), init).value;
      RunStaysSteady(m, c, f, limits, histories, regime, init, prior, before);
      EventKeepsSteady(m, c, f, limits, prior, last, Clock(init, before));
    }
  }

  /**
   * After every event of every run, the open positions and pending purchases together stay within max_positions,
   * and plans and active entries exist for exactly the open instruments, one entry lot each.
   */
  lemma CapacityAndPlans(m: Market, c: Config, f: Filters, limits: RiskLimits, histories: map<string, seq<Bar>>,
                         regime: seq<Bar>, events: seq<MarketEvent>, s: Portfolio)
    requires RunReaches(m, c, f, limits, histories, regime, events, s)
    ensures s.ledger.Valid()
    ensures |OpenInstruments(s.ledger)| + |BuyKeys(s.pending)| <= c.maxPositions
    ensures s.plans.Keys == s.active.Keys == OpenInstruments(s.ledger)
    ensures BuyKeys(s.pending) !! OpenInstruments(s.ledger)
    ensures forall i | i in s.active :: |s.active[i]| == 1
  {
    hide Holding, KnownHistories, BuyKeys, Paced, OpenInstruments, ValidMarket;
    var before := if |events| > 0 then events[0].time.instant - 1 else 0;
    RunStaysSteady(m, c, f, limits, histories, regime, events, s, before);
    SteadyIsBooked(m, c, s, Clock(events, before));
    OpenInstrumentsAreHeld(m, s.ledger);
  }

  /**
   * With pacing on, at most max_new_entries_per_period initial purchases fill within the period that ends at any
   * instant, even when pending purchases wait many events for a bar.
   */
  lemma EntryRateIsLimited(m: Market, c: Config, f: Filters, limits: RiskLimits, histories: map<string, seq<Bar>>,
                           regime: seq<Bar>, events: seq<MarketEvent>, s: Portfolio, t: int)
    requires RunReaches(m, c, f, limits, histories, regime, events, s) && c.maxNewEntries.Some?
    ensures |EntriesWithin(s.ledger, t - c.entryPeriodDays * SECONDS_PER_DAY, t)| <= c.maxNewEntries.value
  {
    hide RunReaches, Steady, EntriesWithin;
    var before := if |events| > 0 then events[0].time.instant - 1 else 0;
    RunStaysSteady(m, c, f, limits, histories, regime, events, s, before);
    SteadyWindow(m, c, s, Clock(events, before), t);
  }

  lemma SteadyWindow(m: Market, c: Config, s: Portfolio, now: int, t: int)
    requires Steady(m, c, s, now) && c.maxNewEntries.Some?
    ensures |WindowEndingAt(c, s.ledger, t)| <= c.maxNewEntries.value
  {
    hide Holding, KnownHistories, BuyKeys, Booked, Covered, EntriesWithin, WindowEndingAt;
  }

  // ----- The final liquidation

  /** What the final sales keep; a final id is spent only for an instrument already sold. */
  ghost predicate Closing(m: Market, c: Config, s: Portfolio, sold: set<string>) {
    && Booked(m, c, s)
    && KnownHistories(m, s.histories)
    && forall id | id in Ids(s) && id.kind.KFinal? :: id.instrument in sold
  }

  /** The sale of one listed position: its bar is its own, and its id is new. */
  lemma FinalSaleIsMade(m: Market, c: Config, s: Portfolio, time: Timestamp, p: Position, sold: set<string>)
    requires Closing(m, c, s, sold) && StillOpen(m, s.ledger, p) && p.instrument !in sold
    requires s.ledger.Valid() && FinalStep(c, s, time, p).Ok?
    ensures p.instrument in m
    ensures SaleMade(m, c, s, FinalStep(c, s, time, p).value, OrderIdAt(p.instrument, time, KFinal), p.instrument)
  {
    hide PositionKey, Holding, Booked, Sold, StillOpen, SaleMade, Config.SellPrice;
    var history := HistoryOf(s.histories, p.instrument);
    assert LastOf(history) in history;
    OpenIsHeld(m, s.ledger, p);
    SaleKeepsBooks(m, c, s, LastOf(history), p.quantity, c.SellPrice(LastOf(history).close),
                   OrderIdAt(p.instrument, time, KFinal));
  }

  lemma StillClosing(m: Market, c: Config, s: Portfolio, after: Portfolio, id: OrderId, sold: set<string>)
    requires Closing(m, c, s, sold) && Booked(m, c, after) && after.histories == s.histories
    requires Ids(after) == Ids(s) + {id}
    ensures Closing(m, c, after, sold + {id.instrument})
  {
    hide Booked, KnownHistories;
  }

  lemma FinalStepCloses(m: Market, c: Config, s: Portfolio, time: Timestamp, p: Position, sold: set<string>)
    requires Closing(m, c, s, sold) && StillOpen(m, s.ledger, p) && p.instrument !in sold
    requires s.ledger.Valid() && FinalStep(c, s, time, p).Ok?
    ensures var after := FinalStep(c, s, time, p).value;
            && Closing(m, c, after, sold + {p.instrument})
            && Holding(m, after.ledger) == Holding(m, s.ledger) - {p.instrument}
            && after.curve == s.curve && Entries(after.ledger) == Entries(s.ledger)
            && forall q: Position :: StillOpen(m, s.ledger, q) && q.instrument != p.instrument ==>
                 StillOpen(m, after.ledger, q)
  {
    hide PositionKey, Holding, OneOrder, Closing, Booked, FinalStep, Entries, StillOpen, SaleMade, Ledger.Valid,
         ValidMarket;
    var after, id := FinalStep(c, s, time, p).value, OrderIdAt(p.instrument, time, KFinal);
    FinalSaleIsMade(m, c, s, time, p, sold);
    SaleShape(m, c, s, after, id, p.instrument);
    ClosingIsBooked(m, c, s, sold);
    BookedIsValid(m, c, s);
    OneOrderIds(m, s.ledger, after.ledger, id, p.instrument, 0 - s.ledger.Held(KeyOf(m, p.instrument)));
    StillClosing(m, c, s, after, id, sold);
  }

  lemma OpenIsHeld(m: Market, l: Ledger, p: Position)
    requires StillOpen(m, l, p)
    ensures p.instrument in m && p.instrument in Holding(m, l) && p.quantity == l.Held(KeyOf(m, p.instrument))
  {}

  lemma {:induction false} FinalSalesClose(m: Market, c: Config, s: Portfolio, time: Timestamp,
                                           positions: seq<Position>)
    requires Closing(m, c, s, {})
    requires OnePerInstrument(positions) && forall p | p in positions :: StillOpen(m, s.ledger, p)
    requires s.ledger.Valid() && AfterFinalSales(c, s, time, positions).Ok?
    ensures var after := AfterFinalSales(c, s, time, positions).value;
            && Closing(m, c, after, Names(positions))
            && Holding(m, after.ledger) == Holding(m, s.ledger) - Names(positions)
            && after.curve == s.curve && Entries(after.ledger) == Entries(s.ledger)
            && forall q: Position :: StillOpen(m, s.ledger, q) && q.instrument !in Names(positions)
                ==> StillOpen(m, after.ledger, q)
  {
    hide FinalStep, StillOpen, OnePerInstrument, Names, Closing, Holding, Entries;
    if |positions| == 0 {
      NoNames(positions);
      assert Holding(m, s.ledger) - {} == Holding(m, s.ledger);
    } else {
      var init, last := positions[..|positions| - 1], positions[|positions| - 1];
      NamesSnoc(positions);
      FinalSalesClose(m, c, s, time, init);
      FinalStepCloses(m, c, AfterFinalSales(c, s, time, init).value, time, last, Names(init));
    }
  }

  lemma {:induction false} FlatIsWorthless(keys: seq<string>, data: map<string, Position>)
    requires forall k | k in keys :: k in data && data[k].quantity == 0
    ensures SumOf(keys, data, BookValue) == 0.0
    ensures Select(keys, data, IsOpen) == []
  {
    if |keys| > 0 {
      FlatIsWorthless(keys[..|keys| - 1], data);
    }
  }

  lemma NothingHeldNothingOpen(m: Market, l: Ledger)
    requires ValidMarket(m) && Coherent(m, l) && Holding(m, l) == {}
    ensures TotalBookValue(l) == 0.0 && OpenList(l) == []
  {
    hide PositionKey, Notional;
    forall k | k in l.positions.keys ensures l.positions.data[k].quantity == 0 {
      KeyOfPosition(m, l, k);
      assert l.positions.data[k].instrument !in Holding(m, l);
    }
    FlatIsWorthless(l.positions.keys, l.positions.data);
  }

  lemma FinalNamesAreHeld(m: Market, l: Ledger)
    requires ValidMarket(m) && Coherent(m, l)
    ensures Names(OpenList(l)) == Holding(m, l)
  {
    hide Holding, OpenList;
    OpenInstrumentsAreHeld(m, l);
    assert Names(OpenList(l)) == OpenInstruments(l);
  }

  lemma SteadyIsClosing(m: Market, c: Config, s: Portfolio, now: int)
    requires Steady(m, c, s, now) && SpentBy(Ids(s), now)
    ensures Closing(m, c, s, {})
  {
    hide Holding, Booked, KnownHistories, BuyKeys, Paced;
  }

  lemma BooksWhenFlat(m: Market, c: Config, s: Portfolio)
    requires Booked(m, c, s) && Holding(m, s.ledger) == {}
    ensures s.ledger.Valid() && OpenList(s.ledger) == []
    ensures s.ledger.cash == c.initialCapital + Sum(s.pnls) - TotalCommission(s.ledger)
    ensures |s.records| == |s.pnls| == |Entries(s.ledger)|
  {
    hide Holding, Entries, OpenList, PositionKey, TotalBookValue, TotalCommission, Sum;
    BookedIsValid(m, c, s);
    NothingHeldNothingOpen(m, s.ledger);
  }

  /**
   * Every run that completes ends flat, and its final capital is the initial capital plus all recorded profits
   * minus all commissions, pyramids included; there are as many profits and trade records as filled entries.
   */
  lemma ClosingIdentity(m: Market, c: Config, f: Filters, limits: RiskLimits, histories: map<string, seq<Bar>>,
                        regime: seq<Bar>, events: seq<MarketEvent>, s: Portfolio)
    requires ValidMarket(m) && KnownHistories(m, histories) && ProperRun(m, events)
    requires AfterRun(c, f, limits, StartPortfolio(c, histories, regime), events) == Ok(s)
    ensures s.ledger.Valid() && OpenList(s.ledger) == []
    ensures s.ledger.cash == c.initialCapital + Sum(s.pnls) - TotalCommission(s.ledger)
    ensures |s.records| == |s.pnls| == |Entries(s.ledger)|
  {
    hide Steady, Holding, Entries, OpenList, KnownHistories, ProperRun, Booked, TotalCommission, Sum, ValidMarket;
    hide AfterFinalSales, AfterEvents, AfterRun, Worth;
    var start := StartPortfolio(c, histories, regime);
    RunEnds(c, f, limits, start, events, s);
    var traded := AfterEvents(c, f, limits, start, events).value;
    RunStaysSteady(m, c, f, limits, histories, regime, events, traded, events[0].time.instant - 1);
    LiquidationFlattens(m, c, traded, Clock(events, 0), LastOf(events).time);
    BooksWhenFlat(m, c, AfterFinalSales(c, traded, LastOf(events).time, OpenList(traded.ledger)).value);
  }

  lemma LiquidationFlattens(m: Market, c: Config, s: Portfolio, now: int, time: Timestamp)
    requires s.ledger.Valid() && Steady(m, c, s, now) && SpentBy(Ids(s), now)
    requires AfterFinalSales(c, s, time, OpenList(s.ledger)).Ok?
    ensures var sold := AfterFinalSales(c, s, time, OpenList(s.ledger)).value;
            Booked(m, c, sold) && Holding(m, sold.ledger) == {}
  {
    hide Steady, Holding, Entries, OpenList, Closing, Booked, AfterFinalSales, Names, StillOpen, OnePerInstrument;
    SteadyIsBooked(m, c, s, now);
    SteadyIsClosing(m, c, s, now);
    ListedPositionsAreOpen(m, s.ledger);
    FinalSalesClose(m, c, s, time, OpenList(s.ledger));
    FinalNamesAreHeld(m, s.ledger);
    ClosingIsBooked(m, c, AfterFinalSales(c, s, time, OpenList(s.ledger)).value, Names(OpenList(s.ledger)));
  }

  lemma RunEnds(c: Config, f: Filters, limits: RiskLimits, start: Portfolio, events: seq<MarketEvent>, s: Portfolio)
    requires start.ledger.Valid() && AfterRun(c, f, limits, start, events) == Ok(s)
    ensures |events| > 0 && AfterEvents(c, f, limits, start, events).Ok?
    ensures var traded := AfterEvents(c, f, limits, start, events).value;
            && AfterFinalSales(c, traded, LastOf(events).time, OpenList(traded.ledger)).Ok?
            && var sold := AfterFinalSales(c, traded, LastOf(events).time, OpenList(traded.ledger)).value;
               s.ledger == sold.ledger && s.pnls == sold.pnls && s.records == sold.records &&
               (|sold.curve| > 0 ==> |s.curve| == |sold.curve| && LastOf(s.curve) == s.ledger.cash)
  {
    hide AfterFinalSales, AfterEvents, OpenList;
  }

  lemma ClosingIsBooked(m: Market, c: Config, s: Portfolio, sold: set<string>)
    requires Closing(m, c, s, sold)
    ensures Booked(m, c, s)
  {
    hide Booked, KnownHistories;
  }
}
