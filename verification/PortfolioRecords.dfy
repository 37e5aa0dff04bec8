/** Every run of the portfolio loop keeps its records, profits and lots traced to the orders behind them. */
module PortfolioRecords {
  import opened Prelude
  import opened OrderedDict
  import opened Models
  import opened Risk
  import opened PaperBroking
  import opened LedgerLaws
  import opened LedgerEffects
  import opened PortfolioLoop
  import opened PortfolioBooks
  import opened PortfolioSteps
  import opened PortfolioPhases
  import opened PortfolioLaws
  import opened PortfolioTracing
  import opened PortfolioPyramids
  import O = OrderManaging

  /** Some assignment of sales traces every record, profit and lot. */
  ghost predicate Tracked(m: Market, s: Portfolio, now: int) {
    exists sales :: Traced(m, s, sales, now)
  }

  // ----- What tracing does not depend on

  lemma SameBooksStayTracked(m: Market, s: Portfolio, after: Portfolio, now: int)
    requires Tracked(m, s, now)
    requires after.ledger == s.ledger && after.active == s.active && after.plans == s.plans
    requires after.pnls == s.pnls && after.records == s.records
    ensures Tracked(m, after, now)
  {
    hide LotsTraced, RecordsTraced, Apart, SoldBefore, Ledger.Valid;
    var sales :| Traced(m, s, sales, now);
    assert Traced(m, after, sales, now);
  }

  lemma LaterStaysTracked(m: Market, s: Portfolio, now: int, later: int)
    requires Tracked(m, s, now) && now <= later && SpentBy(Ids(s), now)
    ensures Tracked(m, s, later)
  {
    hide Traced;
    var sales :| Traced(m, s, sales, now);
    LaterStaysTraced(m, s, sales, now, later);
  }

  lemma DroppedPlanStaysTraced(m: Market, s: Portfolio, sales: seq<OrderId>, now: int, k: string)
    requires Traced(m, s, sales, now) && k !in s.active
    ensures Traced(m, s.(plans := s.plans - {k}), sales, now)
  {
    hide LotTraced, RecordsTraced, Apart, SoldBefore, Ledger.Valid;
  }

  lemma RaisedPlanStaysTracked(m: Market, s: Portfolio, now: int, k: string, highest: real)
    requires Tracked(m, s, now) && k in s.plans
    ensures Tracked(m, s.(plans := s.plans[k := s.plans[k].(highestClose := highest)]), now)
  {
    hide RecordsTraced, Apart, SoldBefore, Ledger.Valid, AddedShares, AddedCost, Additions, CostAt, Notional;
    var sales :| Traced(m, s, sales, now);
    var after := s.(plans := s.plans[k := s.plans[k].(highestClose := highest)]);
    assert Traced(m, after, sales, now);
  }

  // ----- Sales

  lemma SoldOutStaysTracked(m: Market, c: Config, s: Portfolio, bar: Bar, quantity: int, price: real, id: OrderId)
    requires Booked(m, c, s) && Tracked(m, s, id.instant) && Listed(m, bar) && bar.instrument in Holding(m, s.ledger)
    requires quantity == s.ledger.Held(KeyOf(m, bar.instrument))
    requires id !in Ids(s) && id.instrument == bar.instrument && !id.kind.KBuy? && !id.kind.KPyramid?
    requires s.ledger.Valid() && SoldOut(s, bar, quantity, price, id).Ok?
    ensures Tracked(m, SoldOut(s, bar, quantity, price, id).value, id.instant)
  {
    hide Traced, Sold, Booked, Holding, PositionKey, Listed;
    var sales :| Traced(m, s, sales, id.instant);
    SaleStaysTraced(m, c, s, sales, bar, quantity, price, id);
    SaleClosesLot(m, c, s, bar, quantity, price, id);
    DroppedPlanStaysTraced(m, Sold(s, bar, quantity, price, id).value, sales + [id], id.instant, bar.instrument);
  }

  lemma SaleClosesLot(m: Market, c: Config, s: Portfolio, bar: Bar, quantity: int, price: real, id: OrderId)
    requires Booked(m, c, s) && Listed(m, bar) && bar.instrument in Holding(m, s.ledger)
    requires quantity == s.ledger.Held(KeyOf(m, bar.instrument))
    requires id !in Ids(s) && !id.kind.KBuy?
    requires s.ledger.Valid() && Sold(s, bar, quantity, price, id).Ok?
    ensures bar.instrument !in Sold(s, bar, quantity, price, id).value.active
  {
    hide Sold, Holding, PositionKey, Entries, Worth, OneOrder;
    SaleKeepsBooks(m, c, s, bar, quantity, price, id);
  }

  // ----- Purchases

  /** An instrument not yet acted on in an event was last sold before it, and has no addition in it. */
  lemma NothingSoldYet(m: Market, s: Portfolio, sales: seq<OrderId>, now: int, acted: set<string>, k: string)
    requires Traced(m, s, sales, now) && Spent(Ids(s), now, acted, {}) && k !in acted
    ensures SoldBefore(s.records, sales, k, now)
    ensures forall id | id in Ids(s) :: !(id.kind.KPyramid? && id.instrument == k && id.instant == now)
  {
    hide LotsTraced, Apart, AddedShares, AddedCost, Notional, Ledger.Valid;
    OrdersAreValid(s.ledger);
    forall j | 0 <= j < |s.records| && s.records[j].instrument == k ensures sales[j].instant < now {
      assert RecordTraced(s.ledger, s.records[j], s.pnls[j], sales[j]);
      assert sales[j] in Ids(s);
    }
  }

  lemma NotHeldIsFlat(m: Market, c: Config, s: Portfolio, instrument: string)
    requires Booked(m, c, s) && instrument in m && instrument !in Holding(m, s.ledger)
    ensures s.ledger.Held(KeyOf(m, instrument)) == 0 && instrument !in s.active
  {
    hide Entries, Worth, KeyOf;
  }

  lemma EntryStaysTracked(m: Market, c: Config, limits: RiskLimits, s: Portfolio, bar: Bar, candidate: Candidate,
                          e: MarketEvent,
                          acted: set<string>)
    requires Booked(m, c, s) && Tracked(m, s, e.time.instant) && Listed(m, bar)
             && bar.instrument !in Holding(m, s.ledger)
    requires Spent(Ids(s), e.time.instant, acted, {}) && bar.instrument !in acted
    requires s.ledger.Valid() && Entered(c, limits, s, bar, candidate, e).Ok?
    ensures Tracked(m, Entered(c, limits, s, bar, candidate, e).value, e.time.instant)
  {
    hide PositionKey, Holding, Spent, Traced, OpenList, O.AfterBuySubmission, WithEntry, Bought, Ledger.Valid, Booked,
         SoldBefore;
    FreshAction(Ids(s), e, acted, bar.instrument, KBuy);
    BookedIsValid(m, c, s);
    NotHeldIsFlat(m, c, s, bar.instrument);
    var sales :| Traced(m, s, sales, e.time.instant);
    NothingSoldYet(m, s, sales, e.time.instant, acted, bar.instrument);
    var a := EntryArgs(c, s, bar, candidate, e);
    var (after, outcome) := O.AfterBuySubmission(limits, s.ledger, s.risk, a).value;
    GatedPurchase(m, limits, s.ledger, s.risk, a);
    hide EquityAtPrices, Config.BuyPrice, ValidMarket, Coherent;
    if outcome.submitted {
      FilledEntryStaysTraced(m, c, s, sales, bar, candidate, e, a, after, outcome);
    } else {
      RefusalStaysTraced(m, s, after, sales, a, outcome, e.time.instant);
    }
  }

  lemma PyramidStaysTracked(m: Market, c: Config, limits: RiskLimits, s: Portfolio, bar: Bar, position: Position,
                            e: MarketEvent,
                            acted: set<string>)
    requires Booked(m, c, s) && Tracked(m, s, e.time.instant) && Listed(m, bar)
             && bar.instrument in Holding(m, s.ledger)
    requires Spent(Ids(s), e.time.instant, acted, {}) && bar.instrument !in acted
    requires s.ledger.Valid() && Pyramided(c, limits, s, bar, position, e).Ok?
    ensures Tracked(m, Pyramided(c, limits, s, bar, position, e).value, e.time.instant)
  {
    hide PositionKey, Holding, Spent, Traced, OpenList, O.AfterBuySubmission, Bought, Ledger.Valid, Booked, SoldBefore;
    if bar.instrument in s.plans {
      FreshAction(Ids(s), e, acted, bar.instrument, KPyramid);
      BookedIsValid(m, c, s);
      ActiveIsHeld(m, c, s);
      var sales :| Traced(m, s, sales, e.time.instant);
      NothingSoldYet(m, s, sales, e.time.instant, acted, bar.instrument);
      var a := PyramidArgs(c, s, bar, position, s.plans[bar.instrument], e);
      var (after, outcome) := O.AfterBuySubmission(limits, s.ledger, s.risk, a).value;
      GatedPurchase(m, limits, s.ledger, s.risk, a);
      hide EquityAtPrices, Config.BuyPrice, ValidMarket, Coherent;
      if outcome.submitted {
        FilledPyramidStaysTraced(m, s, after, sales, a, outcome, e.time.instant);
      } else {
        RefusalStaysTraced(m, s, after, sales, a, outcome, e.time.instant);
      }
    }
  }

  // ----- The phases

  lemma PendingStepStaysTracked(m: Market, c: Config, limits: RiskLimits, s: Portfolio, e: MarketEvent, k: string,
                                acted: set<string>)
    requires Steady(m, c, s, e.time.instant) && ProperEvent(m, e) && Tracked(m, s, e.time.instant)
    requires Spent(Ids(s), e.time.instant, acted, {}) && k !in acted
    requires s.ledger.Valid() && PendingStep(c, limits, s, e, k).Ok?
    ensures Tracked(m, PendingStep(c, limits, s, e, k).value, e.time.instant)
  {
    hide PositionKey, Holding, Entered, Pyramided, SoldOut, Spent, Steady, OpenList, FindPosition, BarOf, Tracked,
         Booked;
    BarOfFinds(e.bars, k);
    var bar := BarOf(e.bars, k);
    if bar.Some? && k in s.pending.data {
      var popped := s.(pending := s.pending.Remove(k));
      FoundPosition(m, c, s, e.time.instant, bar.value);
      PopKeepsSteady(m, c, s, e.time.instant, k);
      SteadyIsBooked(m, c, popped, e.time.instant);
      SameBooksStayTracked(m, s, popped, e.time.instant);
      var action, position := s.pending.data[k], FindPosition(OpenList(s.ledger), k, bar.value.exchange);
      if action.PendingSell? && position.Some? {
        FreshAction(Ids(s), e, acted, k, KTrend);
        SoldOutStaysTracked(m, c, popped, bar.value, position.value.quantity, c.SellPrice(bar.value.open),
            OrderIdAt(k, e.time, KTrend));
      } else if action.PendingPyramid? && position.Some? {
        PyramidStaysTracked(m, c, limits, popped, bar.value, position.value, e, acted);
      } else if action.PendingBuy? && position.None? {
        EntryStaysTracked(m, c, limits, popped, bar.value, action.candidate, e, acted);
      }
    }
  }

  lemma {:induction false} PendingStaysTracked(m: Market, c: Config, limits: RiskLimits, s: Portfolio, e: MarketEvent,
                                               keys: seq<string>)
    requires Steady(m, c, s, e.time.instant) && ProperEvent(m, e) && Visible(s, e) && Tracked(m, s, e.time.instant)
    requires Spent(Ids(s), e.time.instant, {}, {}) && Distinct(keys)
    requires s.ledger.Valid() && AfterPending(c, limits, s, e, keys).Ok?
    ensures Tracked(m, AfterPending(c, limits, s, e, keys).value, e.time.instant)
  {
    hide Spent, Steady, PendingStep, Tracked;
    if |keys| > 0 {
      var init, last := keys[..|keys| - 1], keys[|keys| - 1];
      PendingStaysTracked(m, c, limits, s, e, init);
      PendingActsWell(m, c, limits, s, e, init);
      PendingStepStaysTracked(m, c, limits, AfterPending(c, limits, s, e, init).value, e, last, set k | k in init);
    }
  }

  lemma ExitStepStaysTracked(m: Market, c: Config, s: Portfolio, e: MarketEvent, p: Position, acted: set<string>,
                             exited: set<string>)
    requires Steady(m, c, s, e.time.instant) && ProperEvent(m, e) && Tracked(m, s, e.time.instant)
    requires StillOpen(m, s.ledger, p) && p.instrument !in exited
    requires Spent(Ids(s), e.time.instant, acted, exited)
    requires s.ledger.Valid() && ExitStep(c, s, e, p).Ok?
    ensures Tracked(m, ExitStep(c, s, e, p).value, e.time.instant)
  {
    hide PositionKey, Holding, SoldOut, Spent, Steady, BarOf, StopLevel, Tracked, Booked;
    BarOfFinds(e.bars, p.instrument);
    SteadyIsBooked(m, c, s, e.time.instant);
    var bar := BarOf(e.bars, p.instrument);
    if bar.Some? && p.instrument in s.plans {
      var plan := s.plans[p.instrument];
      var stop := StopLevel(c, s, plan, p.instrument);
      if bar.value.low <= stop {
        FreshExit(Ids(s), e, acted, exited, p.instrument, KStop);
        SoldOutStaysTracked(m, c, s, bar.value, p.quantity, c.SellPrice(Min(bar.value.open, stop)),
            OrderIdAt(p.instrument, e.time, KStop));
      } else if plan.targetPrice.Some? && bar.value.high >= plan.targetPrice.value {
        FreshExit(Ids(s), e, acted, exited, p.instrument, KTarget);
        SoldOutStaysTracked(m, c, s, bar.value, p.quantity, c.SellPrice(Max(bar.value.open, plan.targetPrice.value)),
                            OrderIdAt(p.instrument, e.time, KTarget));
      } else if plan.trailing.Some? {
        RaisedPlanStaysTracked(m, s, e.time.instant, p.instrument, Max(plan.highestClose, bar.value.close));
      }
    }
  }

  lemma {:induction false} ExitsStayTracked(m: Market, c: Config, s: Portfolio, e: MarketEvent,
                                            positions: seq<Position>, acted: set<string>)
    requires Steady(m, c, s, e.time.instant) && ProperEvent(m, e) && Tracked(m, s, e.time.instant)
    requires OnePerInstrument(positions) && forall p | p in positions :: StillOpen(m, s.ledger, p)
    requires Spent(Ids(s), e.time.instant, acted, {})
    requires s.ledger.Valid() && AfterExits(c, s, e, positions).Ok?
    ensures Tracked(m, AfterExits(c, s, e, positions).value, e.time.instant)
  {
    hide Spent, Steady, ExitStep, StillOpen, OnePerInstrument, Names, Tracked;
    if |positions| > 0 {
      var init, last := positions[..|positions| - 1], positions[|positions| - 1];
      NamesSnoc(positions);
      ExitsStayTracked(m, c, s, e, init, acted);
      ExitsAreWell(m, c, s, e, init, acted);
      ExitStepStaysTracked(m, c, AfterExits(c, s, e, init).value, e, last, acted, Names(init));
    }
  }

  lemma TradingStaysTracked(m: Market, c: Config, limits: RiskLimits, s: Portfolio, e: MarketEvent, last: int)
    requires Steady(m, c, s, last) && ProperEvent(m, e) && last < e.time.instant && SpentBy(Ids(s), last)
    requires Tracked(m, s, last)
    requires s.ledger.Valid() && Traded(c, limits, s, e).Ok?
    ensures Tracked(m, Traded(c, limits, s, e).value, e.time.instant)
  {
    hide Steady, ProperEvent, Visible, OpenList, AfterPending, AfterExits, AfterMark, EquityAtPrices, AfterReset,
         Tracked;
    BarsKeepSteady(m, c, s, e, last);
    var marked := Marked(limits, WithBars(s, e), e).value;
    var cooled := CooledDown(c, marked, e);
    SteadyIgnores(m, c, WithBars(s, e), cooled, e.time.instant);
    assert Visible(cooled, e) by { VisibleIsHistories(WithBars(s, e), cooled, e); }
    LaterStaysTracked(m, s, last, e.time.instant);
    SameBooksStayTracked(m, s, cooled, e.time.instant);
    PendingIsValid(m, c, cooled, e.time.instant);
    PendingStaysTracked(m, c, limits, cooled, e, cooled.pending.keys);
    PendingActsWell(m, c, limits, cooled, e, cooled.pending.keys);
    var acted := AfterPending(c, limits, cooled, e, cooled.pending.keys).value;
    SteadyIsBooked(m, c, acted, e.time.instant);
    ListedPositionsAreOpen(m, acted.ledger);
    ExitsStayTracked(m, c, acted, e, OpenList(acted.ledger), set k | k in cooled.pending.keys);
  }

  lemma {:induction false} ScheduleOnlyPends(s: Portfolio, candidates: seq<Candidate>)
    ensures Schedule(s, candidates) == s.(pending := Schedule(s, candidates).pending)
  {
    if |candidates| > 0 {
      ScheduleOnlyPends(s, candidates[..|candidates| - 1]);
    }
  }

  lemma {:induction false} ScanOnlyPends(c: Config, f: Filters, s: Portfolio, bars: seq<Bar>, allowEntries: bool)
    requires s.ledger.Valid()
    ensures Scanned(c, f, s, bars, allowEntries).portfolio == s.(pending :=
            Scanned(c, f, s, bars, allowEntries).portfolio.pending)
  {
    hide Ledger.Valid, OpenList, FindPosition, SnapshotFor, CandidateFrom;
    if |bars| > 0 {
      ScanOnlyPends(c, f, s, bars[..|bars| - 1], allowEntries);
    }
  }

  lemma {:induction false} PyramidsOnlyPend(c: Config, s: Portfolio, e: MarketEvent, positions: seq<Position>)
    ensures AfterPyramids(c, s, e, positions) == s.(pending := AfterPyramids(c, s, e, positions).pending)
  {
    hide WantsPyramid;
    if |positions| > 0 {
      PyramidsOnlyPend(c, s, e, positions[..|positions| - 1]);
    }
  }

  lemma SchedulingStaysTracked(m: Market, c: Config, f: Filters, s: Portfolio, e: MarketEvent, now: int)
    requires s.ledger.Valid() && Tracked(m, s, now)
    ensures Tracked(m, Scheduled(c, f, s, e), now)
  {
    hide Ledger.Valid, OpenList, Slots, Scanned, AfterPyramids, Schedule, SortCandidates, Tracked;
    PyramidsOnlyPend(c, s, e, OpenList(s.ledger));
    PyramidsKeepLedger(c, s, e, OpenList(s.ledger));
    var balanced := Rebalanced(c, f, if c.enablePyramiding then AfterPyramids(c, s, e, OpenList(s.ledger)) else s, e);
    ScanOnlyPends(c, f, balanced, e.bars, f.regime(balanced.regime));
    var scan := Scanned(c, f, balanced, e.bars, f.regime(balanced.regime));
    var pruned := WithPruning(c, scan.portfolio, e);
    var ranked := SortCandidates(scan.candidates);
    ScheduleOnlyPends(pruned, ranked[..MinInt(Slots(c, pruned), |ranked|)]);
    SameBooksStayTracked(m, s, Scheduled(c, f, s, e), now);
  }

  lemma EventStaysTracked(m: Market, c: Config, f: Filters, limits: RiskLimits, s: Portfolio, e: MarketEvent, last: int)
    requires Steady(m, c, s, last) && ProperEvent(m, e) && last < e.time.instant && SpentBy(Ids(s), last)
    requires Tracked(m, s, last)
    requires s.ledger.Valid() && AfterEvent(c, f, limits, s, e).Ok?
    ensures Tracked(m, AfterEvent(c, f, limits, s, e).value, e.time.instant)
  {
    hide Steady, ProperEvent, Traded, Scheduled, Tracked;
    TradingStaysTracked(m, c, limits, s, e, last);
    var traded := Traded(c, limits, s, e).value;
    SchedulingStaysTracked(m, c, f, traded, e, e.time.instant);
    SameBooksStayTracked(m, Scheduled(c, f, traded, e), AtClose(Scheduled(c, f, traded, e)), e.time.instant);
  }

  lemma StartIsTracked(m: Market, c: Config, histories: map<string, seq<Bar>>, regime: seq<Bar>, now: int)
    ensures Tracked(m, StartPortfolio(c, histories, regime), now)
  {
    assert Traced(m, StartPortfolio(c, histories, regime), [], now);
  }

  lemma {:induction false} RunStaysTracked(m: Market, c: Config, f: Filters, limits: RiskLimits, histories: map<string,
                                           seq<Bar>>,
                                           regime: seq<Bar>, events: seq<MarketEvent>, s: Portfolio, before: int)
    requires RunReaches(m, c, f, limits, histories, regime, events, s)
    requires |events| > 0 ==> before < events[0].time.instant
    ensures Tracked(m, s, Clock(events, before))
  {
    hide Steady, AfterEvent, KnownHistories, ValidMarket, ProperEvent, Tracked;
    if |events| == 0 {
      StartIsTracked(m, c, histories, regime, before);
    } else {
      var init, last := events[..|events| - 1], events[|events| - 1];
      var prior := AfterEvents(c, f, limits, StartPortfolio(c, histories, regime), init).value;
      RunStaysTracked(m, c, f, limits, histories, regime, init, prior, before);
      RunStaysSteady(m, c, f, limits, histories, regime, init, prior, before);
      EventStaysTracked(m, c, f, limits, prior, last, Clock(init, before));
    }
  }

  // ----- Open positions

  /** The filled additions to an instrument since an instant. */
  ghost function AdditionsSince(l: Ledger, instrument: string, from: int): set<OrderId> {
    set id | id in l.orders.data && IsAdditionSince(l.orders.data[id], instrument, from)
  }

  predicate IsAdditionSince(o: Order, instrument: string, from: int) {
    o.request.id.kind.KPyramid? && o.request.id.instrument == instrument && o.status.FILLED?
        && from <= o.request.id.instant
  }

  ghost function Chosen(keys: seq<OrderId>, data: map<OrderId, Order>, instrument: string, from: int,
                        to: int): set<OrderId>
    requires forall k | k in keys :: k in data
  {
    set k | k in keys && IsAddition(data[k], instrument, from, to)
  }

  lemma OneMoreChosen(init: seq<OrderId>, last: OrderId, data: map<OrderId, Order>, instrument: string, from: int,
                      to: int)
    requires last !in init && last in data && forall k | k in init :: k in data
    ensures forall k | k in init + [last] :: k in data
    ensures |Chosen(init + [last], data, instrument, from, to)|
         == |Chosen(init, data, instrument, from, to)| + if IsAddition(data[last], instrument, from, to) then 1 else 0
  {
    hide IsAddition;
    var before, after := Chosen(init, data, instrument, from, to), Chosen(init + [last], data, instrument, from, to);
    assert last !in before;
    if IsAddition(data[last], instrument, from, to) {
      assert after == before + {last};
    } else {
      assert after == before;
    }
  }

  lemma LastIsNew(keys: seq<OrderId>)
    requires Distinct(keys) && |keys| > 0
    ensures keys == keys[..|keys| - 1] + [keys[|keys| - 1]]
    ensures keys[|keys| - 1] !in keys[..|keys| - 1] && Distinct(keys[..|keys| - 1])
  {}

  lemma {:induction false} OnesCount(keys: seq<OrderId>, data: map<OrderId, Order>, instrument: string, from: int,
                                     to: int)
    requires Distinct(keys) && forall k | k in keys :: k in data
    ensures SumOf(keys, data, OneFor(instrument, from, to)) == |Chosen(keys, data, instrument, from, to)| as real
  {
    hide IsAddition, Distinct, Chosen;
    if |keys| == 0 {
      NothingChosen(keys, data, instrument, from, to);
    } else {
      var init, last := keys[..|keys| - 1], keys[|keys| - 1];
      LastIsNew(keys);
      OnesCount(init, data, instrument, from, to);
      OneMoreChosen(init, last, data, instrument, from, to);
    }
  }

  lemma NothingChosen(keys: seq<OrderId>, data: map<OrderId, Order>, instrument: string, from: int, to: int)
    requires |keys| == 0
    ensures Chosen(keys, data, instrument, from, to) == {}
  {}

  lemma AdditionsAreCounted(l: Ledger, instrument: string, from: int, now: int)
    requires l.Valid() && forall id | id in l.orders.data :: id.instant <= now
    ensures Additions(l, instrument, from, now) == |AdditionsSince(l, instrument, from)| as real
  {
    OnesCount(l.orders.keys, l.orders.data, instrument, from, now);
    forall k | k in l.orders.data
      ensures IsAddition(l.orders.data[k], instrument, from, now) == IsAdditionSince(l.orders.data[k], instrument, from)
    {
      assert l.orders.data[k].request.id == k;
    }
    hide IsAddition, IsAdditionSince;
    assert Chosen(l.orders.keys, l.orders.data, instrument, from, now) == AdditionsSince(l, instrument, from);
  }

  /**
   * After every run, what is held of an open instrument is the shares of its filled entry, which is its one lot, and
   * of the pyramid orders filled since; their number is the plan's count, and within max_pyramid_additions.
   */
  lemma OpenPositionsAreTraced(m: Market, c: Config, f: Filters, limits: RiskLimits, histories: map<string, seq<Bar>>,
                               regime: seq<Bar>, events: seq<MarketEvent>, s: Portfolio, i: string)
    requires RunReaches(m, c, f, limits, histories, regime, events, s) && i in s.active
    ensures s.ledger.Valid() && i in m && i in s.plans
    ensures LotTraced(s.ledger, i, KeyOf(m, i), s.active[i], s.plans[i], Clock(events, 0))
    ensures |AdditionsSince(s.ledger, i, s.active[i][0].time.instant)| == s.plans[i].additions <= c.maxPyramidAdditions
  {
    hide Steady, KnownHistories, ValidMarket, ProperRun, AfterEvents, Ledger.Valid, CostAt, AddedShares, AddedCost,
         Additions, Notional;
    hide AdditionsSince, RecordsTraced, Apart, SoldBefore, Bounded;
    if |events| == 0 {
      NothingActiveAtFirst(m, c, f, limits, histories, regime, s);
      assert false;
    } else {
      var before := events[0].time.instant - 1;
      RunStaysTracked(m, c, f, limits, histories, regime, events, s, before);
      RunStaysSteady(m, c, f, limits, histories, regime, events, s, before);
      var sales :| Traced(m, s, sales, Clock(events, before));
      PyramidsAreBounded(c, f, limits, histories, regime, events);
      BoundedCounts(c, s, i);
      AdditionsAreCounted(s.ledger, i, s.active[i][0].time.instant, Clock(events, 0));
    }
  }

  lemma NothingActiveAtFirst(m: Market, c: Config, f: Filters, limits: RiskLimits, histories: map<string, seq<Bar>>,
                             regime: seq<Bar>, s: Portfolio)
    requires RunReaches(m, c, f, limits, histories, regime, [], s)
    ensures s.active == map[]
  {}

  lemma BoundedCounts(c: Config, s: Portfolio, i: string)
    requires Bounded(c, s) && i in s.plans
    ensures s.plans[i].additions <= c.maxPyramidAdditions
  {}

  // ----- Completed runs

  lemma FinalStepStaysTracked(m: Market, c: Config, s: Portfolio, time: Timestamp, p: Position, sold: set<string>)
    requires Closing(m, c, s, sold) && StillOpen(m, s.ledger, p) && p.instrument !in sold && Tracked(m, s, time.instant)
    requires s.ledger.Valid() && FinalStep(c, s, time, p).Ok?
    ensures Tracked(m, FinalStep(c, s, time, p).value, time.instant)
  {
    hide PositionKey, Holding, Booked, Sold, StillOpen, Traced, Ledger.Valid;
    var history := HistoryOf(s.histories, p.instrument);
    assert LastOf(history) in history;
    OpenIsHeld(m, s.ledger, p);
    var sales :| Traced(m, s, sales, time.instant);
    SaleStaysTraced(m, c, s, sales, LastOf(history), p.quantity, c.SellPrice(LastOf(history).close),
        OrderIdAt(p.instrument, time, KFinal));
  }

  lemma {:induction false} FinalSalesStayTracked(m: Market, c: Config, s: Portfolio, time: Timestamp,
                                                 positions: seq<Position>)
    requires Closing(m, c, s, {}) && Tracked(m, s, time.instant)
    requires OnePerInstrument(positions) && forall p | p in positions :: StillOpen(m, s.ledger, p)
    requires s.ledger.Valid() && AfterFinalSales(c, s, time, positions).Ok?
    ensures Tracked(m, AfterFinalSales(c, s, time, positions).value, time.instant)
  {
    hide FinalStep, StillOpen, OnePerInstrument, Names, Closing, Holding, Entries, Tracked;
    if |positions| > 0 {
      var init, last := positions[..|positions| - 1], positions[|positions| - 1];
      NamesSnoc(positions);
      FinalSalesStayTracked(m, c, s, time, init);
      FinalSalesClose(m, c, s, time, init);
      FinalStepStaysTracked(m, c, AfterFinalSales(c, s, time, init).value, time, last, Names(init));
    }
  }

  lemma LiquidationStaysTracked(m: Market, c: Config, s: Portfolio, time: Timestamp)
    requires s.ledger.Valid() && Steady(m, c, s, time.instant) && SpentBy(Ids(s), time.instant)
             && Tracked(m, s, time.instant)
    requires AfterFinalSales(c, s, time, OpenList(s.ledger)).Ok?
    ensures Tracked(m, AfterFinalSales(c, s, time, OpenList(s.ledger)).value, time.instant)
  {
    hide Steady, OpenList, Closing, Booked, AfterFinalSales, StillOpen, OnePerInstrument, Tracked;
    SteadyIsBooked(m, c, s, time.instant);
    SteadyIsClosing(m, c, s, time.instant);
    ListedPositionsAreOpen(m, s.ledger);
    FinalSalesStayTracked(m, c, s, time, OpenList(s.ledger));
  }

  function EntryOf(r: TradeRecord): OrderId { EntryId(r.instrument, r.entryTime) }

  /** Trades that follow each other have different entries and different sales. */
  lemma ApartMeansDistinct(l: Ledger, records: seq<TradeRecord>, pnls: seq<real>, sales: seq<OrderId>, j: int, k: int)
    requires l.orders.Valid() && RecordsTraced(l, records, pnls, sales) && Apart(records, sales)
             && 0 <= j < k < |records|
    ensures EntryOf(records[j]) != EntryOf(records[k]) && sales[j] != sales[k]
  {
    hide AddedShares, AddedCost, Notional;
    assert RecordTraced(l, records[j], pnls[j], sales[j]) && RecordTraced(l, records[k], pnls[k], sales[k]);
  }

  ghost function EntriesOf(records: seq<TradeRecord>): set<OrderId> { set r | r in records :: EntryOf(r) }

  lemma {:induction false} DistinctEntriesCount(records: seq<TradeRecord>)
    requires forall j, k | 0 <= j < k < |records| :: EntryOf(records[j]) != EntryOf(records[k])
    ensures |EntriesOf(records)| == |records|
  {
    if |records| == 0 {
      assert EntriesOf(records) == {};
    } else {
      var init, last := records[..|records| - 1], records[|records| - 1];
      assert forall k | 0 <= k < |init| :: init[k] == records[k];
      DistinctEntriesCount(init);
      assert records == init + [last];
      assert EntriesOf(records) == EntriesOf(init) + {EntryOf(last)};
      assert EntryOf(last) !in EntriesOf(init);
    }
  }

  lemma SubsetOfSameSize<T>(a: set<T>, b: set<T>)
    requires a <= b && |a| == |b|
    ensures a == b
  {
    assert b == a + (b - a);
  }

  lemma TracedEntries(l: Ledger, records: seq<TradeRecord>, pnls: seq<real>, sales: seq<OrderId>)
    requires l.orders.Valid() && RecordsTraced(l, records, pnls, sales) && Apart(records, sales)
    requires |records| == |Entries(l)|
    ensures EntriesOf(records) == Entries(l)
  {
    hide AddedShares, AddedCost, Notional, Apart;
    forall r | r in records ensures EntryOf(r) in Entries(l) {
      var k :| 0 <= k < |records| && records[k] == r;
      assert RecordTraced(l, records[k], pnls[k], sales[k]);
    }
    forall j, k | 0 <= j < k < |records| ensures EntryOf(records[j]) != EntryOf(records[k]) {
      ApartMeansDistinct(l, records, pnls, sales, j, k);
    }
    hide Entries, RecordsTraced;
    DistinctEntriesCount(records);
    SubsetOfSameSize(EntriesOf(records), Entries(l));
  }

  /**
   * In every run that completes, the trade records are the filled entries one by one: each entry has one record, one
   * sale of its own and one profit. RecordTraced says what they are: the record has the entry's fill and the sale's
   * price, the sale is of the entry's shares and all those added since, and the profit is the record's plus what the
   * additions gained.
   */
  lemma EveryEntryIsClosedOnce(m: Market, c: Config, f: Filters, limits: RiskLimits, histories: map<string, seq<Bar>>,
                               regime: seq<Bar>, events: seq<MarketEvent>, s: Portfolio) returns (sales: seq<OrderId>)
    requires ValidMarket(m) && KnownHistories(m, histories) && ProperRun(m, events)
    requires AfterRun(c, f, limits, StartPortfolio(c, histories, regime), events) == Ok(s)
    ensures s.ledger.Valid() && RecordsTraced(s.ledger, s.records, s.pnls, sales)
    ensures forall j, k | 0 <= j < k < |s.records| ::
              EntryOf(s.records[j]) != EntryOf(s.records[k]) && sales[j] != sales[k]
    ensures EntriesOf(s.records) == Entries(s.ledger)
  {
    hide Steady, Entries, OpenList, KnownHistories, ProperRun, ValidMarket, RecordsTraced, Apart, EntriesOf, EntryOf,
         LotsTraced, SoldBefore;
    hide AfterFinalSales, AfterEvents, AfterRun, TotalCommission, Sum, Ledger.Valid;
    var start := StartPortfolio(c, histories, regime);
    RunEnds(c, f, limits, start, events, s);
    var traded := AfterEvents(c, f, limits, start, events).value;
    var before := events[0].time.instant - 1;
    RunStaysSteady(m, c, f, limits, histories, regime, events, traded, before);
    RunStaysTracked(m, c, f, limits, histories, regime, events, traded, before);
    LiquidationStaysTracked(m, c, traded, LastOf(events).time);
    ClosingIdentity(m, c, f, limits, histories, regime, events, s);
    sales :| Traced(m, AfterFinalSales(c, traded, LastOf(events).time, OpenList(traded.ledger)).value, sales,
        LastOf(events).time.instant);
    OrdersAreValid(s.ledger);
    RecordsAlign(s.ledger, s.records, s.pnls, sales);
    TracedEntries(s.ledger, s.records, s.pnls, sales);
    forall j, k | 0 <= j < k < |s.records|
      ensures EntryOf(s.records[j]) != EntryOf(s.records[k]) && sales[j] != sales[k] {
      ApartMeansDistinct(s.ledger, s.records, s.pnls, sales, j, k);
    }
  }

  lemma RecordsAlign(l: Ledger, records: seq<TradeRecord>, pnls: seq<real>, sales: seq<OrderId>)
    requires l.orders.Valid() && RecordsTraced(l, records, pnls, sales)
    ensures |records| == |pnls| == |sales|
  {
    hide RecordTraced;
  }

  // ----- When a record tells the whole profit

  predicate PaidEach(o: Order, price: real) {
    FillValue(o.fills) == Notional(price, FilledQuantity(o.fills))
  }

  lemma PaidForShares(o: Order, instrument: string, from: int, to: int, price: real)
    requires IsAddition(o, instrument, from, to) ==> PaidEach(o, price)
    ensures MoneyOf(instrument, from, to)(o) == price * SharesOf(instrument, from, to)(o)
  {
    hide IsAddition, FillValue, FilledQuantity;
  }

  lemma TimesSum(x: real, a: real, b: real)
    ensures x * (a + b) == x * a + x * b
  {}

  lemma {:induction false} SamePriceSums(keys: seq<OrderId>, data: map<OrderId, Order>, instrument: string, from: int,
                                         to: int, price: real)
    requires forall k | k in keys ::
               k in data && (IsAddition(data[k], instrument, from, to) ==> PaidEach(data[k], price))
    ensures SumOf(keys, data, MoneyOf(instrument, from, to))
            == price * SumOf(keys, data, SharesOf(instrument, from, to))
  {
    hide IsAddition, PaidEach, MoneyOf, SharesOf;
    var money, shares := MoneyOf(instrument, from, to), SharesOf(instrument, from, to);
    if |keys| > 0 {
      var init, last := keys[..|keys| - 1], data[keys[|keys| - 1]];
      SamePriceSums(init, data, instrument, from, to, price);
      PaidForShares(last, instrument, from, to, price);
      TimesSum(price, SumOf(init, data, shares), shares(last));
    }
  }

  /**
   * The records name only the first lot, so what the additions gained or lost is in the profits alone. When the
   * additions of a trade were all paid at one price, its record tells the whole profit exactly if that was the exit
   * price, or nothing was added.
   */
  lemma RecordIsWholeProfitExactly(l: Ledger, r: TradeRecord, pnl: real, sale: OrderId, paid: real)
    requires l.Valid() && RecordTraced(l, r, pnl, sale)
    requires forall id | id in l.orders.data && IsAddition(l.orders.data[id], r.instrument, r.entryTime.instant,
             sale.instant) ::
               PaidEach(l.orders.data[id], paid)
    ensures r.pnl == pnl <==>
              paid == r.exitPrice || AddedShares(l, r.instrument, r.entryTime.instant, sale.instant) == 0.0
  {
    hide IsAddition, PaidEach, Notional, FilledAt;
    SamePriceSums(l.orders.keys, l.orders.data, r.instrument, r.entryTime.instant, sale.instant, paid);
    var shares := AddedShares(l, r.instrument, r.entryTime.instant, sale.instant);
    assert pnl - r.pnl == (r.exitPrice - paid) * shares;
  }
}
