/** The loop's exits, entries, additions and marks told in prices: levels, sizes, caps and equity. */
module PortfolioPrices {
  import opened Prelude
  import opened OrderedDict
  import opened Models
  import opened Strategies
  import opened Risk
  import opened PaperBroking
  import opened LedgerEffects
  import opened Indicators
  import opened IndicatorLaws
  import opened SettlementLaws
  import opened PortfolioLoop
  import opened PortfolioBooks
  import opened PortfolioSteps
  import opened PortfolioPhases
  import opened PortfolioLaws
  import opened PortfolioRanking
  import opened PortfolioSignals
  import opened PortfolioTrades
  import opened PortfolioFills
  import O = OrderManaging

  // ----- Exits at their levels

  /**
   * The level a position's stop is at: the plan's, or once the lookbacks are full the trailing one, some mean extents
   * below the highest close, when that is higher.
   */
  predicate IsStop(c: Config, plan: Plan, history: seq<Bar>, level: real) {
    if plan.trailing.Some? && |history| > 0 && Full(c.periods, history) then
      var trail := plan.highestClose - MeanExtent(history, c.periods.atr) * plan.trailing.value;
      level == if trail > plan.stopPrice then trail else plan.stopPrice
    else level == plan.stopPrice
  }

  lemma StopLevelInPrices(c: Config, s: Portfolio, plan: Plan, i: string)
    requires HighAboveLow(HistoryOf(s.histories, i))
    ensures IsStop(c, plan, HistoryOf(s.histories, i), StopLevel(c, s, plan, i))
  {
    hide MeanExtent, SnapshotFor, HighAboveLow, MeanClose;
    SnapshotInPrices(c, HistoryOf(s.histories, i));
  }

  /** The order of an exit, filled below the level it reached or the open, whichever is worse for a stop. */
  ghost predicate ExitTold(m: Market, c: Config, s: Portfolio, after: Portfolio, e: MarketEvent, i: string, b: Bar,
                           plan: Plan, level: real)
    requires i in m
  {
    var held := s.ledger.Held(KeyOf(m, i));
    if b.low <= level then
      && i !in Holding(m, after.ledger) && i !in after.plans
      && FilledBelow(after.ledger, OrderId(i, e.time.instant, KStop), held, Min(b.open, level), c.slippageRate)
    else if plan.targetPrice.Some? && b.high >= plan.targetPrice.value then
      && i !in Holding(m, after.ledger) && i !in after.plans
      && FilledBelow(after.ledger, OrderId(i, e.time.instant, KTarget), held, Max(b.open, plan.targetPrice.value),
                     c.slippageRate)
    else
      && i in Holding(m, after.ledger) && after.ledger.Held(KeyOf(m, i)) == held && i in after.plans
      && after.plans[i] == plan.(highestClose := if plan.trailing.Some? && b.close > plan.highestClose then b.close
                                                 else plan.highestClose)
  }

  lemma SoldWholeTells(m: Market, c: Config, s: Portfolio, after: Portfolio, b: Bar, id: OrderId, quote: real)
    requires b.instrument in m && SoldWhole(m, c, s, after, b, id, quote)
    ensures b.instrument !in Holding(m, after.ledger) && b.instrument !in after.plans
    ensures FilledBelow(after.ledger, id, s.ledger.Held(KeyOf(m, b.instrument)), quote, c.slippageRate)
  {
    hide Holding, PositionKey;
  }

  lemma ExitStepTold(m: Market, c: Config, s: Portfolio, e: MarketEvent, p: Position, b: Bar, acted: set<string>,
                     exited: set<string>)
    requires Steady(m, c, s, e.time.instant) && ProperEvent(m, e)
    requires StillOpen(m, s.ledger, p) && p.instrument !in exited
    requires Spent(Ids(s), e.time.instant, acted, exited)
    requires s.ledger.Valid() && ExitStep(c, s, e, p).Ok? && BarOf(e.bars, p.instrument) == Some(b)
    requires p.instrument in s.plans
    ensures p.instrument in m
    ensures ExitTold(m, c, s, ExitStep(c, s, e, p).value, e, p.instrument, b, s.plans[p.instrument],
                     StopLevel(c, s, s.plans[p.instrument], p.instrument))
  {
    hide PositionKey, Holding, SoldOut, Spent, Steady, BarOf, StopLevel, Booked, Min, Max, FilledBelow, SoldWhole,
         Config.SellPrice, Ledger.Valid, Ledger.Held;
    BarOfFinds(e.bars, p.instrument);
    FreshExit(Ids(s), e, acted, exited, p.instrument, KStop);
    FreshExit(Ids(s), e, acted, exited, p.instrument, KTarget);
    SteadyIsBooked(m, c, s, e.time.instant);
    var plan := s.plans[p.instrument];
    var stop := StopLevel(c, s, plan, p.instrument);
    var after := ExitStep(c, s, e, p).value;
    if b.low <= stop {
      WholeSale(m, c, s, b, p.quantity, Min(b.open, stop), OrderIdAt(p.instrument, e.time, KStop));
      SoldWholeTells(m, c, s, after, b, OrderIdAt(p.instrument, e.time, KStop), Min(b.open, stop));
    } else if plan.targetPrice.Some? && b.high >= plan.targetPrice.value {
      WholeSale(m, c, s, b, p.quantity, Max(b.open, plan.targetPrice.value),
                OrderIdAt(p.instrument, e.time, KTarget));
      SoldWholeTells(m, c, s, after, b, OrderIdAt(p.instrument, e.time, KTarget),
                     Max(b.open, plan.targetPrice.value));
    } else {
      HigherOf(plan.highestClose, b.close);
    }
  }

  lemma HigherOf(a: real, b: real)
    ensures Max(a, b) == if b > a then b else a
  {}

  /** One exit step leaves every other instrument as it was. */
  ghost predicate OthersStay(m: Market, s: Portfolio, after: Portfolio, k: string) {
    && after.histories == s.histories
    && (forall x | x in s.ledger.orders.data :: x in after.ledger.orders.data &&
                                                after.ledger.orders.data[x] == s.ledger.orders.data[x])
    && (forall j | j != k :: (j in Holding(m, after.ledger) <==> j in Holding(m, s.ledger)) &&
                             (j in after.plans <==> j in s.plans) && (j in s.plans ==> after.plans[j] == s.plans[j]))
    && forall p: Position :: StillOpen(m, s.ledger, p) && p.instrument != k ==> StillOpen(m, after.ledger, p)
  }

  lemma ExitStepSparesOthers(m: Market, c: Config, s: Portfolio, e: MarketEvent, p: Position, acted: set<string>,
                             exited: set<string>)
    requires Steady(m, c, s, e.time.instant) && ProperEvent(m, e)
    requires StillOpen(m, s.ledger, p) && p.instrument !in exited
    requires Spent(Ids(s), e.time.instant, acted, exited)
    requires s.ledger.Valid() && ExitStep(c, s, e, p).Ok?
    ensures OthersStay(m, s, ExitStep(c, s, e, p).value, p.instrument)
  {
    hide PositionKey, Holding, ExitStep, Spent, Steady, StillOpen, Exits;
    ExitStepIsWell(m, c, s, e, p, acted, exited);
    ExitStepIsExact(m, c, s, e, p, acted, exited);
    ExitStepOrders(c, s, e, p);
    ExitStepKeepsOpen(m, c, s, e, p, acted, exited);
  }

  lemma ExitStepKeepsOpen(m: Market, c: Config, s: Portfolio, e: MarketEvent, p: Position, acted: set<string>,
                          exited: set<string>)
    requires Steady(m, c, s, e.time.instant) && ProperEvent(m, e)
    requires StillOpen(m, s.ledger, p) && p.instrument !in exited
    requires Spent(Ids(s), e.time.instant, acted, exited)
    requires s.ledger.Valid() && ExitStep(c, s, e, p).Ok?
    ensures forall q: Position :: StillOpen(m, s.ledger, q) && q.instrument != p.instrument ==>
              StillOpen(m, ExitStep(c, s, e, p).value.ledger, q)
  {
    hide PositionKey, Holding, SoldOut, Spent, Steady, BarOf, StopLevel, StillOpen, Config.SellPrice, Min, Max;
    OpenFacts(m, s.ledger, p);
    BarOfFinds(e.bars, p.instrument);
    FreshExit(Ids(s), e, acted, exited, p.instrument, KStop);
    FreshExit(Ids(s), e, acted, exited, p.instrument, KTarget);
    var bar := BarOf(e.bars, p.instrument);
    if bar.Some? && p.instrument in s.plans {
      var plan := s.plans[p.instrument];
      var stop := StopLevel(c, s, plan, p.instrument);
      if bar.value.low <= stop {
        SellingOutIsSteady(m, c, s, e.time.instant, bar.value, p.quantity, c.SellPrice(Min(bar.value.open, stop)),
                           OrderIdAt(p.instrument, e.time, KStop));
      } else if plan.targetPrice.Some? && bar.value.high >= plan.targetPrice.value {
        SellingOutIsSteady(m, c, s, e.time.instant, bar.value, p.quantity,
                           c.SellPrice(Max(bar.value.open, plan.targetPrice.value)),
                           OrderIdAt(p.instrument, e.time, KTarget));
      }
    }
  }

  lemma OpenFacts(m: Market, l: Ledger, p: Position)
    requires StillOpen(m, l, p)
    ensures p.instrument in m && p.instrument in Holding(m, l) && p.quantity == l.Held(KeyOf(m, p.instrument))
  {}

  lemma ToldStays(m: Market, c: Config, s: Portfolio, before: Portfolio, after: Portfolio, e: MarketEvent, i: string,
                  b: Bar, plan: Plan, level: real, k: string)
    requires i in m && ExitTold(m, c, s, before, e, i, b, plan, level)
    requires OthersStay(m, before, after, k) && i != k
    ensures ExitTold(m, c, s, after, e, i, b, plan, level)
  {
    hide PositionKey, Min, Max, Holding;
    if i in Holding(m, before.ledger) {
      var p := Position(i, "", before.ledger.Held(KeyOf(m, i)), 0.0);
      assert StillOpen(m, before.ledger, p);
    }
  }

  /** An exit phase so far has left an instrument alone. */
  ghost predicate StillThere(m: Market, s: Portfolio, before: Portfolio, i: string) {
    && before.histories == s.histories && (i in before.plans <==> i in s.plans)
    && (i in s.plans ==> before.plans[i] == s.plans[i])
    && (i in m && i in Holding(m, s.ledger) ==> before.ledger.Held(KeyOf(m, i)) == s.ledger.Held(KeyOf(m, i)))
    && (i in Holding(m, before.ledger) <==> i in Holding(m, s.ledger))
  }

  lemma SpareStaysThere(m: Market, s: Portfolio, before: Portfolio, after: Portfolio, k: string, i: string)
    requires StillThere(m, s, before, i) && OthersStay(m, before, after, k) && i != k
    ensures StillThere(m, s, after, i)
  {
    hide PositionKey, Holding;
    if i in Holding(m, before.ledger) && i in m {
      var p := Position(i, "", before.ledger.Held(KeyOf(m, i)), 0.0);
      assert StillOpen(m, before.ledger, p);
    }
  }

  lemma SameTold(m: Market, c: Config, s: Portfolio, before: Portfolio, after: Portfolio, e: MarketEvent, i: string,
                 b: Bar)
    requires i in m && i in s.plans && StillThere(m, s, before, i) && i in Holding(m, s.ledger)
    requires ExitTold(m, c, before, after, e, i, b, before.plans[i], StopLevel(c, before, before.plans[i], i))
    ensures ExitTold(m, c, s, after, e, i, b, s.plans[i], StopLevel(c, s, s.plans[i], i))
  {
    hide PositionKey, Min, Max, Holding, SnapshotFor, FilledBelow;
  }

  /** What the exit phase does to one instrument: told at its turn, and left alone otherwise. */
  ghost predicate PhaseTold(m: Market, c: Config, s: Portfolio, after: Portfolio, e: MarketEvent, i: string, b: Bar,
                            listed: bool)
    requires i in m && i in s.plans
  {
    if listed then ExitTold(m, c, s, after, e, i, b, s.plans[i], StopLevel(c, s, s.plans[i], i))
    else StillThere(m, s, after, i)
  }

  lemma {:induction false} ExitsTold(m: Market, c: Config, s: Portfolio, e: MarketEvent, positions: seq<Position>,
                                     acted: set<string>, i: string, b: Bar)
    requires Steady(m, c, s, e.time.instant) && ProperEvent(m, e)
    requires OnePerInstrument(positions) && forall p | p in positions :: StillOpen(m, s.ledger, p)
    requires Spent(Ids(s), e.time.instant, acted, {})
    requires s.ledger.Valid() && AfterExits(c, s, e, positions).Ok?
    requires i in m && i in s.plans && i in Holding(m, s.ledger) && BarOf(e.bars, i) == Some(b)
    ensures PhaseTold(m, c, s, AfterExits(c, s, e, positions).value, e, i, b, i in Names(positions))
  {
    hide Spent, Steady, ExitStep, StillOpen, OnePerInstrument, Names, Holding, ExitTold, StillThere, OthersStay, BarOf,
         StopLevel, Ledger.Valid, ProperEvent;
    if |positions| == 0 {
      NoNames(positions);
      NobodyLeft(m, s, i);
    } else {
      var init, last := positions[..|positions| - 1], positions[|positions| - 1];
      NamesSnoc(positions);
      ExitsTold(m, c, s, e, init, acted, i, b);
      ExitsAreWell(m, c, s, e, init, acted);
      var before := AfterExits(c, s, e, init).value;
      var after := ExitStep(c, before, e, last).value;
      ExitStepSparesOthers(m, c, before, e, last, acted, Names(init));
      if i == last.instrument {
        ThereInPlans(m, s, before, i);
        ExitStepTold(m, c, before, e, last, b, acted, Names(init));
        SameTold(m, c, s, before, after, e, i, b);
      } else if i in Names(init) {
        ToldStays(m, c, s, before, after, e, i, b, s.plans[i], StopLevel(c, s, s.plans[i], i), last.instrument);
      } else {
        SpareStaysThere(m, s, before, after, last.instrument, i);
      }
    }
  }

  lemma NobodyLeft(m: Market, s: Portfolio, i: string)
    ensures StillThere(m, s, s, i)
  {
    hide Holding;
  }

  lemma ThereInPlans(m: Market, s: Portfolio, before: Portfolio, i: string)
    requires StillThere(m, s, before, i)
    ensures i in before.plans <==> i in s.plans
  {
    hide Holding;
  }

  /** What an event's exits act on: the portfolio after its pending actions. */
  function Acted(c: Config, limits: RiskLimits, s: Portfolio, e: MarketEvent): (r: Portfolio)
    requires s.ledger.Valid() && Traded(c, limits, s, e).Ok?
    ensures r.ledger.Valid()
  {
    var u := BeforePending(c, limits, s, e);
    AfterPending(c, limits, u, e, u.pending.keys).value
  }

  lemma HistoryReadByExits(m: Market, c: Config, limits: RiskLimits, s: Portfolio, e: MarketEvent, last: int, b: Bar)
    requires Steady(m, c, s, last) && ProperEvent(m, e) && last < e.time.instant && SpentBy(Ids(s), last)
    requires s.ledger.Valid() && Traded(c, limits, s, e).Ok? && b in e.bars
    ensures HistoryOf(Acted(c, limits, s, e).histories, b.instrument) == HistoryOf(s.histories, b.instrument) + [b]
  {
    hide Steady, Ledger.Valid, AfterMark, EquityAtPrices, OpenList, AfterPending, AfterExits, AfterReset, AppendBars,
         BarOf;
    var u := BeforePending(c, limits, s, e);
    PendingIsPopped(c, limits, u, e, u.pending.keys, "");
    BarsAreAppended(s.histories, e.bars);
  }

  /**
   * In every event of a run, a position with a bar leaves exactly when the bar's low is at or below its stop, or else
   * its high at or above its target; the sale fills below the worse of the open and the stop, or the better of the
   * open and the target. A position that stays has its highest close raised when its stop trails.
   */
  lemma ExitsHappenAtLevels(m: Market, c: Config, limits: RiskLimits, s: Portfolio, e: MarketEvent, last: int, b: Bar)
    requires Steady(m, c, s, last) && ProperEvent(m, e) && last < e.time.instant && SpentBy(Ids(s), last)
    requires s.ledger.Valid() && Traded(c, limits, s, e).Ok? && b in e.bars
    requires HighAboveLow(HistoryOf(s.histories, b.instrument) + [b])
    ensures var acted, i := Acted(c, limits, s, e), b.instrument;
            i in Holding(m, acted.ledger) ==>
              && i in m && i in acted.plans
              && exists level :: IsStop(c, acted.plans[i], HistoryOf(s.histories, i) + [b], level) &&
                   ExitTold(m, c, acted, Traded(c, limits, s, e).value, e, i, b, acted.plans[i], level)
  {
    hide Steady, ProperEvent, Visible, OpenList, AfterPending, AfterExits, Spent, SpentBy, Holding, Marked, CooledDown,
         Ledger.Valid, OnePerInstrument, StillOpen, Names, ExitTold, IsStop, StopLevel, HighAboveLow, BarOf, AppendBars;
    var i := b.instrument;
    var u, acted := BeforePending(c, limits, s, e), Acted(c, limits, s, e);
    BeforePendingIsSteady(m, c, limits, s, e, last);
    PendingActsWell(m, c, limits, u, e, u.pending.keys);
    SteadyIsBooked(m, c, acted, e.time.instant);
    ListedPositionsAreOpen(m, acted.ledger);
    if i in Holding(m, acted.ledger) {
      BarIsListed(m, e, b);
      PlannedWhenHeld(m, c, acted, e.time.instant, i);
      FinalNamesAreHeld(m, acted.ledger);
      ExitsTold(m, c, acted, e, OpenList(acted.ledger), (set k | k in u.pending.keys), i, b);
      HistoryReadByExits(m, c, limits, s, e, last, b);
      StopLevelInPrices(c, acted, acted.plans[i], i);
      assert IsStop(c, acted.plans[i], HistoryOf(s.histories, i) + [b], StopLevel(c, acted, acted.plans[i], i));
    }
  }

  lemma BarIsListed(m: Market, e: MarketEvent, b: Bar)
    requires ProperEvent(m, e) && b in e.bars
    ensures b.instrument in m && BarOf(e.bars, b.instrument) == Some(b)
  {
    BarOfIsTheBar(e.bars, b);
  }

  lemma PlannedWhenHeld(m: Market, c: Config, s: Portfolio, now: int, i: string)
    requires Steady(m, c, s, now) && i in Holding(m, s.ledger)
    ensures i in s.plans
  {
    hide Holding, Booked, KnownHistories, BuyKeys, Paced;
  }

  // ----- The final sales

  /** What is open after the last event is sold a slippage below its last close. */
  lemma FinalSaleTold(m: Market, c: Config, s: Portfolio, time: Timestamp, p: Position)
    requires Booked(m, c, s) && KnownHistories(m, s.histories) && StillOpen(m, s.ledger, p)
    requires OrderIdAt(p.instrument, time, KFinal) !in s.ledger.orders.data
    requires s.ledger.Valid() && FinalStep(c, s, time, p).Ok?
    ensures var history, after := HistoryOf(s.histories, p.instrument), FinalStep(c, s, time, p).value;
            && |history| > 0 && LastOf(history).instrument == p.instrument && p.instrument in m
            && SoldAll(m, c, s, after, LastOf(history), OrderId(p.instrument, time.instant, KFinal),
                       LastOf(history).close)
  {
    hide PositionKey, Holding, Sold, Booked, SoldAll, Config.SellPrice, Ledger.Valid, Ledger.Held;
    var history := HistoryOf(s.histories, p.instrument);
    assert LastOf(history) in history;
    WholePosition(m, c, s, LastOf(history), p.quantity, LastOf(history).close,
                  OrderIdAt(p.instrument, time, KFinal));
  }

  // ----- Equity

  /** What a position is worth at the last open, or the last close, of its instrument. */
  function ValueOf(p: Position, histories: map<string, seq<Bar>>, atOpen: bool): real {
    var history := HistoryOf(histories, p.instrument);
    if |history| == 0 then 0.0
    else (if atOpen then history[|history| - 1].open else history[|history| - 1].close) * p.quantity as real
  }

  function Values(positions: seq<Position>, histories: map<string, seq<Bar>>, atOpen: bool): seq<real> {
    seq(|positions|, k requires 0 <= k < |positions| => ValueOf(positions[k], histories, atOpen))
  }

  lemma {:induction false} PositionsValueIsSum(positions: seq<Position>, histories: map<string, seq<Bar>>, atOpen: bool)
    ensures PositionsValue(positions, histories, atOpen) == Sum(Values(positions, histories, atOpen))
  {
    hide HistoryOf, ValueOf;
    if |positions| > 0 {
      var init, last := positions[..|positions| - 1], positions[|positions| - 1];
      PositionsValueIsSum(init, histories, atOpen);
      assert Values(positions, histories, atOpen)[..|init|] == Values(init, histories, atOpen);
      LastValue(positions, histories, atOpen);
    }
  }

  lemma LastValue(positions: seq<Position>, histories: map<string, seq<Bar>>, atOpen: bool)
    requires |positions| > 0
    ensures PositionsValue(positions, histories, atOpen)
         == PositionsValue(positions[..|positions| - 1], histories, atOpen) +
            ValueOf(positions[|positions| - 1], histories, atOpen)
  {}

  /** The cash, and what every open position is worth. */
  function WorthAt(l: Ledger, histories: map<string, seq<Bar>>, atOpen: bool): real
    requires l.Valid()
  {
    l.cash + Sum(Values(OpenList(l), histories, atOpen))
  }

  lemma EquityIsWorth(l: Ledger, histories: map<string, seq<Bar>>, atOpen: bool)
    requires l.Valid()
    ensures EquityAtPrices(l, histories, atOpen) == WorthAt(l, histories, atOpen)
  {
    hide Values, PositionsValue, OpenList, Sum;
    PositionsValueIsSum(OpenList(l), histories, atOpen);
  }

  lemma ScanKeepsBookkeeping(m: Market, c: Config, f: Filters, t: Portfolio, e: MarketEvent)
    requires t.ledger.Valid() && Steady(m, c, t, e.time.instant) && ProperEvent(m, e) && Visible(t, e)
    ensures var u := Scheduled(c, f, t, e);
            && u.curve == t.curve && u.histories == t.histories && u.ledger == t.ledger && u.risk == t.risk
            && u.universe == BeforeScan(c, f, t, e).universe && u.lastRebalance == BeforeScan(c, f, t, e).lastRebalance
  {
    hide Steady, OpenList, AfterPyramids, Scanned, Holding, Schedule, Slots, SortCandidates, ProperEvent, Visible;
    var s := BeforeScan(c, f, t, e);
    BeforeScanPends(m, c, f, t, e, "");
    BarsAreListed(m, e);
    BarsAreLast(t, s, e);
    ScanActs(m, c, f, s, e.bars, f.regime(s.regime), e.time.instant);
    var scan := Scanned(c, f, s, e.bars, f.regime(s.regime));
    var pruned := WithPruning(c, scan.portfolio, e);
    var ranked := SortCandidates(scan.candidates);
    ScheduleOnlyPends(pruned, ranked[..MinInt(Slots(c, pruned), |ranked|)]);
  }

  lemma {:induction false} ScheduleOnlyPends(s: Portfolio, candidates: seq<Candidate>)
    ensures Schedule(s, candidates) == s.(pending := Schedule(s, candidates).pending)
  {
    if |candidates| > 0 {
      ScheduleOnlyPends(s, candidates[..|candidates| - 1]);
    }
  }

  /**
   * Each event marks the risk engine with the cash and the positions at the current opens, before anything trades, and
   * adds one point to the curve: the cash and the positions at the current closes, after everything has.
   */
  lemma EventIsMarked(m: Market, c: Config, f: Filters, limits: RiskLimits, s: Portfolio, e: MarketEvent, last: int)
    requires Steady(m, c, s, last) && ProperEvent(m, e) && last < e.time.instant && SpentBy(Ids(s), last)
    requires s.ledger.Valid() && AfterEvent(c, f, limits, s, e).Ok?
    ensures var a, histories := AfterEvent(c, f, limits, s, e).value, AppendBars(s.histories, e.bars);
            && AfterMark(limits, s.risk, WorthAt(s.ledger, histories, true), e.time).Ok?
            && Marked(limits, WithBars(s, e), e)
               == Ok(WithBars(s, e).(
                       risk := AfterMark(limits, s.risk, WorthAt(s.ledger, histories, true), e.time).value))
            && a.histories == histories && a.curve == s.curve + [WorthAt(a.ledger, histories, false)]
  {
    hide Steady, Visible, OpenList, Traded, Scheduled, AfterMark, WorthAt, EquityAtPrices, AppendBars, Ledger.Valid,
         ProperEvent;
    TradingKeepsSteady(m, c, limits, s, e, last);
    SteadyPends(m, c, s, last);
    TradingPends(c, limits, s, e, "");
    var t := Traded(c, limits, s, e).value;
    ScanKeepsBookkeeping(m, c, f, t, e);
    EquityIsWorth(s.ledger, AppendBars(s.histories, e.bars), true);
    EquityIsWorth(t.ledger, t.histories, false);
    TradedIsMarked(c, limits, s, e);
  }

  lemma TradedIsMarked(c: Config, limits: RiskLimits, s: Portfolio, e: MarketEvent)
    requires s.ledger.Valid() && Traded(c, limits, s, e).Ok?
    ensures Marked(limits, WithBars(s, e), e).Ok?
  {
    hide Marked, CooledDown, AfterPending, AfterExits, OpenList;
  }

  /**
   * Every so many events, counted by the points of the curve, the universe is ranked anew on the histories that include
   * the event's own bars, and the count starts again.
   */
  lemma UniverseIsRebalanced(m: Market, c: Config, f: Filters, limits: RiskLimits, s: Portfolio, e: MarketEvent,
                             last: int)
    requires Steady(m, c, s, last) && ProperEvent(m, e) && last < e.time.instant && SpentBy(Ids(s), last)
    requires s.ledger.Valid() && AfterEvent(c, f, limits, s, e).Ok?
    ensures var a, index := AfterEvent(c, f, limits, s, e).value, |s.curve| - 1;
            if index - s.lastRebalance >= c.universeRebalanceDays
            then a.universe == f.rank(AppendBars(s.histories, e.bars), e.time) && a.lastRebalance == index
            else a.universe == s.universe && a.lastRebalance == s.lastRebalance
  {
    hide Steady, Visible, OpenList, Traded, Scheduled, AppendBars, Ledger.Valid, ProperEvent, EquityAtPrices;
    TradingKeepsSteady(m, c, limits, s, e, last);
    SteadyPends(m, c, s, last);
    TradingPends(c, limits, s, e, "");
    var t := Traded(c, limits, s, e).value;
    ScanKeepsBookkeeping(m, c, f, t, e);
    PyramidsOnlyPend(c, t, e, OpenList(t.ledger));
  }

  /** The first event of a run ranks the universe. */
  lemma FirstEventRanks(m: Market, c: Config, f: Filters, limits: RiskLimits, histories: map<string, seq<Bar>>,
                        regime: seq<Bar>, e: MarketEvent)
    requires ValidMarket(m) && KnownHistories(m, histories) && ProperEvent(m, e)
    requires AfterEvent(c, f, limits, StartPortfolio(c, histories, regime), e).Ok?
    ensures var a := AfterEvent(c, f, limits, StartPortfolio(c, histories, regime), e).value;
            a.universe == f.rank(AppendBars(histories, e.bars), e.time) && a.lastRebalance == 0
  {
    hide Steady, AfterEvent, AppendBars, ProperEvent, ValidMarket, KnownHistories;
    var start := StartPortfolio(c, histories, regime);
    StartIsSteady(m, c, histories, regime, e.time.instant - 1);
    UniverseIsRebalanced(m, c, f, limits, start, e, e.time.instant - 1);
  }

  // ----- The cooldown

  /**
   * With a cooldown of so many days the switch is reset exactly when it is tripped and was first seen tripped at least
   * that many days of 86400 seconds before; the clock starts when a trip is first seen and stops when it is over.
   */
  lemma CooldownTold(c: Config, s: Portfolio, e: MarketEvent)
    ensures var after := CooledDown(c, s, e);
            if c.cooldownDays.None? then after == s
            else if !s.risk.tripped then after == s.(triggeredAt := None)
            else if s.triggeredAt.None? then after == s.(triggeredAt := Some(e.time.instant))
            else if e.time.instant - s.triggeredAt.value < c.cooldownDays.value * 86400 then after == s
            else
              && after == s.(risk := after.risk, triggeredAt := None, resets := s.resets + 1)
              && !after.risk.tripped && after.risk.reason.None?
              && (s.risk.current.Some? ==> after.risk.peak == s.risk.current)
  {
    if c.cooldownDays.Some? && s.risk.tripped && s.triggeredAt.Some? {
      ReasonIsNotBlank();
      DaysPassed(e.time.instant - s.triggeredAt.value, c.cooldownDays.value);
    }
    hide Blank, Strip;
  }

  lemma DaysPassed(seconds: int, days: int)
    ensures seconds / SECONDS_PER_DAY >= days <==> seconds >= days * 86400
  {}

  lemma ReasonIsNotBlank()
    ensures !Blank(COOLDOWN_REASON)
  {
    BlankIsAllSpace(COOLDOWN_REASON);
    assert COOLDOWN_REASON[0] == 'b' && COOLDOWN_REASON[0] in COOLDOWN_REASON;
  }

  // ----- Entries

  lemma SlippedUp(c: Config, price: real)
    ensures c.BuyPrice(price) == price * (1.0 + c.slippageRate)
  {}

  lemma FractionIs(close: real, stop: real, fraction: real)
    requires close > 0.0 && fraction * close == close - stop
    ensures (close - stop) / close == fraction
  {
    Quotient(close - stop, close, fraction);
  }

  /** A position opened: bought for this price, with the candidate's plan, one lot, and its time in the window. */
  ghost predicate Opened(c: Config, s: Portfolio, after: Portfolio, b: Bar, x: Candidate, e: MarketEvent, price: real,
                         quantity: int) {
    && after == s.(ledger := after.ledger, plans := after.plans, active := after.active,
                   recentEntries := s.recentEntries + [e.time.instant])
    && after.plans
       == s.plans[b.instrument := Plan(x.stopPrice, x.targetPrice, x.technical.close, c.trailingMultiple, 0)]
    && b.instrument in after.active && |after.active[b.instrument]| == 1
    && after.active == s.active[b.instrument := after.active[b.instrument]]
    && var lot := after.active[b.instrument][0];
       lot.time == e.time && lot.price == price && lot.quantity == quantity
  }

  lemma FillAverage(fills: seq<Fill>)
    requires |fills| == 1 && fills[0].quantity > 0
    ensures FilledQuantity(fills) == fills[0].quantity
    ensures FillValue(fills) / FilledQuantity(fills) as real == fills[0].price
  {
    assert fills[..0] == [];
    assert FillValue(fills) == Notional(fills[0].price, fills[0].quantity);
    ValuePerShare(fills[0].price, fills[0].quantity);
  }

  lemma FilledEntryOpens(c: Config, s: Portfolio, b: Bar, x: Candidate, outcome: O.Outcome, after: Ledger,
                         e: MarketEvent, price: real)
    requires b.instrument !in s.active && outcome.order.Some? && |outcome.order.value.fills| == 1
    requires outcome.order.value.fills[0].quantity > 0 && outcome.order.value.fills[0].price == price
    ensures Opened(c, s, WithEntry(c, s, b, x, outcome, after, e), b, x, e, price,
                   outcome.order.value.fills[0].quantity)
    ensures WithEntry(c, s, b, x, outcome, after, e).ledger == after
  {
    FillAverage(outcome.order.value.fills);
  }

  lemma BoughtFillIs(l: Ledger, after: Ledger, request: OrderRequest, price: real, time: Timestamp)
    requires Buys(l, after, request, price, time)
    ensures request.id in after.orders.data && |after.orders.data[request.id].fills| == 1
    ensures after.orders.data[request.id].fills[0].price == price
    ensures after.orders.data[request.id].fills[0].quantity == request.quantity > 0
    ensures after.orders.data[request.id].request == request
  {
    hide PositionKey, Joins;
  }

  /**
   * A pending entry buys exactly when the gate is open and one share fits the bounds: as many shares as fit, at the
   * open plus slippage, risking the distance from the candidate's close to its stop. Otherwise nothing moves.
   */
  lemma EntryTold(m: Market, c: Config, limits: RiskLimits, s: Portfolio, b: Bar, x: Candidate, e: MarketEvent,
                  price: real, fraction: real)
    requires Booked(m, c, s) && s.ledger.Valid() && b.instrument !in s.active && !Blank(b.instrument)
    requires OrderIdAt(b.instrument, e.time, KBuy) !in Ids(s)
    requires price == b.open * (1.0 + c.slippageRate) && price > 0.0
    requires x.technical.close > x.stopPrice > 0.0 && fraction * x.technical.close == x.technical.close - x.stopPrice
    requires fraction > 0.0
    ensures var equity, id := WorthAt(s.ledger, s.histories, true), OrderId(b.instrument, e.time.instant, KBuy);
            var a := O.BuyArgs(id, b.instrument, b.exchange, equity, price, fraction, c.initialCapital,
                               c.commissionRate, e.time, None, c.sizeByWeight);
            var r := Entered(c, limits, s, b, x, e);
            && r.Ok?
            && if MayOpen(limits, s.risk, equity, O.OpenPositions(s.ledger)) && Allowed(limits, s.ledger.cash, a, 1)
               then
                 && id in r.value.ledger.orders.data
                 && var q := r.value.ledger.orders.data[id].request.quantity;
                    && GreatestAllowed(limits, s.ledger.cash, a, q)
                    && Buys(s.ledger, r.value.ledger, OrderRequest(id, b.instrument, b.exchange, BUY, q), price, e.time)
                    && Opened(c, s, r.value, b, x, e, price, q)
               else r.value == s
  {
    hide Booked, O.AfterBuySubmission, WorthAt, EquityAtPrices, Allowed, GreatestAllowed, MayOpen, Buys, Opened,
         O.OpenPositions, WithEntry, Config.BuyPrice, Blank, Ledger.Valid;
    BookedRate(m, c, s);
    EquityIsWorth(s.ledger, s.histories, true);
    SlippedUp(c, b.open);
    FractionIs(x.technical.close, x.stopPrice, fraction);
    var a := EntryArgs(c, s, b, x, e);
    assert a.fillPrice == price && a.stopFraction == fraction && a.equity == WorthAt(s.ledger, s.histories, true);
    GatedBuySettles(limits, s.ledger, s.risk, a);
    var (after, outcome) := O.AfterBuySubmission(limits, s.ledger, s.risk, a).value;
    if outcome.submitted {
      var q := after.orders.data[a.id].request.quantity;
      BoughtFillIs(s.ledger, after, OrderRequest(a.id, b.instrument, b.exchange, BUY, q), price, e.time);
      FilledEntryOpens(c, s, b, x, outcome, after, e, price);
    }
  }

  // ----- Additions

  /** The cap of an addition: the whole shares in a fraction of what is held, but at least one. */
  predicate IsCap(held: int, fraction: real, cap: int) {
    cap >= 1 && (cap == 1 || cap as real <= held as real * fraction) && (cap + 1) as real > held as real * fraction
  }

  lemma LimitIsCap(c: Config, held: int)
    requires held > 0
    ensures IsCap(held, c.pyramidFraction, PyramidLimit(c, held))
  {
    NonNegativeProduct(held as real, c.pyramidFraction);
  }

  /** The share of the highest close an addition risks: down to the plan's stop, and at least one percent. */
  predicate IsAdditionRisk(plan: Plan, fraction: real) {
    var distance := plan.highestClose - plan.stopPrice;
    if distance >= 0.01 * plan.highestClose then fraction * plan.highestClose == distance else fraction == 0.01
  }

  lemma AdditionRisk(plan: Plan)
    requires plan.highestClose > 0.0
    ensures IsAdditionRisk(plan, Max((plan.highestClose - plan.stopPrice) / plan.highestClose, 0.01))
    ensures Max((plan.highestClose - plan.stopPrice) / plan.highestClose, 0.01) > 0.0
  {
    QuotientBound(plan.highestClose - plan.stopPrice, plan.highestClose, 0.01);
  }

  /**
   * A pending addition buys exactly when the gate is open and one share fits the bounds and the cap: as many as fit,
   * at the open plus slippage, and the plan counts one more. Otherwise nothing moves.
   */
  lemma AdditionTold(m: Market, c: Config, limits: RiskLimits, s: Portfolio, b: Bar, p: Position, e: MarketEvent,
                     price: real)
    returns (fraction: real, cap: int)
    requires Booked(m, c, s) && s.ledger.Valid() && !Blank(b.instrument) && p.quantity > 0
    requires OrderIdAt(b.instrument, e.time, KPyramid) !in Ids(s)
    requires price == b.open * (1.0 + c.slippageRate) && price > 0.0
    requires b.instrument in s.plans && s.plans[b.instrument].highestClose > 0.0
    ensures IsCap(p.quantity, c.pyramidFraction, cap) && IsAdditionRisk(s.plans[b.instrument], fraction)
    ensures var equity, id := WorthAt(s.ledger, s.histories, true), OrderId(b.instrument, e.time.instant, KPyramid);
            var a := O.BuyArgs(id, b.instrument, b.exchange, equity, price, fraction, c.initialCapital,
                               c.commissionRate, e.time, Some(cap), false);
            var plan, r := s.plans[b.instrument], Pyramided(c, limits, s, b, p, e);
            && r.Ok?
            && if MayOpen(limits, s.risk, equity, O.OpenPositions(s.ledger)) && Allowed(limits, s.ledger.cash, a, 1)
               then
                 && id in r.value.ledger.orders.data
                 && var q := r.value.ledger.orders.data[id].request.quantity;
                    && GreatestAllowed(limits, s.ledger.cash, a, q)
                    && Buys(s.ledger, r.value.ledger, OrderRequest(id, b.instrument, b.exchange, BUY, q), price, e.time)
                    && r.value == s.(ledger := r.value.ledger,
                                     plans := s.plans[b.instrument := plan.(additions := plan.additions + 1)])
               else r.value == s
  {
    hide Booked, O.AfterBuySubmission, WorthAt, EquityAtPrices, Allowed, GreatestAllowed, MayOpen, Buys,
         O.OpenPositions, Config.BuyPrice, Blank, Ledger.Valid, IsCap, IsAdditionRisk, PyramidLimit, Max;
    BookedRate(m, c, s);
    EquityIsWorth(s.ledger, s.histories, true);
    SlippedUp(c, b.open);
    var plan := s.plans[b.instrument];
    AdditionRisk(plan);
    LimitIsCap(c, p.quantity);
    var a := PyramidArgs(c, s, b, p, plan, e);
    fraction, cap := a.stopFraction, a.maxQuantity.value;
    assert a.fillPrice == price && a.equity == WorthAt(s.ledger, s.histories, true);
    GatedBuySettles(limits, s.ledger, s.risk, a);
  }

  // ----- Places

  /** There is room for so many more: within the capacity and, with pacing, within the window. */
  ghost predicate HasPlaces(c: Config, held: nat, buys: nat, recent: nat, n: nat) {
    && held + buys + n <= c.maxPositions
    && (c.maxNewEntries.Some? ==> recent + buys + n <= c.maxNewEntries.value)
  }

  /** The slots of a scan are the most that there is room for. */
  lemma SlotsAreTheRoom(m: Market, c: Config, s: Portfolio, now: int, n: nat)
    requires Steady(m, c, s, now) && s.ledger.Valid() && n > 0
    ensures n <= Slots(c, s) <==>
            HasPlaces(c, |Holding(m, s.ledger)|, |BuyKeys(s.pending)|, |s.recentEntries|, n)
  {
    hide Steady, Holding, BuyKeys, OpenInstruments, OpenList;
    SteadyIsBooked(m, c, s, now);
    OpenInstrumentsAreHeld(m, s.ledger);
  }

  /** Pruning drops the leading entries that are older than the window, and stops at the first that is not. */
  lemma {:induction false} PruningDropsTheOld(recent: seq<int>, windowStart: int)
    ensures var kept := Pruned(recent, windowStart);
            && |kept| <= |recent| && kept == recent[|recent| - |kept|..]
            && (forall k | 0 <= k < |recent| - |kept| :: recent[k] < windowStart)
            && (|kept| > 0 ==> kept[0] >= windowStart)
  {
    if |recent| > 0 && recent[0] < windowStart {
      PruningDropsTheOld(recent[1..], windowStart);
    }
  }

  /** With pacing, the window of an event reaches the configured number of days of 86400 seconds back. */
  lemma WindowIsDays(c: Config, s: Portfolio, e: MarketEvent)
    ensures WithPruning(c, s, e)
         == if c.maxNewEntries.None? then s
            else s.(recentEntries := Pruned(s.recentEntries, e.time.instant - c.entryPeriodDays * 86400))
  {
    hide Pruned;
  }
}
