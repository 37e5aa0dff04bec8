/** The multi-instrument portfolio loop: what each phase of an event does (portfolio/technical_only.py). */
module PortfolioLoop {
  import opened Prelude
  import opened OrderedDict
  import opened Models
  import opened Metrics
  import opened Risk
  import opened PaperBroking
  import opened OrderManaging
  import opened LedgerEffects
  import opened Indicators

  datatype Rules = Rules(
    periods: Periods, stopAtrMultiple: real, minimumRewardRisk: real, useProfitTarget: bool,
    trailingMultiple: Option<real>, maxPositions: int, universeRebalanceDays: int,
    enablePyramiding: bool, maxPyramidAdditions: int, pyramidTrigger: real, pyramidFraction: real,
    sizeByWeight: bool, maxNewEntries: Option<int>, entryPeriodDays: int, cooldownDays: Option<int>,
    initialCapital: real, commissionRate: real, slippageRate: real)
  {
    predicate Valid() {
      && stopAtrMultiple > 0.0 && minimumRewardRisk >= 1.0
      && (trailingMultiple.Some? ==> trailingMultiple.value > 0.0)
      && (useProfitTarget || trailingMultiple.Some?)
      && maxPositions >= 1 && universeRebalanceDays >= 1
      && maxPyramidAdditions >= 0 && pyramidTrigger > 0.0 && 0.0 < pyramidFraction <= 1.0
      && (maxNewEntries.Some? ==> maxNewEntries.value >= 1) && entryPeriodDays >= 1
      && (cooldownDays.Some? ==> cooldownDays.value >= 1)
      && initialCapital > 0.0 && commissionRate >= 0.0
    }

    function BuyPrice(price: real): real { price * (1.0 + slippageRate) }
    function SellPrice(price: real): real { price * (1.0 - slippageRate) }
  }

  type Config = r: Rules | r.Valid()
    witness Rules(PeriodSettings(20, 50, 14, 14, 20), 2.0, 1.5, true, None, 8, 21, false, 2, 1.0, 0.5,
                  false, None, 5, None, 100000.0, 0.0003, 0.0005)

  /**
   * The entry filters, as arbitrary functions: the score of an instrument that passes every gate, the ranked
   * universe, and whether the market regime allows entries.
   */
  datatype Filters = Filters(
    score: (Snapshot, seq<Bar>, seq<Bar>) -> Option<real>,
    rank: (map<string, seq<Bar>>, Timestamp) -> set<string>,
    regime: seq<Bar> -> bool)

  datatype Candidate = Candidate(instrument: string, exchange: string, score: real, technical: Snapshot,
                                 stopPrice: real, targetPrice: Option<real>)

  datatype Pending = PendingSell | PendingPyramid | PendingBuy(candidate: Candidate)

  datatype Plan = Plan(stopPrice: real, targetPrice: Option<real>, highestClose: real, trailing: Option<real>,
      additions: nat)

  datatype Lot = Lot(time: Timestamp, price: real, quantity: int)

  datatype TradeRecord = TradeRecord(instrument: string, exchange: string, entryTime: Timestamp, exitTime: Timestamp,
                                     entryPrice: real, exitPrice: real, quantity: int, pnl: real, reason: OrderKind)

  /** Everything that happens at one timestamp: the instruments' bars and the benchmark's. */
  datatype MarketEvent = MarketEvent(time: Timestamp, bars: seq<Bar>, regimeBars: seq<Bar>)

  datatype Portfolio = Portfolio(
    ledger: Ledger, risk: RiskState, histories: map<string, seq<Bar>>, regime: seq<Bar>,
    pending: Dict<string, Pending>, plans: map<string, Plan>, active: map<string, seq<Lot>>,
    pnls: seq<real>, records: seq<TradeRecord>, recentEntries: seq<int>,
    universe: set<string>, lastRebalance: int, triggeredAt: Option<int>, resets: nat, curve: seq<real>)

  function StartPortfolio(c: Config, histories: map<string, seq<Bar>>, regime: seq<Bar>): (s: Portfolio)
    ensures s.ledger.Valid()
  {
    Portfolio(NewLedger(c.initialCapital, c.commissionRate), FRESH, histories, regime,
              Empty(), map[], map[], [], [], [], {}, 0 - c.universeRebalanceDays, None, 0, [c.initialCapital])
  }

  // ----- Looking things up

  /** An instrument's current bar, if it has one. */
  function BarOf(bars: seq<Bar>, instrument: string): Option<Bar> {
    if |bars| == 0 then None
    else if bars[|bars| - 1].instrument == instrument then Some(bars[|bars| - 1])
    else BarOf(bars[..|bars| - 1], instrument)
  }

  function HistoryOf(histories: map<string, seq<Bar>>, instrument: string): seq<Bar> {
    if instrument in histories then histories[instrument] else []
  }

  /** The open positions at the last known opens or closes. */
  function PositionsValue(positions: seq<Position>, histories: map<string, seq<Bar>>, useOpen: bool): real {
    if |positions| == 0 then 0.0
    else
      var p := positions[|positions| - 1];
      var history := HistoryOf(histories, p.instrument);
      PositionsValue(positions[..|positions| - 1], histories, useOpen) +
      if |history| == 0 then 0.0
      else Notional(if useOpen then LastOf(history).open else LastOf(history).close, p.quantity)
  }

  function EquityAtPrices(l: Ledger, histories: map<string, seq<Bar>>, useOpen: bool): real
    requires l.Valid()
  {
    l.cash + PositionsValue(OpenList(l), histories, useOpen)
  }

  function SnapshotFor(c: Config, history: seq<Bar>): Option<Snapshot> {
    if |history| == 0 then None else SnapshotOf(c.periods, history)
  }

  function OrderIdAt(instrument: string, time: Timestamp, kind: OrderKind): OrderId {
    OrderId(instrument, time.instant, kind)
  }

  // ----- New bars and the cooldown

  function AppendBars(histories: map<string, seq<Bar>>, bars: seq<Bar>): map<string, seq<Bar>> {
    if |bars| == 0 then histories
    else
      var last := bars[|bars| - 1];
      var before := AppendBars(histories, bars[..|bars| - 1]);
      before[last.instrument := HistoryOf(before, last.instrument) + [last]]
  }

  lemma {:induction false} OthersUntouched(histories: map<string, seq<Bar>>, bars: seq<Bar>, instrument: string)
    requires forall b | b in bars :: b.instrument != instrument
    ensures HistoryOf(AppendBars(histories, bars), instrument) == HistoryOf(histories, instrument)
  {
    if |bars| > 0 {
      assert bars[|bars| - 1].instrument != instrument;
      OthersUntouched(histories, bars[..|bars| - 1], instrument);
    }
  }

  lemma {:induction false} AppendingExtends(histories: map<string, seq<Bar>>, bars: seq<Bar>, instrument: string)
    ensures HistoryOf(histories, instrument) <= HistoryOf(AppendBars(histories, bars), instrument)
  {
    if |bars| > 0 {
      AppendingExtends(histories, bars[..|bars| - 1], instrument);
    }
  }

  function WithBars(s: Portfolio, e: MarketEvent): Portfolio {
    s.(regime := s.regime + e.regimeBars, histories := AppendBars(s.histories, e.bars))
  }

  function Marked(limits: RiskLimits, s: Portfolio, e: MarketEvent): Result<Portfolio, Error>
    requires s.ledger.Valid()
  {
    match AfterMark(limits, s.risk, EquityAtPrices(s.ledger, s.histories, true), e.time)
    case Err(e) => Err(e)
    case Ok(risk) => Ok(s.(risk := risk))
  }

  const COOLDOWN_REASON: string := "backtest research cooldown expired"

  /** Note when the switch was first seen tripped, and reset it once it has stayed tripped for the cooldown. */
  function CooledDown(c: Config, s: Portfolio, e: MarketEvent): Portfolio {
    if c.cooldownDays.None? then s
    else if !s.risk.tripped then s.(triggeredAt := None)
    else if s.triggeredAt.None? then s.(triggeredAt := Some(e.time.instant))
    else if (e.time.instant - s.triggeredAt.value) / SECONDS_PER_DAY >= c.cooldownDays.value then
      var reset := AfterReset(s.risk, COOLDOWN_REASON);
      s.(risk := if reset.Ok? then reset.value else s.risk, triggeredAt := None, resets := s.resets + 1)
    else s
  }

  // ----- Selling

  function RecordsFor(lots: seq<Lot>, bar: Bar, quantity: int, price: real, reason: OrderKind): (r: seq<TradeRecord>)
    ensures |r| == |lots|
  {
    seq(|lots|, i requires 0 <= i < |lots| =>
      TradeRecord(bar.instrument, bar.exchange, lots[i].time, bar.time, lots[i].price, price,
                  MinInt(quantity, lots[i].quantity), Notional(price - lots[i].price, lots[i].quantity), reason))
  }

  /** _sell, and the profit it returns appended to the list. */
  function Sold(s: Portfolio, bar: Bar, quantity: int, price: real, id: OrderId): (r: Result<Portfolio, Error>)
    requires s.ledger.Valid()
    ensures r.Ok? ==> r.value.ledger.Valid()
  {
    SellSubmissionKeepsValid(s.ledger, SellArgs(id, bar.instrument, bar.exchange, quantity, price, bar.time));
    var position := FindInstrument(OpenList(s.ledger), bar.instrument);
    if position.None? then Err(StopIteration)
    else
      match AfterSellSubmission(s.ledger, SellArgs(id, bar.instrument, bar.exchange, quantity, price, bar.time))
      case Err(e) => Err(e)
      case Ok((after, outcome)) =>
        if !outcome.submitted then Ok(s.(ledger := after, pnls := s.pnls + [0.0]))
        else
          var lots := if bar.instrument in s.active then s.active[bar.instrument] else [];
          Ok(s.(ledger := after, pnls := s.pnls + [Notional(price - position.value.averagePrice, quantity)],
                active := s.active - {bar.instrument},
                records := s.records + RecordsFor(lots, bar, quantity, price, id.kind)))
  }

  function SoldOut(s: Portfolio, bar: Bar, quantity: int, price: real, id: OrderId): (r: Result<Portfolio, Error>)
    requires s.ledger.Valid()
    ensures r.Ok? ==> r.value.ledger.Valid()
  {
    match Sold(s, bar, quantity, price, id)
    case Err(e) => Err(e)
    case Ok(sold) => Ok(sold.(plans := sold.plans - {bar.instrument}))
  }

  // ----- Pending actions

  /** A fraction of the shares held, and at least one. */
  function PyramidLimit(c: Config, held: int): int {
    MaxInt(1, Truncate(held as real * c.pyramidFraction))
  }

  function PyramidArgs(c: Config, s: Portfolio, bar: Bar, position: Position, plan: Plan, e: MarketEvent): BuyArgs
    requires s.ledger.Valid() && plan.highestClose != 0.0
  {
    BuyArgs(OrderIdAt(bar.instrument, e.time, KPyramid), bar.instrument, bar.exchange,
            EquityAtPrices(s.ledger, s.histories, true), c.BuyPrice(bar.open),
            Max((plan.highestClose - plan.stopPrice) / plan.highestClose, 0.01),
            c.initialCapital, c.commissionRate, e.time,
            Some(PyramidLimit(c, position.quantity)), false)
  }

  function Pyramided(c: Config, limits: RiskLimits, s: Portfolio, bar: Bar, position: Position,
                     e: MarketEvent): (r: Result<Portfolio, Error>)
    requires s.ledger.Valid()
    ensures r.Ok? ==> r.value.ledger.Valid()
  {
    if bar.instrument !in s.plans then Ok(s)
    else
      var plan := s.plans[bar.instrument];
      if plan.highestClose == 0.0 then Err(ZeroDivision)
      else
        BuySubmissionKeepsValid(limits, s.ledger, s.risk, PyramidArgs(c, s, bar, position, plan, e));
        match AfterBuySubmission(limits, s.ledger, s.risk, PyramidArgs(c, s, bar, position, plan, e))
        case Err(e) => Err(e)
        case Ok((after, outcome)) =>
          Ok(s.(ledger := after,
                plans := if outcome.submitted then s.plans[bar.instrument := plan.(additions := plan.additions + 1)]
                    else s.plans))
  }

  function EntryArgs(c: Config, s: Portfolio, bar: Bar, candidate: Candidate, e: MarketEvent): BuyArgs
    requires s.ledger.Valid() && candidate.technical.close != 0.0
  {
    BuyArgs(OrderIdAt(bar.instrument, e.time, KBuy), bar.instrument, bar.exchange,
            EquityAtPrices(s.ledger, s.histories, true), c.BuyPrice(bar.open),
            (candidate.technical.close - candidate.stopPrice) / candidate.technical.close,
            c.initialCapital, c.commissionRate, e.time, None, c.sizeByWeight)
  }

  function FillValue(fills: seq<Fill>): real {
    if |fills| == 0 then 0.0
    else FillValue(fills[..|fills| - 1]) + Notional(fills[|fills| - 1].price, fills[|fills| - 1].quantity)
  }

  /** The quantity-weighted price of an order's fills, if it has any. */
  function AverageFillPrice(order: Order): Option<real> {
    if |order.fills| == 0 || FilledQuantity(order.fills) == 0 then None
    else Some(FillValue(order.fills) / FilledQuantity(order.fills) as real)
  }

  function WithEntry(c: Config, s: Portfolio, bar: Bar, candidate: Candidate, outcome: Outcome, after: Ledger,
                     e: MarketEvent): Portfolio {
    var planned := s.(ledger := after,
      plans := s.plans[bar.instrument := Plan(candidate.stopPrice, candidate.targetPrice, candidate.technical.close,
          c.trailingMultiple, 0)]);
    if outcome.order.Some? && AverageFillPrice(outcome.order.value).Some? then
      var lots := if bar.instrument in s.active then s.active[bar.instrument] else [];
      planned.(
        active := s.active[bar.instrument := lots +
          [Lot(e.time, AverageFillPrice(outcome.order.value).value, FilledQuantity(outcome.order.value.fills))]],
        recentEntries := s.recentEntries + [e.time.instant])
    else planned
  }

  function Entered(c: Config, limits: RiskLimits, s: Portfolio, bar: Bar, candidate: Candidate,
                   e: MarketEvent): (r: Result<Portfolio, Error>)
    requires s.ledger.Valid()
    ensures r.Ok? ==> r.value.ledger.Valid()
  {
    if candidate.technical.close == 0.0 then Err(ZeroDivision)
    else
      BuySubmissionKeepsValid(limits, s.ledger, s.risk, EntryArgs(c, s, bar, candidate, e));
      match AfterBuySubmission(limits, s.ledger, s.risk, EntryArgs(c, s, bar, candidate, e))
      case Err(e) => Err(e)
      case Ok((after, outcome)) =>
        Ok(if outcome.submitted then WithEntry(c, s, bar, candidate, outcome, after, e) else s.(ledger := after))
  }

  /** One pending action, popped and carried out if its instrument has a bar. */
  function PendingStep(c: Config, limits: RiskLimits, s: Portfolio, e: MarketEvent,
                       instrument: string): (r: Result<Portfolio, Error>)
    requires s.ledger.Valid()
    ensures r.Ok? ==> r.value.ledger.Valid()
  {
    var bar := BarOf(e.bars, instrument);
    if bar.None? || instrument !in s.pending.data then Ok(s)
    else
      var action, popped := s.pending.data[instrument], s.(pending := s.pending.Remove(instrument));
      var position := FindPosition(OpenList(s.ledger), instrument, bar.value.exchange);
      if action.PendingSell? && position.Some? then
        SoldOut(popped, bar.value, position.value.quantity, c.SellPrice(bar.value.open),
            OrderIdAt(instrument, e.time, KTrend))
      else if action.PendingPyramid? && position.Some? then
        Pyramided(c, limits, popped, bar.value, position.value, e)
      else if action.PendingBuy? && position.None? then
        Entered(c, limits, popped, bar.value, action.candidate, e)
      else Ok(popped)
  }

  /** Every action that was pending when the event began, in order. */
  function AfterPending(c: Config, limits: RiskLimits, s: Portfolio, e: MarketEvent,
                        keys: seq<string>): (r: Result<Portfolio, Error>)
    requires s.ledger.Valid()
    ensures r.Ok? ==> r.value.ledger.Valid()
  {
    if |keys| == 0 then Ok(s)
    else
      match AfterPending(c, limits, s, e, keys[..|keys| - 1])
      case Err(error) => Err(error)
      case Ok(before) => PendingStep(c, limits, before, e, keys[|keys| - 1])
  }

  // ----- Stops and targets

  function TrailingLevel(highestClose: real, atr: real, multiple: real): real { highestClose - atr * multiple }

  function StopLevel(c: Config, s: Portfolio, plan: Plan, instrument: string): real {
    var snapshot := SnapshotFor(c, HistoryOf(s.histories, instrument));
    if plan.trailing.Some? && snapshot.Some?
    then Max(plan.stopPrice, TrailingLevel(plan.highestClose, snapshot.value.atr, plan.trailing.value))
    else plan.stopPrice
  }

  /** One open position against its plan: stop, target, or a higher trailing close. */
  function ExitStep(c: Config, s: Portfolio, e: MarketEvent, position: Position): (r: Result<Portfolio, Error>)
    requires s.ledger.Valid()
    ensures r.Ok? ==> r.value.ledger.Valid()
  {
    var bar := BarOf(e.bars, position.instrument);
    if bar.None? || position.instrument !in s.plans then Ok(s)
    else
      var plan := s.plans[position.instrument];
      var stop := StopLevel(c, s, plan, position.instrument);
      if bar.value.low <= stop then
        SoldOut(s, bar.value, position.quantity, c.SellPrice(Min(bar.value.open, stop)),
            OrderIdAt(position.instrument, e.time, KStop))
      else if plan.targetPrice.Some? && bar.value.high >= plan.targetPrice.value then
        SoldOut(s, bar.value, position.quantity, c.SellPrice(Max(bar.value.open, plan.targetPrice.value)),
                OrderIdAt(position.instrument, e.time, KTarget))
      else if plan.trailing.Some? then
        Ok(s.(plans := s.plans[position.instrument := plan.(highestClose := Max(plan.highestClose, bar.value.close))]))
      else Ok(s)
  }

  function AfterExits(c: Config, s: Portfolio, e: MarketEvent, positions: seq<Position>): (r: Result<Portfolio, Error>)
    requires s.ledger.Valid()
    ensures r.Ok? ==> r.value.ledger.Valid()
  {
    if |positions| == 0 then Ok(s)
    else
      match AfterExits(c, s, e, positions[..|positions| - 1])
      case Err(error) => Err(error)
      case Ok(before) => ExitStep(c, before, e, positions[|positions| - 1])
  }

  // ----- Scheduling

  predicate WantsPyramid(c: Config, s: Portfolio, e: MarketEvent, position: Position) {
    && position.instrument !in s.pending.data
    && position.instrument in s.plans
    && BarOf(e.bars, position.instrument).Some?
    && s.plans[position.instrument].additions < c.maxPyramidAdditions
    && var snapshot := SnapshotFor(c, HistoryOf(s.histories, position.instrument));
       && snapshot.Some?
       && snapshot.value.smaFast > snapshot.value.smaSlow
       && BarOf(e.bars, position.instrument).value.close >= position.averagePrice
           + snapshot.value.atr * c.pyramidTrigger
  }

  function PyramidStep(c: Config, s: Portfolio, e: MarketEvent, position: Position): Portfolio {
    if WantsPyramid(c, s, e, position) then s.(pending := s.pending.Put(position.instrument, PendingPyramid)) else s
  }

  function AfterPyramids(c: Config, s: Portfolio, e: MarketEvent, positions: seq<Position>): Portfolio {
    if |positions| == 0 then s
    else PyramidStep(c, AfterPyramids(c, s, e, positions[..|positions| - 1]), e, positions[|positions| - 1])
  }

  function Rebalanced(c: Config, f: Filters, s: Portfolio, e: MarketEvent): Portfolio {
    var eventIndex := |s.curve| - 1;
    if eventIndex - s.lastRebalance >= c.universeRebalanceDays
    then s.(universe := f.rank(s.histories, e.time), lastRebalance := eventIndex) else s
  }

  /**
   * The candidate a passing snapshot makes: a stop some ATRs below the close, and a target at the reward/risk multiple.
   */
  function CandidateFrom(c: Config, f: Filters, s: Portfolio, snapshot: Snapshot,
                         history: seq<Bar>): Option<Candidate> {
    var score := f.score(snapshot, history, s.regime);
    var stop := snapshot.close - snapshot.atr * c.stopAtrMultiple;
    if snapshot.atr <= 0.0 || score.None? || stop <= 0.0 then None
    else Some(Candidate(snapshot.instrument, snapshot.exchange, score.value, snapshot, stop,
                        if c.useProfitTarget then Some(snapshot.close + (snapshot.close - stop) * c.minimumRewardRisk)
                            else None))
  }

  /** What one current bar contributes: a sale of a position out of trend, or an entry candidate. */
  datatype Scan = Scan(portfolio: Portfolio, candidates: seq<Candidate>)

  function ScanStep(c: Config, f: Filters, scan: Scan, bar: Bar, allowEntries: bool): (r: Scan)
    requires scan.portfolio.ledger.Valid()
    ensures r.portfolio.ledger == scan.portfolio.ledger
  {
    var s := scan.portfolio;
    var position := FindPosition(OpenList(s.ledger), bar.instrument, bar.exchange);
    var snapshot := SnapshotFor(c, HistoryOf(s.histories, bar.instrument));
    if (position.None? && bar.instrument !in s.universe) || snapshot.None? then scan
    else if position.Some? then
      if snapshot.value.smaFast < snapshot.value.smaSlow
      then Scan(s.(pending := s.pending.Put(bar.instrument, PendingSell)), scan.candidates) else scan
    else if !allowEntries then scan
    else
      var candidate := CandidateFrom(c, f, s, snapshot.value, HistoryOf(s.histories, bar.instrument));
      if candidate.None? then scan else Scan(s, scan.candidates + [candidate.value])
  }

  function Scanned(c: Config, f: Filters, s: Portfolio, bars: seq<Bar>, allowEntries: bool): (r: Scan)
    requires s.ledger.Valid()
    ensures r.portfolio.ledger == s.ledger
  {
    if |bars| == 0 then Scan(s, [])
    else ScanStep(c, f, Scanned(c, f, s, bars[..|bars| - 1], allowEntries), bars[|bars| - 1], allowEntries)
  }

  // ----- Filling the slots

  function StringAtMost(a: string, b: string): bool {
    if |a| == 0 then true
    else if |b| == 0 then false
    else if a[0] == b[0] then StringAtMost(a[1..], b[1..])
    else a[0] < b[0]
  }

  /** Sort order: higher scores first, then by name. */
  predicate GoesFirst(a: Candidate, b: Candidate) {
    a.score > b.score || (a.score == b.score && StringAtMost(a.instrument, b.instrument))
  }

  function InsertCandidate(sorted: seq<Candidate>, x: Candidate): (r: seq<Candidate>)
    ensures multiset(r) == multiset(sorted) + multiset{x}
  {
    if |sorted| == 0 then [x]
    else if GoesFirst(sorted[|sorted| - 1], x) then
      sorted + [x]
    else
      assert sorted == sorted[..|sorted| - 1] + [sorted[|sorted| - 1]];
      InsertCandidate(sorted[..|sorted| - 1], x) + [sorted[|sorted| - 1]]
  }

  function SortCandidates(candidates: seq<Candidate>): (r: seq<Candidate>)
    ensures multiset(r) == multiset(candidates)
  {
    if |candidates| == 0 then []
    else
      assert candidates == candidates[..|candidates| - 1] + [candidates[|candidates| - 1]];
      InsertCandidate(SortCandidates(candidates[..|candidates| - 1]), candidates[|candidates| - 1])
  }

  function BuyKeys(pending: Dict<string, Pending>): set<string> {
    set k | k in pending.data && pending.data[k].PendingBuy?
  }

  /** Drop the entries that have left the pacing window. */
  function Pruned(recent: seq<int>, windowStart: int): seq<int> {
    if |recent| > 0 && recent[0] < windowStart then Pruned(recent[1..], windowStart) else recent
  }

  function WithPruning(c: Config, s: Portfolio, e: MarketEvent): Portfolio {
    if c.maxNewEntries.None? then s
    else s.(recentEntries := Pruned(s.recentEntries, e.time.instant - c.entryPeriodDays * SECONDS_PER_DAY))
  }

  /** The free places among positions and, with pacing, among entries of the window. */
  function Slots(c: Config, s: Portfolio): nat
    requires s.ledger.Valid()
  {
    var buys := |BuyKeys(s.pending)|;
    var slots := MaxInt(0, c.maxPositions - |OpenInstruments(s.ledger)| - buys);
    if c.maxNewEntries.None? then slots
    else MinInt(slots, MaxInt(0, c.maxNewEntries.value - |s.recentEntries| - buys))
  }

  function Schedule(s: Portfolio, candidates: seq<Candidate>): Portfolio {
    if |candidates| == 0 then s
    else
      var last := candidates[|candidates| - 1];
      var before := Schedule(s, candidates[..|candidates| - 1]);
      before.(pending := before.pending.Put(last.instrument, PendingBuy(last)))
  }

  function SlotsFilled(c: Config, scan: Scan, e: MarketEvent): (r: Portfolio)
    requires scan.portfolio.ledger.Valid()
    ensures r.ledger == scan.portfolio.ledger
  {
    var s := WithPruning(c, scan.portfolio, e);
    var ranked := SortCandidates(scan.candidates);
    SchedulingKeepsLedger(s, ranked[..MinInt(Slots(c, s), |ranked|)]);
    Schedule(s, ranked[..MinInt(Slots(c, s), |ranked|)])
  }

  function AtClose(s: Portfolio): Portfolio
    requires s.ledger.Valid()
  {
    s.(curve := s.curve + [EquityAtPrices(s.ledger, s.histories, false)])
  }

  // ----- One event, and whole runs

  /** The first half of an event: new bars, the mark, the cooldown, pending actions, stops and targets. */
  function Traded(c: Config, limits: RiskLimits, s: Portfolio, e: MarketEvent): (r: Result<Portfolio, Error>)
    requires s.ledger.Valid()
    ensures r.Ok? ==> r.value.ledger.Valid()
  {
    match Marked(limits, WithBars(s, e), e)
    case Err(error) => Err(error)
    case Ok(marked) =>
      var cooled := CooledDown(c, marked, e);
      match AfterPending(c, limits, cooled, e, cooled.pending.keys)
      case Err(error) => Err(error)
      case Ok(acted) => AfterExits(c, acted, e, OpenList(acted.ledger))
  }

  /** The second half: what to do at the next bars. */
  function Scheduled(c: Config, f: Filters, s: Portfolio, e: MarketEvent): (r: Portfolio)
    requires s.ledger.Valid()
    ensures r.ledger == s.ledger
  {
    var pyramided := if c.enablePyramiding then AfterPyramids(c, s, e, OpenList(s.ledger)) else s;
    PyramidsKeepLedger(c, s, e, OpenList(s.ledger));
    var balanced := Rebalanced(c, f, pyramided, e);
    SlotsFilled(c, Scanned(c, f, balanced, e.bars, f.regime(balanced.regime)), e)
  }

  lemma {:induction false} PyramidsKeepLedger(c: Config, s: Portfolio, e: MarketEvent, positions: seq<Position>)
    ensures AfterPyramids(c, s, e, positions).ledger == s.ledger
  {
    if |positions| > 0 {
      PyramidsKeepLedger(c, s, e, positions[..|positions| - 1]);
    }
  }

  lemma {:induction false} SchedulingKeepsLedger(s: Portfolio, candidates: seq<Candidate>)
    ensures Schedule(s, candidates).ledger == s.ledger
  {
    if |candidates| > 0 {
      SchedulingKeepsLedger(s, candidates[..|candidates| - 1]);
    }
  }

  function AfterEvent(c: Config, f: Filters, limits: RiskLimits, s: Portfolio, e: MarketEvent): (r: Result<Portfolio,
                      Error>)
    requires s.ledger.Valid()
    ensures r.Ok? ==> r.value.ledger.Valid()
  {
    match Traded(c, limits, s, e)
    case Err(error) => Err(error)
    case Ok(traded) => Ok(AtClose(Scheduled(c, f, traded, e)))
  }

  function AfterEvents(c: Config, f: Filters, limits: RiskLimits, start: Portfolio,
                       events: seq<MarketEvent>): (r: Result<Portfolio, Error>)
    requires start.ledger.Valid()
    ensures r.Ok? ==> r.value.ledger.Valid()
  {
    if |events| == 0 then Ok(start)
    else
      match AfterEvents(c, f, limits, start, events[..|events| - 1])
      case Err(error) => Err(error)
      case Ok(before) => AfterEvent(c, f, limits, before, events[|events| - 1])
  }

  // ----- The final liquidation

  function FinalStep(c: Config, s: Portfolio, time: Timestamp, position: Position): (r: Result<Portfolio, Error>)
    requires s.ledger.Valid()
    ensures r.Ok? ==> r.value.ledger.Valid()
  {
    var history := HistoryOf(s.histories, position.instrument);
    if |history| == 0 then Err(IndexError)
    else Sold(s, LastOf(history), position.quantity, c.SellPrice(LastOf(history).close),
        OrderIdAt(position.instrument, time, KFinal))
  }

  function AfterFinalSales(c: Config, s: Portfolio, time: Timestamp, positions: seq<Position>): (r: Result<Portfolio,
                           Error>)
    requires s.ledger.Valid()
    ensures r.Ok? ==> r.value.ledger.Valid()
  {
    if |positions| == 0 then Ok(s)
    else
      match AfterFinalSales(c, s, time, positions[..|positions| - 1])
      case Err(error) => Err(error)
      case Ok(before) => FinalStep(c, before, time, positions[|positions| - 1])
  }

  /**
   * A whole run: the events, the sale of what is still open, the final equity point, and the metrics' check of the
   * curve.
   */
  function AfterRun(c: Config, f: Filters, limits: RiskLimits, start: Portfolio,
                    events: seq<MarketEvent>): (r: Result<Portfolio, Error>)
    requires start.ledger.Valid()
    ensures r.Ok? ==> r.value.ledger.Valid()
  {
    if |events| == 0 then Err(ValueError)
    else
      match AfterEvents(c, f, limits, start, events)
      case Err(error) => Err(error)
      case Ok(s) =>
        match AfterFinalSales(c, s, LastOf(events).time, OpenList(s.ledger))
        case Err(error) => Err(error)
        case Ok(sold) =>
          var final := if |sold.curve| == 0 then sold else sold.(curve :=
              sold.curve[..|sold.curve| - 1] + [sold.ledger.cash]);
          if Accepted(final.curve) then Ok(final) else Err(ValueError)
  }
}
