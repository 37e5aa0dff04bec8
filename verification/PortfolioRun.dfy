/** The portfolio loop as it runs: fields updated step by step, each step proved equal to its specification. */
module PortfolioRunning {
  import opened Prelude
  import opened OrderedDict
  import opened Models
  import opened Metrics
  import opened Risk
  import opened PaperBroking
  import opened LedgerEffects
  import opened Indicators
  import opened IndicatorCaching
  import opened PortfolioLoop
  import O = OrderManaging

  /** Every history is one instrument's bars in time order, and extends what the indicator cache has seen of it. */
  ghost predicate HistoriesFit(seen: map<string, seq<Bar>>, histories: map<string, seq<Bar>>) {
    && (forall i | i in histories :: IsHistory(histories[i], i))
    && (forall i | i in seen :: i in histories && seen[i] <= histories[i])
  }

  class TechnicalOnlyBacktester {
    const config: Config
    const filters: Filters
    const riskLimits: RiskLimits
    const broker: PaperBroker
    const riskEngine: RiskEngine
    const orderManager: O.OrderManager
    const indicators: IndicatorCache
    var histories: map<string, seq<Bar>>
    var regimeHistory: seq<Bar>
    var pending: Dict<string, Pending>
    var plans: map<string, Plan>
    var activeEntries: map<string, seq<Lot>>
    var tradePnls: seq<real>
    var tradeRecords: seq<TradeRecord>
    var recentEntries: seq<int>
    var activeUniverse: set<string>
    var lastRebalanceIndex: int
    var killSwitchTriggeredAt: Option<int>
    var killSwitchResetCount: nat
    var equityCurve: seq<real>

    ghost predicate Valid()
      reads this, broker, indicators, indicators.Repr
    {
      && broker.Valid()
      && orderManager.broker == broker && orderManager.riskEngine == riskEngine
      && riskEngine.limits == riskLimits
      && indicators.Valid() && indicators.periods == config.periods
      && this !in indicators.Repr && broker !in indicators.Repr && riskEngine !in indicators.Repr
      && HistoriesFit(indicators.seen, histories)
    }

    function View(): Portfolio
      reads this, broker, riskEngine
    {
      Portfolio(broker.View(), riskEngine.View(), histories, regimeHistory, pending, plans, activeEntries, tradePnls,
          tradeRecords,
                recentEntries, activeUniverse, lastRebalanceIndex, killSwitchTriggeredAt, killSwitchResetCount,
                    equityCurve)
    }

    constructor (config: Config, filters: Filters, riskLimits: RiskLimits, histories: map<string, seq<Bar>>,
                 regimeHistory: seq<Bar>)
      requires HistoriesFit(map[], histories)
      ensures Valid() && fresh(broker) && fresh(riskEngine) && fresh(indicators) && fresh(indicators.Repr)
      ensures this.config == config && this.filters == filters && this.riskLimits == riskLimits
      ensures View() == StartPortfolio(config, histories, regimeHistory)
    {
      this.config, this.filters, this.riskLimits := config, filters, riskLimits;
      this.histories, this.regimeHistory := histories, regimeHistory;
      var b := new PaperBroker(config.initialCapital, config.commissionRate);
      var e := new RiskEngine(riskLimits);
      var m := new O.OrderManager(b, e);
      broker, riskEngine, orderManager := b, e, m;
      indicators := new IndicatorCache(config.periods);
      pending, plans, activeEntries, tradePnls, tradeRecords := Empty(), map[], map[], [], [];
      recentEntries, activeUniverse, lastRebalanceIndex := [], {}, 0 - config.universeRebalanceDays;
      killSwitchTriggeredAt, killSwitchResetCount, equityCurve := None, 0, [config.initialCapital];
    }

    /** Risk limits for another capital are refused. */
    static method Create(config: Config, filters: Filters, riskLimits: RiskLimits, histories: map<string, seq<Bar>>,
                         regimeHistory: seq<Bar>) returns (r: Result<TechnicalOnlyBacktester, Error>)
      requires HistoriesFit(map[], histories)
      ensures r.Ok? <==> riskLimits.accountCapital == config.initialCapital
      ensures r.Ok? ==>
                fresh(r.value) && r.value.Valid() && r.value.View() == StartPortfolio(config, histories, regimeHistory)
    {
      if riskLimits.accountCapital != config.initialCapital {
        return Err(ValueError);
      }
      var backtester := new TechnicalOnlyBacktester(config, filters, riskLimits, histories, regimeHistory);
      return Ok(backtester);
    }

    method EquityAt(useOpen: bool) returns (equity: real)
      requires Valid()
      ensures equity == EquityAtPrices(broker.View(), histories, useOpen)
    {
      hide IndicatorCache.Valid, HistoriesFit, Notional, Ledger.Valid;
      var positions := broker.ListPositions();
      assert positions == OpenList(broker.View());
      equity := broker.cash;
      for i := 0 to |positions|
        invariant equity == broker.cash + PositionsValue(positions[..i], histories, useOpen)
      {
        assert positions[..i + 1][..i] == positions[..i];
        var history := HistoryOf(histories, positions[i].instrument);
        if |history| > 0 {
          var bar := history[|history| - 1];
          equity := equity + Notional(if useOpen then bar.open else bar.close, positions[i].quantity);
        }
      }
      assert positions[..|positions|] == positions;
    }

    /** The indicators on an instrument's last bar, read from the cache: those of its whole history. */
    method TechnicalSnapshot(instrument: string) returns (r: Option<Snapshot>)
      requires Valid()
      modifies indicators, indicators.Repr
      ensures Valid()
      ensures r == SnapshotFor(config, HistoryOf(histories, instrument))
      ensures fresh(indicators.Repr - old(indicators.Repr))
    {
      hide Ledger.Valid, SnapshotOf, IndicatorCache.Valid, IsHistory;
      var bars := HistoryOf(histories, instrument);
      if |bars| == 0 {
        return None;
      }
      FirstBarNames(bars, instrument);
      assert bars[..|bars|] == bars;
      var snapshot := indicators.TechnicalSnapshot(bars);
      r := snapshot.value;
    }

    /** Research only: reset a tripped switch once it has stayed tripped for the configured days. */
    method ApplyKillSwitchCooldown(e: MarketEvent)
      requires Valid()
      modifies `killSwitchTriggeredAt, `killSwitchResetCount, riskEngine
      ensures Valid()
      ensures View() == CooledDown(config, old(View()), e)
    {
      hide IndicatorCache.Valid, HistoriesFit, AfterReset, Ledger.Valid;
      if config.cooldownDays.None? {
        return;
      }
      if !riskEngine.killSwitchTriggered {
        killSwitchTriggeredAt := None;
        return;
      }
      if killSwitchTriggeredAt.None? {
        killSwitchTriggeredAt := Some(e.time.instant);
        return;
      }
      if (e.time.instant - killSwitchTriggeredAt.value) / SECONDS_PER_DAY >= config.cooldownDays.value {
        var reset := riskEngine.ResetKillSwitch(COOLDOWN_REASON);
        killSwitchTriggeredAt := None;
        killSwitchResetCount := killSwitchResetCount + 1;
      }
    }

    /** Turn the instrument's entries into trade records, one each. */
    method CloseEntries(bar: Bar, quantity: int, price: real, reason: OrderKind)
      modifies `activeEntries, `tradeRecords
      ensures activeEntries == old(activeEntries) - {bar.instrument}
      ensures var lots := if bar.instrument in old(activeEntries) then old(activeEntries)[bar.instrument] else [];
              tradeRecords == old(tradeRecords) + RecordsFor(lots, bar, quantity, price, reason)
    {
      hide Notional;
      var entries := if bar.instrument in activeEntries then activeEntries[bar.instrument] else [];
      activeEntries := activeEntries - {bar.instrument};
      ghost var closed := RecordsFor(entries, bar, quantity, price, reason);
      for i := 0 to |entries|
        modifies `tradeRecords
        invariant tradeRecords == old(tradeRecords) + closed[..i]
      {
        tradeRecords := tradeRecords + [
          TradeRecord(bar.instrument, bar.exchange, entries[i].time, bar.time, entries[i].price, price,
                      MinInt(quantity, entries[i].quantity), Notional(price - entries[i].price, entries[i].quantity),
                      reason)];
        assert closed[..i + 1] == closed[..i] + [closed[i]];
      }
      assert closed[..|entries|] == closed;
    }

    /** Sell, close the instrument's entries into trade records, and return the profit for the caller to append. */
    method Sell(bar: Bar, quantity: int, price: real, id: OrderId) returns (r: Result<real, Error>)
      requires Valid()
      modifies `activeEntries, `tradeRecords, broker
      ensures Valid()
      ensures var spec := Sold(old(View()), bar, quantity, price, id);
              if spec.Err? then r == Err(spec.error)
              else r.Ok? && spec.value == View().(pnls := tradePnls + [r.value])
    {
      hide IndicatorCache.Valid, HistoriesFit, Ledger.Valid, O.AfterSellSubmission, Notional, RecordsFor;
      var position := FindInstrument(broker.ListPositions(), bar.instrument);
      if position.None? {
        return Err(StopIteration);
      }
      var outcome := orderManager.SubmitSell(O.SellArgs(id, bar.instrument, bar.exchange, quantity, price, bar.time));
      if outcome.Err? {
        return Err(outcome.error);
      }
      if !outcome.value.submitted {
        return Ok(0.0);
      }
      var pnl := Notional(price - position.value.averagePrice, quantity);
      CloseEntries(bar, quantity, price, id.kind);
      return Ok(pnl);
    }

    /** A sale with its profit recorded and its plan dropped. */
    method SellOut(bar: Bar, quantity: int, price: real, id: OrderId) returns (r: Result<(), Error>)
      requires Valid()
      modifies `activeEntries, `tradeRecords, `tradePnls, `plans, broker
      ensures Valid()
      ensures r == match SoldOut(old(View()), bar, quantity, price,
              id) case Err(error) => Err(error) case Ok(_) => Ok(())
      ensures r.Ok? ==> SoldOut(old(View()), bar, quantity, price, id) == Ok(View())
    {
      hide IndicatorCache.Valid, HistoriesFit, Ledger.Valid, Sold;
      var pnl := Sell(bar, quantity, price, id);
      if pnl.Err? {
        return Err(pnl.error);
      }
      tradePnls := tradePnls + [pnl.value];
      plans := plans - {bar.instrument};
      return Ok(());
    }

    // ----- Pending actions

    /** Add to a position the pyramid's fraction, if the gate allows it. */
    method ExecutePyramid(bar: Bar, position: Position, e: MarketEvent) returns (r: Result<(), Error>)
      requires Valid()
      modifies `plans, broker
      ensures Valid()
      ensures var spec := Pyramided(config, riskLimits, old(View()), bar, position, e);
              if spec.Err? then r == Err(spec.error) else r == Ok(()) && View() == spec.value
    {
      hide IndicatorCache.Valid, HistoriesFit, Ledger.Valid, O.AfterBuySubmission, Notional;
      if bar.instrument !in plans {
        return Ok(());
      }
      var plan := plans[bar.instrument];
      var maxQuantity := PyramidLimit(config, position.quantity);
      var fillPrice := config.BuyPrice(bar.open);
      var equity := EquityAt(true);
      if plan.highestClose == 0.0 {
        return Err(ZeroDivision);
      }
      var stopFraction := Max((plan.highestClose - plan.stopPrice) / plan.highestClose, 0.01);
      var outcome := orderManager.SubmitBuy(
        O.BuyArgs(OrderIdAt(bar.instrument, e.time, KPyramid), bar.instrument, bar.exchange, equity, fillPrice,
            stopFraction,
                  config.initialCapital, config.commissionRate, e.time, Some(maxQuantity), false));
      if outcome.Err? {
        return Err(outcome.error);
      }
      if outcome.value.submitted {
        plans := plans[bar.instrument := plan.(additions := plan.additions + 1)];
      }
      return Ok(());
    }

    /** A filled entry's plan, lot and time. */
    method RememberEntry(bar: Bar, candidate: Candidate, outcome: O.Outcome, e: MarketEvent)
      modifies `plans, `activeEntries, `recentEntries
      ensures View() == WithEntry(config, old(View()), bar, candidate, outcome, broker.View(), e)
    {
      hide AverageFillPrice;
      plans := plans[bar.instrument := Plan(candidate.stopPrice, candidate.targetPrice, candidate.technical.close,
                                            config.trailingMultiple, 0)];
      var order := outcome.order;
      if order.Some? && AverageFillPrice(order.value).Some? {
        var lots := if bar.instrument in activeEntries then activeEntries[bar.instrument] else [];
        activeEntries := activeEntries[bar.instrument := lots +
          [Lot(e.time, AverageFillPrice(order.value).value, FilledQuantity(order.value.fills))]];
        recentEntries := recentEntries + [e.time.instant];
      }
    }

    /** Open a position for a candidate, if the gate allows it, and remember its plan, its lot and its time. */
    method ExecuteEntry(bar: Bar, candidate: Candidate, e: MarketEvent) returns (r: Result<(), Error>)
      requires Valid()
      modifies `plans, `activeEntries, `recentEntries, broker
      ensures Valid()
      ensures var spec := Entered(config, riskLimits, old(View()), bar, candidate, e);
              if spec.Err? then r == Err(spec.error) else r == Ok(()) && View() == spec.value
    {
      hide IndicatorCache.Valid, HistoriesFit, Ledger.Valid, O.AfterBuySubmission, Notional, WithEntry;
      if candidate.technical.close == 0.0 {
        return Err(ZeroDivision);
      }
      var stopDistance := (candidate.technical.close - candidate.stopPrice) / candidate.technical.close;
      var fillPrice := config.BuyPrice(bar.open);
      var equity := EquityAt(true);
      var outcome := orderManager.SubmitBuy(
        O.BuyArgs(OrderIdAt(bar.instrument, e.time, KBuy), bar.instrument, bar.exchange, equity, fillPrice,
            stopDistance,
                  config.initialCapital, config.commissionRate, e.time, None, config.sizeByWeight));
      if outcome.Err? {
        return Err(outcome.error);
      }
      if outcome.value.submitted {
        EntryReplacesLedger(config, old(View()), bar, candidate, outcome.value, broker.View(), e);
        RememberEntry(bar, candidate, outcome.value, e);
      }
      return Ok(());
    }

    method ExecuteOne(e: MarketEvent, instrument: string) returns (r: Result<(), Error>)
      requires Valid()
      modifies `pending, `plans, `activeEntries, `tradePnls, `tradeRecords, `recentEntries, broker
      ensures Valid()
      ensures var spec := PendingStep(config, riskLimits, old(View()), e, instrument);
              if spec.Err? then r == Err(spec.error) else r == Ok(()) && View() == spec.value
    {
      hide IndicatorCache.Valid, HistoriesFit, Ledger.Valid, SoldOut, Pyramided, Entered, BarOf, FindPosition;
      var bar := BarOf(e.bars, instrument);
      if bar.None? || instrument !in pending.data {
        return Ok(());
      }
      var action := pending.data[instrument];
      pending := pending.Remove(instrument);
      var position := FindPosition(broker.ListPositions(), instrument, bar.value.exchange);
      if action.PendingSell? && position.Some? {
        r := SellOut(bar.value, position.value.quantity, config.SellPrice(bar.value.open),
            OrderIdAt(instrument, e.time, KTrend));
      } else if action.PendingPyramid? && position.Some? {
        r := ExecutePyramid(bar.value, position.value, e);
      } else if action.PendingBuy? && position.None? {
        r := ExecuteEntry(bar.value, action.candidate, e);
      } else {
        return Ok(());
      }
    }

    /** Every action that is pending as the event begins, in the order in which it was scheduled. */
    method ExecutePending(e: MarketEvent) returns (r: Result<(), Error>)
      requires Valid()
      modifies `pending, `plans, `activeEntries, `tradePnls, `tradeRecords, `recentEntries, broker
      ensures Valid()
      ensures var spec := AfterPending(config, riskLimits, old(View()), e, old(pending.keys));
              r.Ok? ==> spec == Ok(View())
      ensures var spec := AfterPending(config, riskLimits, old(View()), e, old(pending.keys));
              r.Err? ==> spec == Err(r.error)
    {
      hide IndicatorCache.Valid, HistoriesFit, Ledger.Valid, PendingStep;
      var keys := pending.keys;
      for i := 0 to |keys|
        invariant Valid()
        invariant AfterPending(config, riskLimits, old(View()), e, keys[..i]) == Ok(View())
      {
        assert keys[..i + 1][..i] == keys[..i];
        var done := ExecuteOne(e, keys[i]);
        if done.Err? {
          PendingStopsAt(config, riskLimits, old(View()), e, keys, i + 1);
          return Err(done.error);
        }
      }
      assert keys[..|keys|] == keys;
      return Ok(());
    }

    // ----- Stops and targets

    method ExecuteExit(e: MarketEvent, position: Position) returns (r: Result<(), Error>)
      requires Valid()
      modifies `plans, `activeEntries, `tradePnls, `tradeRecords, broker, indicators, indicators.Repr
      ensures Valid()
      ensures fresh(indicators.Repr - old(indicators.Repr))
      ensures var spec := ExitStep(config, old(View()), e, position);
              if spec.Err? then r == Err(spec.error) else r == Ok(()) && View() == spec.value
    {
      hide IndicatorCache.Valid, HistoriesFit, Ledger.Valid, SoldOut, BarOf, SnapshotFor, TrailingLevel;
      var found := BarOf(e.bars, position.instrument);
      if found.None? || position.instrument !in plans {
        return Ok(());
      }
      var bar, plan := found.value, plans[position.instrument];
      var stopPrice := plan.stopPrice;
      var snapshot := TechnicalSnapshot(position.instrument);
      if plan.trailing.Some? && snapshot.Some? {
        stopPrice := Max(stopPrice, TrailingLevel(plan.highestClose, snapshot.value.atr, plan.trailing.value));
      }
      if bar.low <= stopPrice {
        r := SellOut(bar, position.quantity, config.SellPrice(Min(bar.open, stopPrice)),
            OrderIdAt(position.instrument, e.time, KStop));
      } else if plan.targetPrice.Some? && bar.high >= plan.targetPrice.value {
        r := SellOut(bar, position.quantity, config.SellPrice(Max(bar.open, plan.targetPrice.value)),
                     OrderIdAt(position.instrument, e.time, KTarget));
      } else {
        if plan.trailing.Some? {
          plans := plans[position.instrument := plan.(highestClose := Max(plan.highestClose, bar.close))];
        }
        return Ok(());
      }
    }

    method ExecuteStopsAndTargets(e: MarketEvent) returns (r: Result<(), Error>)
      requires Valid()
      modifies `plans, `activeEntries, `tradePnls, `tradeRecords, broker, indicators, indicators.Repr
      ensures Valid()
      ensures fresh(indicators.Repr - old(indicators.Repr))
      ensures var spec := AfterExits(config, old(View()), e, OpenList(old(View()).ledger));
              r.Ok? ==> spec == Ok(View())
      ensures var spec := AfterExits(config, old(View()), e, OpenList(old(View()).ledger));
              r.Err? ==> spec == Err(r.error)
    {
      hide IndicatorCache.Valid, HistoriesFit, Ledger.Valid, ExitStep;
      var positions := broker.ListPositions();
      for i := 0 to |positions|
        invariant Valid() && fresh(indicators.Repr - old(indicators.Repr))
        invariant AfterExits(config, old(View()), e, positions[..i]) == Ok(View())
      {
        assert positions[..i + 1][..i] == positions[..i];
        var done := ExecuteExit(e, positions[i]);
        if done.Err? {
          ExitsStopAt(config, old(View()), e, positions, i + 1);
          return Err(done.error);
        }
      }
      assert positions[..|positions|] == positions;
      return Ok(());
    }

    // ----- Scheduling

    /** Schedule an addition to a position that has room for one, is in trend, and has moved far enough. */
    method ConsiderPyramid(e: MarketEvent, position: Position)
      requires Valid()
      modifies `pending, indicators, indicators.Repr
      ensures Valid()
      ensures View() == PyramidStep(config, old(View()), e, position)
      ensures fresh(indicators.Repr - old(indicators.Repr))
    {
      hide IndicatorCache.Valid, HistoriesFit, Ledger.Valid, BarOf, SnapshotFor, Dict.Put;
      var bar := BarOf(e.bars, position.instrument);
      if position.instrument in pending.data || position.instrument !in plans || bar.None? {
        return;
      }
      if plans[position.instrument].additions >= config.maxPyramidAdditions {
        return;
      }
      var snapshot := TechnicalSnapshot(position.instrument);
      if snapshot.None? || snapshot.value.smaFast <= snapshot.value.smaSlow {
        return;
      }
      if bar.value.close < position.averagePrice + snapshot.value.atr * config.pyramidTrigger {
        return;
      }
      pending := pending.Put(position.instrument, PendingPyramid);
    }

    method SchedulePyramids(e: MarketEvent)
      requires Valid()
      modifies `pending, indicators, indicators.Repr
      ensures Valid()
      ensures View() == AfterPyramids(config, old(View()), e, OpenList(old(View()).ledger))
      ensures fresh(indicators.Repr - old(indicators.Repr))
    {
      hide IndicatorCache.Valid, HistoriesFit, Ledger.Valid, PyramidStep;
      var positions := broker.ListPositions();
      for i := 0 to |positions|
        invariant Valid() && fresh(indicators.Repr - old(indicators.Repr))
        invariant AfterPyramids(config, old(View()), e, positions[..i]) == View()
      {
        assert positions[..i + 1][..i] == positions[..i];
        ConsiderPyramid(e, positions[i]);
      }
      assert positions[..|positions|] == positions;
    }

    /** One current bar: a sale for a held instrument out of trend, or a candidate for a free one in the universe. */
    method ScanBar(bar: Bar, allowEntries: bool, candidates: seq<Candidate>) returns (more: seq<Candidate>)
      requires Valid()
      modifies `pending, indicators, indicators.Repr
      ensures Valid()
      ensures ScanStep(config, filters, Scan(old(View()), candidates), bar, allowEntries) == Scan(View(), more)
      ensures fresh(indicators.Repr - old(indicators.Repr))
    {
      hide IndicatorCache.Valid, HistoriesFit, Ledger.Valid, FindPosition, SnapshotFor, CandidateFrom, Dict.Put;
      more := candidates;
      var position := FindPosition(broker.ListPositions(), bar.instrument, bar.exchange);
      if position.None? && bar.instrument !in activeUniverse {
        return;
      }
      var snapshot := TechnicalSnapshot(bar.instrument);
      if snapshot.None? {
        return;
      }
      if position.Some? {
        if snapshot.value.smaFast < snapshot.value.smaSlow {
          pending := pending.Put(bar.instrument, PendingSell);
        }
        return;
      }
      if allowEntries {
        var candidate := CandidateFrom(config, filters, View(), snapshot.value, HistoryOf(histories, bar.instrument));
        if candidate.Some? {
          more := candidates + [candidate.value];
        }
      }
    }

    /** The current bars in turn, with the candidates they make. */
    method ScanBars(e: MarketEvent, allowEntries: bool) returns (candidates: seq<Candidate>)
      requires Valid()
      modifies `pending, indicators, indicators.Repr
      ensures Valid()
      ensures Scanned(config, filters, old(View()), e.bars, allowEntries) == Scan(View(), candidates)
      ensures fresh(indicators.Repr - old(indicators.Repr))
    {
      hide IndicatorCache.Valid, HistoriesFit, Ledger.Valid, ScanStep;
      candidates := [];
      for i := 0 to |e.bars|
        invariant Valid() && fresh(indicators.Repr - old(indicators.Repr))
        invariant Scanned(config, filters, old(View()), e.bars[..i], allowEntries) == Scan(View(), candidates)
      {
        assert e.bars[..i + 1][..i] == e.bars[..i];
        candidates := ScanBar(e.bars[i], allowEntries, candidates);
      }
      assert e.bars[..|e.bars|] == e.bars;
    }

    /** Forget the entries that have left the pacing window. */
    method PruneRecentEntries(e: MarketEvent)
      modifies `recentEntries
      ensures View() == WithPruning(config, old(View()), e)
    {
      if config.maxNewEntries.None? {
        return;
      }
      var windowStart := e.time.instant - config.entryPeriodDays * SECONDS_PER_DAY;
      while |recentEntries| > 0 && recentEntries[0] < windowStart
        invariant Pruned(recentEntries, windowStart) == Pruned(old(recentEntries), windowStart)
        decreases |recentEntries|
      {
        recentEntries := recentEntries[1..];
      }
    }

    /** Schedule a purchase of each chosen candidate. */
    method ScheduleEntries(chosen: seq<Candidate>)
      modifies `pending
      ensures View() == Schedule(old(View()), chosen)
    {
      for i := 0 to |chosen|
        invariant View() == Schedule(old(View()), chosen[..i])
      {
        assert chosen[..i + 1][..i] == chosen[..i];
        pending := pending.Put(chosen[i].instrument, PendingBuy(chosen[i]));
      }
      assert chosen[..|chosen|] == chosen;
    }

    /** Schedule the best candidates for the free slots. */
    method FillSlots(e: MarketEvent, candidates: seq<Candidate>)
      requires Valid()
      modifies `recentEntries, `pending
      ensures Valid()
      ensures View() == SlotsFilled(config, Scan(old(View()), candidates), e)
    {
      hide IndicatorCache.Valid, HistoriesFit, Ledger.Valid, SortCandidates, Schedule, Pruned;
      PruneRecentEntries(e);
      var slots := Slots(config, View());
      var ranked := SortCandidates(candidates);
      ScheduleEntries(ranked[..MinInt(slots, |ranked|)]);
    }

    // ----- The loop

    method AppendCurrent(bars: seq<Bar>)
      modifies `histories
      ensures histories == AppendBars(old(histories), bars)
    {
      for i := 0 to |bars|
        invariant histories == AppendBars(old(histories), bars[..i])
      {
        assert bars[..i + 1][..i] == bars[..i];
        histories := histories[bars[i].instrument := HistoryOf(histories, bars[i].instrument) + [bars[i]]];
      }
      assert bars[..|bars|] == bars;
    }

    method ReceiveBars(e: MarketEvent)
      requires Valid() && Arrives(histories, e)
      modifies `histories, `regimeHistory
      ensures Valid()
      ensures View() == WithBars(old(View()), e) && histories == AppendBars(old(histories), e.bars)
    {
      hide Ledger.Valid, IndicatorCache.Valid, HistoriesFit, PaperBroker.Valid, AppendBars;
      regimeHistory := regimeHistory + e.regimeBars;
      AppendCurrent(e.bars);
      ArrivalsFit(indicators.seen, old(histories), e.bars);
    }

    /** New bars, the mark of the equity at their opens, and the cooldown. */
    method OpenEvent(e: MarketEvent) returns (r: Result<(), Error>)
      requires Valid() && Arrives(histories, e)
      modifies this, riskEngine
      ensures Valid() && (r.Ok? ==> histories == AppendBars(old(histories), e.bars))
      ensures var marked := Marked(riskLimits, WithBars(old(View()), e), e);
              if marked.Err? then r == Err(marked.error)
                else r == Ok(()) && View() == CooledDown(config, marked.value, e)
    {
      hide IndicatorCache.Valid, HistoriesFit, Ledger.Valid, EquityAtPrices, AfterMark, CooledDown, WithBars;
      ReceiveBars(e);
      WithBarsKeeps(old(View()), e);
      var equityBefore := EquityAt(true);
      var marked := riskEngine.MarkToMarket(equityBefore, e.time);
      if marked.Err? {
        return Err(marked.error);
      }
      ApplyKillSwitchCooldown(e);
      return Ok(());
    }

    /** The first half of an event: pending actions first, then stops and targets. */
    method Trade(e: MarketEvent) returns (r: Result<(), Error>)
      requires Valid() && Arrives(histories, e)
      modifies this, broker, riskEngine, indicators, indicators.Repr
      ensures Valid()
      ensures r.Ok? ==> histories == AppendBars(old(histories), e.bars)
      ensures fresh(indicators.Repr - old(indicators.Repr))
      ensures r.Ok? ==> Traded(config, riskLimits, old(View()), e) == Ok(View())
      ensures r.Err? ==> Traded(config, riskLimits, old(View()), e) == Err(r.error)
    {
      hide IndicatorCache.Valid, HistoriesFit, Ledger.Valid, Marked, CooledDown, AfterPending, AfterExits, WithBars,
           OpenList;
      r := OpenEvent(e);
      if r.Err? {
        return Err(r.error);
      }
      r := ExecutePending(e);
      if r.Err? {
        return Err(r.error);
      }
      r := ExecuteStopsAndTargets(e);
    }

    /** Rank the universe again when the rebalance is due. */
    method Rebalance(e: MarketEvent)
      modifies `activeUniverse, `lastRebalanceIndex
      ensures View() == Rebalanced(config, filters, old(View()), e)
    {
      var eventIndex := |equityCurve| - 1;
      if eventIndex - lastRebalanceIndex >= config.universeRebalanceDays {
        activeUniverse := filters.rank(histories, e.time);
        lastRebalanceIndex := eventIndex;
      }
    }

    /** Decide what happens at the next bars. */
    method ScheduleNext(e: MarketEvent)
      requires Valid()
      modifies `pending, `recentEntries, `activeUniverse, `lastRebalanceIndex, indicators, indicators.Repr
      ensures Valid()
      ensures View() == Scheduled(config, filters, old(View()), e)
      ensures fresh(indicators.Repr - old(indicators.Repr))
    {
      hide IndicatorCache.Valid, HistoriesFit, Ledger.Valid, AfterPyramids, Scanned, SlotsFilled, OpenList;
      PyramidsKeepLedger(config, View(), e, OpenList(View().ledger));
      if config.enablePyramiding {
        SchedulePyramids(e);
      }
      Rebalance(e);
      var regimeAllowsEntries := filters.regime(regimeHistory);
      var candidates := ScanBars(e, regimeAllowsEntries);
      FillSlots(e, candidates);
    }

    method RunEvent(e: MarketEvent) returns (r: Result<(), Error>)
      requires Valid() && Arrives(histories, e)
      modifies this, broker, riskEngine, indicators, indicators.Repr
      ensures Valid()
      ensures r.Ok? ==> histories == AppendBars(old(histories), e.bars)
      ensures fresh(indicators.Repr - old(indicators.Repr))
      ensures r.Ok? ==> AfterEvent(config, filters, riskLimits, old(View()), e) == Ok(View())
      ensures r.Err? ==> AfterEvent(config, filters, riskLimits, old(View()), e) == Err(r.error)
    {
      hide IndicatorCache.Valid, HistoriesFit, Ledger.Valid, Traded, Scheduled, EquityAtPrices;
      r := Trade(e);
      if r.Err? {
        return Err(r.error);
      }
      ScheduleNext(e);
      var equityClose := EquityAt(false);
      equityCurve := equityCurve + [equityClose];
    }

    /** Sell a position at its instrument's last close. */
    method SellAtLastClose(time: Timestamp, position: Position) returns (r: Result<(), Error>)
      requires Valid()
      modifies `activeEntries, `tradeRecords, `tradePnls, broker
      ensures Valid()
      ensures var spec := FinalStep(config, old(View()), time, position);
              if spec.Err? then r == Err(spec.error) else r == Ok(()) && View() == spec.value
    {
      hide IndicatorCache.Valid, HistoriesFit, Ledger.Valid, Sold, Notional;
      var history := HistoryOf(histories, position.instrument);
      if |history| == 0 {
        return Err(IndexError);
      }
      var bar := LastOf(history);
      var pnl := Sell(bar, position.quantity, config.SellPrice(bar.close),
          OrderIdAt(position.instrument, time, KFinal));
      if pnl.Err? {
        return Err(pnl.error);
      }
      tradePnls := tradePnls + [pnl.value];
      return Ok(());
    }

    /** Sell whatever is still open. */
    method Liquidate(time: Timestamp) returns (r: Result<(), Error>)
      requires Valid()
      modifies `activeEntries, `tradeRecords, `tradePnls, broker
      ensures Valid()
      ensures r.Ok? ==> AfterFinalSales(config, old(View()), time, OpenList(old(View()).ledger)) == Ok(View())
      ensures r.Err? ==> AfterFinalSales(config, old(View()), time, OpenList(old(View()).ledger)) == Err(r.error)
    {
      hide IndicatorCache.Valid, HistoriesFit, Ledger.Valid, FinalStep;
      var positions := broker.ListPositions();
      for i := 0 to |positions|
        invariant Valid()
        invariant AfterFinalSales(config, old(View()), time, positions[..i]) == Ok(View())
      {
        assert positions[..i + 1][..i] == positions[..i];
        var sold := SellAtLastClose(time, positions[i]);
        if sold.Err? {
          FinalSalesStopAt(config, old(View()), time, positions, i + 1);
          return Err(sold.error);
        }
      }
      assert positions[..|positions|] == positions;
      return Ok(());
    }

    /** Every event in turn. */
    method RunEvents(events: seq<MarketEvent>) returns (r: Result<(), Error>)
      requires Valid() && InOrder(events) && (|events| > 0 ==> Past(histories, events[0].time.instant))
      modifies this, broker, riskEngine, indicators, indicators.Repr
      ensures Valid()
      ensures r.Ok? ==> AfterEvents(config, filters, riskLimits, old(View()), events) == Ok(View())
      ensures r.Err? ==> AfterEvents(config, filters, riskLimits, old(View()), events) == Err(r.error)
      ensures r.Ok? ==> histories == Replayed(old(histories), events)
      ensures fresh(indicators.Repr - old(indicators.Repr))
    {
      hide IndicatorCache.Valid, HistoriesFit, Ledger.Valid, AfterEvent, Past, Arrives, InOrder;
      for i := 0 to |events|
        invariant Valid() && fresh(indicators.Repr - old(indicators.Repr))
        invariant i < |events| ==> Past(histories, events[i].time.instant)
        invariant histories == Replayed(old(histories), events[..i])
        invariant AfterEvents(config, filters, riskLimits, old(View()), events[..i]) == Ok(View())
      {
        assert events[..i + 1][..i] == events[..i];
        EventArrives(histories, events, i);
        var done := RunEvent(events[i]);
        if done.Err? {
          RunStopsAt(config, filters, riskLimits, old(View()), events, i + 1);
          return Err(done.error);
        }
      }
      assert events[..|events|] == events;
      return Ok(());
    }

    /** The whole run; the final capital is the cash that is left. */
    method Run(events: seq<MarketEvent>) returns (r: Result<real, Error>)
      requires Valid() && InOrder(events) && (|events| > 0 ==> Past(histories, events[0].time.instant))
      modifies this, broker, riskEngine, indicators, indicators.Repr
      ensures Valid()
      ensures r.Ok? ==>
                AfterRun(config, filters, riskLimits, old(View()), events) == Ok(View())
                && r.value == View().ledger.cash
      ensures r.Err? ==> AfterRun(config, filters, riskLimits, old(View()), events) == Err(r.error)
    {
      hide IndicatorCache.Valid, HistoriesFit, Ledger.Valid, AfterEvents, AfterFinalSales, Past, InOrder, OpenList;
      if |events| == 0 {
        return Err(ValueError);
      }
      var replayed := RunEvents(events);
      if replayed.Err? {
        return Err(replayed.error);
      }
      var sold := Liquidate(LastOf(events).time);
      if sold.Err? {
        return Err(sold.error);
      }
      if |equityCurve| > 0 {
        equityCurve := equityCurve[..|equityCurve| - 1] + [broker.cash];
      }
      var changes := CheckedReturns(equityCurve);
      if changes.Err? {
        return Err(changes.error);
      }
      return Ok(broker.cash);
    }
  }

  // ----- Bars arrive in time order

  /** The bars of an event are of different instruments, each later than its history. */
  ghost predicate Arrives(histories: map<string, seq<Bar>>, e: MarketEvent) {
    && (forall i, j :: 0 <= i < j < |e.bars| ==> e.bars[i].instrument != e.bars[j].instrument)
    && forall b | b in e.bars :: forall x | x in HistoryOf(histories, b.instrument) :: x.time.instant < b.time.instant
  }

  /** The events the loop replays: later and later, each with at most one bar of an instrument. */
  ghost predicate InOrder(events: seq<MarketEvent>) {
    && (forall k | 0 <= k < |events| :: OneBarEach(events[k]))
    && forall j, k | 0 <= j < k < |events| :: events[j].time.instant < events[k].time.instant
  }

  ghost predicate OneBarEach(e: MarketEvent) {
    && (forall b | b in e.bars :: b.time.instant == e.time.instant)
    && forall i, j :: 0 <= i < j < |e.bars| ==> e.bars[i].instrument != e.bars[j].instrument
  }

  ghost predicate Past(histories: map<string, seq<Bar>>, now: int) {
    forall i | i in histories :: forall x | x in histories[i] :: x.time.instant < now
  }

  lemma FirstBarNames(bars: seq<Bar>, instrument: string)
    requires |bars| > 0 && IsHistory(bars, instrument)
    ensures bars[0].instrument == instrument
  {}

  lemma PastArrives(histories: map<string, seq<Bar>>, e: MarketEvent)
    requires Past(histories, e.time.instant) && OneBarEach(e)
    ensures Arrives(histories, e)
  {}

  lemma {:induction false} LaterIsPast(histories: map<string, seq<Bar>>, bars: seq<Bar>, now: int)
    requires Past(histories, now) && forall b | b in bars :: b.time.instant < now
    ensures Past(AppendBars(histories, bars), now)
  {
    if |bars| > 0 {
      LaterIsPast(histories, bars[..|bars| - 1], now);
    }
  }

  lemma PastLonger(histories: map<string, seq<Bar>>, now: int, later: int)
    requires Past(histories, now) && now <= later
    ensures Past(histories, later)
  {}

  lemma EventArrives(histories: map<string, seq<Bar>>, events: seq<MarketEvent>, k: nat)
    requires InOrder(events) && k < |events| && Past(histories, events[k].time.instant)
    ensures Arrives(histories, events[k])
    ensures k + 1 < |events| ==> Past(AppendBars(histories, events[k].bars), events[k + 1].time.instant)
  {
    hide Past, Arrives;
    assert OneBarEach(events[k]);
    PastArrives(histories, events[k]);
    if k + 1 < |events| {
      PastLonger(histories, events[k].time.instant, events[k + 1].time.instant);
      LaterIsPast(histories, events[k].bars, events[k + 1].time.instant);
    }
  }

  lemma HistoryExtends(bars: seq<Bar>, bar: Bar, instrument: string)
    requires IsHistory(bars, instrument) && bar.instrument == instrument
    requires forall x | x in bars :: x.time.instant < bar.time.instant
    ensures IsHistory(bars + [bar], instrument)
  {}

  lemma OneMoreBarFits(seen: map<string, seq<Bar>>, histories: map<string, seq<Bar>>, bar: Bar)
    requires HistoriesFit(seen, histories)
    requires forall x | x in HistoryOf(histories, bar.instrument) :: x.time.instant < bar.time.instant
    ensures HistoriesFit(seen, histories[bar.instrument := HistoryOf(histories, bar.instrument) + [bar]])
  {
    hide IsHistory;
    NoBarsIsHistory(bar.instrument);
    HistoryExtends(HistoryOf(histories, bar.instrument), bar, bar.instrument);
  }

  /** Histories that grow by the bars of an event stay in time order, and extend what was seen of them. */
  lemma {:induction false} ArrivalsFit(seen: map<string, seq<Bar>>, histories: map<string, seq<Bar>>, bars: seq<Bar>)
    requires HistoriesFit(seen, histories)
    requires forall i, j :: 0 <= i < j < |bars| ==> bars[i].instrument != bars[j].instrument
    requires forall b | b in bars :: forall x | x in HistoryOf(histories, b.instrument) ::
             x.time.instant < b.time.instant
    ensures HistoriesFit(seen, AppendBars(histories, bars))
  {
    hide HistoriesFit, HistoryOf;
    if |bars| > 0 {
      var init, last := bars[..|bars| - 1], bars[|bars| - 1];
      assert bars == init + [last];
      ArrivalsFit(seen, histories, init);
      OthersUntouched(histories, init, last.instrument);
      OneMoreBarFits(seen, AppendBars(histories, init), last);
    }
  }

  lemma NoBarsIsHistory(instrument: string)
    ensures IsHistory([], instrument)
  {}

  /** The histories after the bars of some events. */
  function Replayed(histories: map<string, seq<Bar>>, events: seq<MarketEvent>): map<string, seq<Bar>> {
    if |events| == 0 then histories
    else AppendBars(Replayed(histories, events[..|events| - 1]), events[|events| - 1].bars)
  }

  lemma EntryReplacesLedger(c: Config, s: Portfolio, bar: Bar, candidate: Candidate, outcome: O.Outcome, after: Ledger,
                            e: MarketEvent)
    ensures WithEntry(c, s.(ledger := after), bar, candidate, outcome, after, e)
            == WithEntry(c, s, bar, candidate, outcome, after, e)
  {
    hide AverageFillPrice;
  }

  lemma WithBarsKeeps(s: Portfolio, e: MarketEvent)
    ensures WithBars(s, e).ledger == s.ledger && WithBars(s, e).risk == s.risk && WithBars(s, e).pending == s.pending
  {}

  /** Once one action raises, so does the whole phase. */
  lemma {:induction false} PendingStopsAt(c: Config, limits: RiskLimits, s: Portfolio, e: MarketEvent,
                                          keys: seq<string>, k: nat)
    requires s.ledger.Valid() && k <= |keys| && AfterPending(c, limits, s, e, keys[..k]).Err?
    ensures AfterPending(c, limits, s, e, keys) == AfterPending(c, limits, s, e, keys[..k])
  {
    hide Ledger.Valid, PendingStep;
    if k == |keys| {
      assert keys[..k] == keys;
    } else {
      assert keys[..|keys| - 1][..k] == keys[..k];
      PendingStopsAt(c, limits, s, e, keys[..|keys| - 1], k);
    }
  }

  lemma {:induction false} ExitsStopAt(c: Config, s: Portfolio, e: MarketEvent, positions: seq<Position>, k: nat)
    requires s.ledger.Valid() && k <= |positions| && AfterExits(c, s, e, positions[..k]).Err?
    ensures AfterExits(c, s, e, positions) == AfterExits(c, s, e, positions[..k])
  {
    hide Ledger.Valid, ExitStep;
    if k == |positions| {
      assert positions[..k] == positions;
    } else {
      assert positions[..|positions| - 1][..k] == positions[..k];
      ExitsStopAt(c, s, e, positions[..|positions| - 1], k);
    }
  }

  lemma {:induction false} FinalSalesStopAt(c: Config, s: Portfolio, time: Timestamp, positions: seq<Position>, k: nat)
    requires s.ledger.Valid() && k <= |positions| && AfterFinalSales(c, s, time, positions[..k]).Err?
    ensures AfterFinalSales(c, s, time, positions) == AfterFinalSales(c, s, time, positions[..k])
  {
    hide Ledger.Valid, FinalStep;
    if k == |positions| {
      assert positions[..k] == positions;
    } else {
      assert positions[..|positions| - 1][..k] == positions[..k];
      FinalSalesStopAt(c, s, time, positions[..|positions| - 1], k);
    }
  }

  lemma {:induction false} RunStopsAt(c: Config, f: Filters, limits: RiskLimits, start: Portfolio,
                                      events: seq<MarketEvent>, k: nat)
    requires start.ledger.Valid() && k <= |events| && AfterEvents(c, f, limits, start, events[..k]).Err?
    ensures AfterEvents(c, f, limits, start, events) == AfterEvents(c, f, limits, start, events[..k])
  {
    hide Ledger.Valid, AfterEvent;
    if k == |events| {
      assert events[..k] == events;
    } else {
      assert events[..|events| - 1][..k] == events[..k];
      RunStopsAt(c, f, limits, start, events[..|events| - 1], k);
    }
  }
}
