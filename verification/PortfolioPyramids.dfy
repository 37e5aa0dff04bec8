/** No position is ever added to more often than the configured number of pyramids. */
module PortfolioPyramids {
  import opened Prelude
  import opened OrderedDict
  import opened Models
  import opened Risk
  import opened PaperBroking
  import opened LedgerEffects
  import opened PortfolioLoop
  import O = OrderManaging

  /** No plan has too many additions, and one with an addition pending has room for it. */
  ghost predicate Roomy(c: Config, plans: map<string, Plan>, pending: map<string, Pending>) {
    forall i | i in plans :: HasRoom(c, plans[i], i in pending && pending[i].PendingPyramid?)
  }

  predicate HasRoom(c: Config, plan: Plan, pyramidPending: bool) {
    if pyramidPending then plan.additions < c.maxPyramidAdditions else plan.additions <= c.maxPyramidAdditions
  }

  ghost predicate Bounded(c: Config, s: Portfolio) {
    Roomy(c, s.plans, s.pending.data)
  }

  // ----- Each step keeps the bound

  lemma SaleKeepsBounded(c: Config, s: Portfolio, bar: Bar, quantity: int, price: real, id: OrderId)
    requires Bounded(c, s) && s.ledger.Valid() && SoldOut(s, bar, quantity, price, id).Ok?
    ensures Bounded(c, SoldOut(s, bar, quantity, price, id).value)
  {
    hide Ledger.Valid, O.AfterSellSubmission, FindInstrument, OpenList, RecordsFor, HasRoom;
  }

  /** A popped addition had room, so carrying it out stays within the bound. */
  lemma PyramidKeepsBounded(c: Config, limits: RiskLimits, s: Portfolio, bar: Bar, position: Position, e: MarketEvent)
    requires s.ledger.Valid() && Pyramided(c, limits, s.(pending := s.pending.Remove(bar.instrument)), bar, position,
             e).Ok?
    requires Bounded(c, s) && bar.instrument in s.pending.data && s.pending.data[bar.instrument].PendingPyramid?
    ensures Bounded(c, Pyramided(c, limits, s.(pending := s.pending.Remove(bar.instrument)), bar, position, e).value)
  {
    hide Ledger.Valid, O.AfterBuySubmission, PyramidArgs;
  }

  lemma EntryKeepsBounded(c: Config, limits: RiskLimits, s: Portfolio, bar: Bar, candidate: Candidate, e: MarketEvent)
    requires s.ledger.Valid() && Entered(c, limits, s, bar, candidate, e).Ok?
    requires Bounded(c, s) && bar.instrument !in s.pending.data
    ensures Bounded(c, Entered(c, limits, s, bar, candidate, e).value)
  {
    hide Ledger.Valid, O.AfterBuySubmission, EntryArgs, AverageFillPrice;
  }

  lemma PopKeepsBounded(c: Config, s: Portfolio, k: string)
    requires Bounded(c, s)
    ensures Bounded(c, s.(pending := s.pending.Remove(k)))
    ensures k !in s.pending.Remove(k).data
  {}

  lemma {:induction false} BarOfNames(bars: seq<Bar>, instrument: string)
    ensures BarOf(bars, instrument).Some? ==> BarOf(bars, instrument).value.instrument == instrument
  {
    if |bars| > 0 {
      BarOfNames(bars[..|bars| - 1], instrument);
    }
  }

  lemma PendingStepKeepsBounded(c: Config, limits: RiskLimits, s: Portfolio, e: MarketEvent, k: string)
    requires Bounded(c, s) && s.ledger.Valid() && PendingStep(c, limits, s, e, k).Ok?
    ensures Bounded(c, PendingStep(c, limits, s, e, k).value)
  {
    hide Ledger.Valid, SoldOut, Entered, Pyramided, FindPosition, OpenList, BarOf, Bounded;
    BarOfNames(e.bars, k);
    PopKeepsBounded(c, s, k);
    var bar := BarOf(e.bars, k);
    if bar.Some? && k in s.pending.data {
      var action, popped := s.pending.data[k], s.(pending := s.pending.Remove(k));
      var position := FindPosition(OpenList(s.ledger), k, bar.value.exchange);
      if action.PendingSell? && position.Some? {
        SaleKeepsBounded(c, popped, bar.value, position.value.quantity, c.SellPrice(bar.value.open),
            OrderIdAt(k, e.time, KTrend));
      } else if action.PendingPyramid? && position.Some? {
        PyramidKeepsBounded(c, limits, s, bar.value, position.value, e);
      } else if action.PendingBuy? && position.None? {
        EntryKeepsBounded(c, limits, popped, bar.value, action.candidate, e);
      }
    }
  }

  lemma {:induction false} PendingKeepsBounded(c: Config, limits: RiskLimits, s: Portfolio, e: MarketEvent,
                                               keys: seq<string>)
    requires Bounded(c, s) && s.ledger.Valid() && AfterPending(c, limits, s, e, keys).Ok?
    ensures Bounded(c, AfterPending(c, limits, s, e, keys).value)
  {
    hide Ledger.Valid, PendingStep, Bounded;
    if |keys| > 0 {
      PendingKeepsBounded(c, limits, s, e, keys[..|keys| - 1]);
      PendingStepKeepsBounded(c, limits, AfterPending(c, limits, s, e, keys[..|keys| - 1]).value, e, keys[|keys| - 1]);
    }
  }

  lemma TrailingKeepsBounded(c: Config, s: Portfolio, k: string, highest: real)
    requires Bounded(c, s) && k in s.plans
    ensures Bounded(c, s.(plans := s.plans[k := s.plans[k].(highestClose := highest)]))
  {}

  lemma ExitStepKeepsBounded(c: Config, s: Portfolio, e: MarketEvent, p: Position)
    requires Bounded(c, s) && s.ledger.Valid() && ExitStep(c, s, e, p).Ok?
    ensures Bounded(c, ExitStep(c, s, e, p).value)
  {
    hide Ledger.Valid, SoldOut, BarOf, StopLevel, Bounded;
    var bar := BarOf(e.bars, p.instrument);
    if bar.Some? && p.instrument in s.plans {
      var plan := s.plans[p.instrument];
      var stop := StopLevel(c, s, plan, p.instrument);
      if bar.value.low <= stop {
        SaleKeepsBounded(c, s, bar.value, p.quantity, c.SellPrice(Min(bar.value.open, stop)),
            OrderIdAt(p.instrument, e.time, KStop));
      } else if plan.targetPrice.Some? && bar.value.high >= plan.targetPrice.value {
        SaleKeepsBounded(c, s, bar.value, p.quantity, c.SellPrice(Max(bar.value.open, plan.targetPrice.value)),
                         OrderIdAt(p.instrument, e.time, KTarget));
      } else {
        TrailingKeepsBounded(c, s, p.instrument, Max(plan.highestClose, bar.value.close));
      }
    }
  }

  lemma {:induction false} ExitsKeepBounded(c: Config, s: Portfolio, e: MarketEvent, positions: seq<Position>)
    requires Bounded(c, s) && s.ledger.Valid() && AfterExits(c, s, e, positions).Ok?
    ensures Bounded(c, AfterExits(c, s, e, positions).value)
  {
    hide Ledger.Valid, ExitStep, Bounded;
    if |positions| > 0 {
      ExitsKeepBounded(c, s, e, positions[..|positions| - 1]);
      ExitStepKeepsBounded(c, AfterExits(c, s, e, positions[..|positions| - 1]).value, e, positions[|positions| - 1]);
    }
  }

  lemma OtherActionKeepsBounded(c: Config, s: Portfolio, k: string, action: Pending)
    requires Bounded(c, s) && !action.PendingPyramid?
    ensures Bounded(c, s.(pending := s.pending.Put(k, action)))
  {}

  lemma {:induction false} PyramidsKeepBounded(c: Config, s: Portfolio, e: MarketEvent, positions: seq<Position>)
    requires Bounded(c, s)
    ensures Bounded(c, AfterPyramids(c, s, e, positions))
  {
    hide SnapshotFor, BarOf;
    if |positions| > 0 {
      PyramidsKeepBounded(c, s, e, positions[..|positions| - 1]);
    }
  }

  lemma {:induction false} ScanKeepsBounded(c: Config, f: Filters, s: Portfolio, bars: seq<Bar>, allowEntries: bool)
    requires s.ledger.Valid() && Bounded(c, s)
    ensures Bounded(c, Scanned(c, f, s, bars, allowEntries).portfolio)
  {
    hide Ledger.Valid, OpenList, FindPosition, SnapshotFor, CandidateFrom, Bounded;
    if |bars| > 0 {
      ScanKeepsBounded(c, f, s, bars[..|bars| - 1], allowEntries);
      OtherActionKeepsBounded(c, Scanned(c, f, s, bars[..|bars| - 1], allowEntries).portfolio,
          bars[|bars| - 1].instrument, PendingSell);
    }
  }

  lemma {:induction false} ScheduleKeepsBounded(c: Config, s: Portfolio, candidates: seq<Candidate>)
    requires Bounded(c, s)
    ensures Bounded(c, Schedule(s, candidates))
  {
    hide Bounded;
    if |candidates| > 0 {
      var last := candidates[|candidates| - 1];
      ScheduleKeepsBounded(c, s, candidates[..|candidates| - 1]);
      OtherActionKeepsBounded(c, Schedule(s, candidates[..|candidates| - 1]), last.instrument, PendingBuy(last));
    }
  }

  lemma SchedulingKeepsBounded(c: Config, f: Filters, s: Portfolio, e: MarketEvent)
    requires s.ledger.Valid() && Bounded(c, s)
    ensures Bounded(c, Scheduled(c, f, s, e))
  {
    hide Ledger.Valid, OpenList, Slots, Scanned, AfterPyramids, Schedule, SortCandidates, Roomy;
    PyramidsKeepBounded(c, s, e, OpenList(s.ledger));
    PyramidsKeepLedger(c, s, e, OpenList(s.ledger));
    var balanced := Rebalanced(c, f, if c.enablePyramiding then AfterPyramids(c, s, e, OpenList(s.ledger)) else s, e);
    ScanKeepsBounded(c, f, balanced, e.bars, f.regime(balanced.regime));
    var scan := Scanned(c, f, balanced, e.bars, f.regime(balanced.regime));
    var pruned := WithPruning(c, scan.portfolio, e);
    var ranked := SortCandidates(scan.candidates);
    ScheduleKeepsBounded(c, pruned, ranked[..MinInt(Slots(c, pruned), |ranked|)]);
  }

  lemma EventKeepsBounded(c: Config, f: Filters, limits: RiskLimits, s: Portfolio, e: MarketEvent)
    requires s.ledger.Valid() && Bounded(c, s) && AfterEvent(c, f, limits, s, e).Ok?
    ensures Bounded(c, AfterEvent(c, f, limits, s, e).value)
  {
    hide Ledger.Valid, AfterMark, EquityAtPrices, OpenList, AfterPending, AfterExits, Scheduled, AfterReset,
         AppendBars, Roomy;
    var cooled := CooledDown(c, Marked(limits, WithBars(s, e), e).value, e);
    PendingKeepsBounded(c, limits, cooled, e, cooled.pending.keys);
    var acted := AfterPending(c, limits, cooled, e, cooled.pending.keys).value;
    ExitsKeepBounded(c, acted, e, OpenList(acted.ledger));
    SchedulingKeepsBounded(c, f, AfterExits(c, acted, e, OpenList(acted.ledger)).value, e);
  }

  lemma StartIsBounded(c: Config, histories: map<string, seq<Bar>>, regime: seq<Bar>)
    ensures Bounded(c, StartPortfolio(c, histories, regime))
  {}

  /**
   * Over every run, no open position has been added to more than max_pyramid_additions times, and none with an
   * addition pending has already been added to that often.
   */
  lemma {:induction false} PyramidsAreBounded(c: Config, f: Filters, limits: RiskLimits, histories: map<string,
                                              seq<Bar>>,
                                              regime: seq<Bar>, events: seq<MarketEvent>)
    requires AfterEvents(c, f, limits, StartPortfolio(c, histories, regime), events).Ok?
    ensures Bounded(c, AfterEvents(c, f, limits, StartPortfolio(c, histories, regime), events).value)
  {
    hide AfterEvent, Bounded;
    StartIsBounded(c, histories, regime);
    if |events| > 0 {
      PyramidsAreBounded(c, f, limits, histories, regime, events[..|events| - 1]);
      EventKeepsBounded(c, f, limits, AfterEvents(c, f, limits, StartPortfolio(c, histories, regime),
          events[..|events| - 1]).value,
                        events[|events| - 1]);
    }
  }
}
