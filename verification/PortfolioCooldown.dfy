/** The research cooldown never resets the kill switch before its time. */
module PortfolioCooldown {
  import opened Prelude
  import opened OrderedDict
  import opened Models
  import opened Risk
  import opened PaperBroking
  import opened LedgerEffects
  import opened PortfolioLoop
  import O = OrderManaging

  // ----- Only the cooldown touches the switch

  ghost predicate SameSwitch(s: Portfolio, after: Portfolio) {
    after.risk == s.risk && after.triggeredAt == s.triggeredAt && after.resets == s.resets
  }

  /** Nor does anything before the close touch the equity curve. */
  ghost predicate Untouched(s: Portfolio, after: Portfolio) {
    SameSwitch(s, after) && after.curve == s.curve
  }

  lemma SaleKeepsSwitch(s: Portfolio, bar: Bar, quantity: int, price: real, id: OrderId)
    requires s.ledger.Valid() && SoldOut(s, bar, quantity, price, id).Ok?
    ensures Untouched(s, SoldOut(s, bar, quantity, price, id).value)
  {
    hide Ledger.Valid, O.AfterSellSubmission, FindInstrument, OpenList, RecordsFor;
  }

  lemma EntryKeepsSwitch(c: Config, limits: RiskLimits, s: Portfolio, bar: Bar, candidate: Candidate, e: MarketEvent)
    requires s.ledger.Valid() && Entered(c, limits, s, bar, candidate, e).Ok?
    ensures Untouched(s, Entered(c, limits, s, bar, candidate, e).value)
  {
    hide Ledger.Valid, O.AfterBuySubmission, EntryArgs, AverageFillPrice;
  }

  lemma PyramidKeepsSwitch(c: Config, limits: RiskLimits, s: Portfolio, bar: Bar, position: Position, e: MarketEvent)
    requires s.ledger.Valid() && Pyramided(c, limits, s, bar, position, e).Ok?
    ensures Untouched(s, Pyramided(c, limits, s, bar, position, e).value)
  {
    hide Ledger.Valid, O.AfterBuySubmission, PyramidArgs;
  }

  lemma PendingStepKeepsSwitch(c: Config, limits: RiskLimits, s: Portfolio, e: MarketEvent, k: string)
    requires s.ledger.Valid() && PendingStep(c, limits, s, e, k).Ok?
    ensures Untouched(s, PendingStep(c, limits, s, e, k).value)
  {
    hide Ledger.Valid, SoldOut, Entered, Pyramided, FindPosition, OpenList, BarOf;
    var bar := BarOf(e.bars, k);
    if bar.Some? && k in s.pending.data {
      var action, popped := s.pending.data[k], s.(pending := s.pending.Remove(k));
      var position := FindPosition(OpenList(s.ledger), k, bar.value.exchange);
      if action.PendingSell? && position.Some? {
        SaleKeepsSwitch(popped, bar.value, position.value.quantity, c.SellPrice(bar.value.open),
            OrderIdAt(k, e.time, KTrend));
      } else if action.PendingPyramid? && position.Some? {
        PyramidKeepsSwitch(c, limits, popped, bar.value, position.value, e);
      } else if action.PendingBuy? && position.None? {
        EntryKeepsSwitch(c, limits, popped, bar.value, action.candidate, e);
      }
    }
  }

  lemma {:induction false} PendingKeepsSwitch(c: Config, limits: RiskLimits, s: Portfolio, e: MarketEvent,
                                              keys: seq<string>)
    requires s.ledger.Valid() && AfterPending(c, limits, s, e, keys).Ok?
    ensures Untouched(s, AfterPending(c, limits, s, e, keys).value)
  {
    hide Ledger.Valid, PendingStep;
    if |keys| > 0 {
      PendingKeepsSwitch(c, limits, s, e, keys[..|keys| - 1]);
      PendingStepKeepsSwitch(c, limits, AfterPending(c, limits, s, e, keys[..|keys| - 1]).value, e, keys[|keys| - 1]);
    }
  }

  lemma {:induction false} ExitsKeepSwitch(c: Config, s: Portfolio, e: MarketEvent, positions: seq<Position>)
    requires s.ledger.Valid() && AfterExits(c, s, e, positions).Ok?
    ensures Untouched(s, AfterExits(c, s, e, positions).value)
  {
    hide Ledger.Valid, ExitStep;
    if |positions| > 0 {
      ExitsKeepSwitch(c, s, e, positions[..|positions| - 1]);
      ExitStepKeepsSwitch(c, AfterExits(c, s, e, positions[..|positions| - 1]).value, e, positions[|positions| - 1]);
    }
  }

  lemma ExitStepKeepsSwitch(c: Config, s: Portfolio, e: MarketEvent, p: Position)
    requires s.ledger.Valid() && ExitStep(c, s, e, p).Ok?
    ensures Untouched(s, ExitStep(c, s, e, p).value)
  {
    hide Ledger.Valid, SoldOut, BarOf, StopLevel;
    var bar := BarOf(e.bars, p.instrument);
    if bar.Some? && p.instrument in s.plans {
      var plan := s.plans[p.instrument];
      var stop := StopLevel(c, s, plan, p.instrument);
      if bar.value.low <= stop {
        SaleKeepsSwitch(s, bar.value, p.quantity, c.SellPrice(Min(bar.value.open, stop)),
            OrderIdAt(p.instrument, e.time, KStop));
      } else if plan.targetPrice.Some? && bar.value.high >= plan.targetPrice.value {
        SaleKeepsSwitch(s, bar.value, p.quantity, c.SellPrice(Max(bar.value.open, plan.targetPrice.value)),
                        OrderIdAt(p.instrument, e.time, KTarget));
      }
    }
  }

  lemma {:induction false} PyramidsKeepSwitch(c: Config, s: Portfolio, e: MarketEvent, positions: seq<Position>)
    ensures Untouched(s, AfterPyramids(c, s, e, positions))
  {
    hide WantsPyramid;
    if |positions| > 0 {
      PyramidsKeepSwitch(c, s, e, positions[..|positions| - 1]);
    }
  }

  lemma {:induction false} ScanKeepsSwitch(c: Config, f: Filters, s: Portfolio, bars: seq<Bar>, allowEntries: bool)
    requires s.ledger.Valid()
    ensures Untouched(s, Scanned(c, f, s, bars, allowEntries).portfolio)
  {
    hide Ledger.Valid, OpenList, FindPosition, SnapshotFor, CandidateFrom;
    if |bars| > 0 {
      ScanKeepsSwitch(c, f, s, bars[..|bars| - 1], allowEntries);
    }
  }

  lemma {:induction false} ScheduleKeepsSwitch(s: Portfolio, candidates: seq<Candidate>)
    ensures Untouched(s, Schedule(s, candidates))
  {
    if |candidates| > 0 {
      ScheduleKeepsSwitch(s, candidates[..|candidates| - 1]);
    }
  }

  lemma SchedulingKeepsSwitch(c: Config, f: Filters, s: Portfolio, e: MarketEvent)
    requires s.ledger.Valid()
    ensures Untouched(s, Scheduled(c, f, s, e))
  {
    hide Ledger.Valid, OpenList, Slots, Scanned, AfterPyramids, Schedule, SortCandidates;
    PyramidsKeepSwitch(c, s, e, OpenList(s.ledger));
    PyramidsKeepLedger(c, s, e, OpenList(s.ledger));
    var balanced := Rebalanced(c, f, if c.enablePyramiding then AfterPyramids(c, s, e, OpenList(s.ledger)) else s, e);
    ScanKeepsSwitch(c, f, balanced, e.bars, f.regime(balanced.regime));
    var scan := Scanned(c, f, balanced, e.bars, f.regime(balanced.regime));
    var pruned := WithPruning(c, scan.portfolio, e);
    var ranked := SortCandidates(scan.candidates);
    ScheduleKeepsSwitch(pruned, ranked[..MinInt(Slots(c, pruned), |ranked|)]);
  }

  // ----- While the switch is tripped nothing is bought

  lemma TrippedBlocks(limits: RiskLimits, l: Ledger, r: RiskState, a: O.BuyArgs)
    requires l.Valid() && r.tripped && O.AfterBuySubmission(limits, l, r, a).Ok?
    ensures O.AfterBuySubmission(limits, l, r, a).value.0 == l
  {
    hide O.Sized, O.AfterPlacing, O.OpenPositions;
  }

  lemma SoldOutBuysNothing(s: Portfolio, bar: Bar, quantity: int, price: real, id: OrderId)
    requires s.ledger.Valid() && SoldOut(s, bar, quantity, price, id).Ok?
    ensures O.NothingBought(s.ledger, SoldOut(s, bar, quantity, price, id).value.ledger)
  {
    hide Ledger.Valid, O.AfterSellSubmission, FindInstrument, OpenList, O.NothingBought;
    O.SalesBuyNothing(s.ledger, O.SellArgs(id, bar.instrument, bar.exchange, quantity, price, bar.time));
  }

  lemma TrippedStepBuysNothing(c: Config, limits: RiskLimits, s: Portfolio, e: MarketEvent, k: string)
    requires s.ledger.Valid() && s.risk.tripped && PendingStep(c, limits, s, e, k).Ok?
    ensures O.NothingBought(s.ledger, PendingStep(c, limits, s, e, k).value.ledger)
  {
    hide Ledger.Valid, O.AfterBuySubmission, SoldOut, FindPosition, OpenList, PyramidArgs, EntryArgs, BarOf,
         O.IsFilledBuy;
    var bar := BarOf(e.bars, k);
    if bar.Some? && k in s.pending.data {
      var action, popped := s.pending.data[k], s.(pending := s.pending.Remove(k));
      var position := FindPosition(OpenList(s.ledger), k, bar.value.exchange);
      if action.PendingSell? && position.Some? {
        SoldOutBuysNothing(popped, bar.value, position.value.quantity, c.SellPrice(bar.value.open),
            OrderIdAt(k, e.time, KTrend));
      } else if action.PendingPyramid? && position.Some? {
        if bar.value.instrument in s.plans && s.plans[bar.value.instrument].highestClose != 0.0 {
          TrippedBlocks(limits, s.ledger, s.risk,
                        PyramidArgs(c, popped, bar.value, position.value, s.plans[bar.value.instrument], e));
        }
      } else if action.PendingBuy? && position.None? && action.candidate.technical.close != 0.0 {
        TrippedBlocks(limits, s.ledger, s.risk, EntryArgs(c, popped, bar.value, action.candidate, e));
      }
    }
  }

  lemma {:induction false} TrippedPhaseBuysNothing(c: Config, limits: RiskLimits, s: Portfolio, e: MarketEvent,
                                                   keys: seq<string>)
    requires s.ledger.Valid() && s.risk.tripped && AfterPending(c, limits, s, e, keys).Ok?
    ensures O.NothingBought(s.ledger, AfterPending(c, limits, s, e, keys).value.ledger)
  {
    hide Ledger.Valid, PendingStep, O.IsFilledBuy;
    if |keys| > 0 {
      var init := keys[..|keys| - 1];
      TrippedPhaseBuysNothing(c, limits, s, e, init);
      PendingKeepsSwitch(c, limits, s, e, init);
      TrippedStepBuysNothing(c, limits, AfterPending(c, limits, s, e, init).value, e, keys[|keys| - 1]);
    }
  }

  lemma ExitStepBuysNothing(c: Config, s: Portfolio, e: MarketEvent, p: Position)
    requires s.ledger.Valid() && ExitStep(c, s, e, p).Ok?
    ensures O.NothingBought(s.ledger, ExitStep(c, s, e, p).value.ledger)
  {
    hide Ledger.Valid, SoldOut, BarOf, StopLevel, O.IsFilledBuy;
    var bar := BarOf(e.bars, p.instrument);
    if bar.Some? && p.instrument in s.plans {
      var plan := s.plans[p.instrument];
      var stop := StopLevel(c, s, plan, p.instrument);
      if bar.value.low <= stop {
        SoldOutBuysNothing(s, bar.value, p.quantity, c.SellPrice(Min(bar.value.open, stop)),
            OrderIdAt(p.instrument, e.time, KStop));
      } else if plan.targetPrice.Some? && bar.value.high >= plan.targetPrice.value {
        SoldOutBuysNothing(s, bar.value, p.quantity, c.SellPrice(Max(bar.value.open, plan.targetPrice.value)),
                           OrderIdAt(p.instrument, e.time, KTarget));
      }
    }
  }

  lemma {:induction false} ExitsBuyNothing(c: Config, s: Portfolio, e: MarketEvent, positions: seq<Position>)
    requires s.ledger.Valid() && AfterExits(c, s, e, positions).Ok?
    ensures O.NothingBought(s.ledger, AfterExits(c, s, e, positions).value.ledger)
  {
    hide Ledger.Valid, ExitStep, O.IsFilledBuy;
    if |positions| > 0 {
      ExitsBuyNothing(c, s, e, positions[..|positions| - 1]);
      ExitStepBuysNothing(c, AfterExits(c, s, e, positions[..|positions| - 1]).value, e, positions[|positions| - 1]);
    }
  }

  // ----- One event

  /** The portfolio once an event has marked equity and applied the cooldown, before anything trades. */
  function AfterCooldown(c: Config, limits: RiskLimits, s: Portfolio, e: MarketEvent): Result<Portfolio, Error>
    requires s.ledger.Valid()
  {
    match Marked(limits, WithBars(s, e), e)
    case Err(error) => Err(error)
    case Ok(marked) => Ok(CooledDown(c, marked, e))
  }

  /** The switch was tripped when the event marked its equity. */
  predicate TrippedOnMark(limits: RiskLimits, s: Portfolio, e: MarketEvent)
    requires s.ledger.Valid()
  {
    Marked(limits, WithBars(s, e), e).Ok? && Marked(limits, WithBars(s, e), e).value.risk.tripped
  }

  lemma EventSwitch(c: Config, f: Filters, limits: RiskLimits, s: Portfolio, e: MarketEvent)
    requires s.ledger.Valid() && AfterEvent(c, f, limits, s, e).Ok?
    ensures AfterCooldown(c, limits, s, e).Ok?
    ensures SameSwitch(AfterCooldown(c, limits, s, e).value, AfterEvent(c, f, limits, s, e).value)
    ensures AfterCooldown(c, limits, s, e).value.risk.tripped
            ==> O.NothingBought(s.ledger, AfterEvent(c, f, limits, s, e).value.ledger)
  {
    hide Ledger.Valid, AfterMark, EquityAtPrices, OpenList, AfterPending, AfterExits, Scheduled, AfterReset,
         O.IsFilledBuy, AppendBars;
    var cooled := AfterCooldown(c, limits, s, e).value;
    var acted := AfterPending(c, limits, cooled, e, cooled.pending.keys).value;
    var traded := AfterExits(c, acted, e, OpenList(acted.ledger)).value;
    PendingKeepsSwitch(c, limits, cooled, e, cooled.pending.keys);
    ExitsKeepSwitch(c, acted, e, OpenList(acted.ledger));
    SchedulingKeepsSwitch(c, f, traded, e);
    ExitsBuyNothing(c, acted, e, OpenList(acted.ledger));
    if cooled.risk.tripped {
      TrippedPhaseBuysNothing(c, limits, cooled, e, cooled.pending.keys);
    }
  }

  /** Every event adds one equity point: the cash, and what is held at the last closes. */
  lemma EventAddsOnePoint(c: Config, f: Filters, limits: RiskLimits, s: Portfolio, e: MarketEvent)
    requires s.ledger.Valid() && AfterEvent(c, f, limits, s, e).Ok?
    ensures var after := AfterEvent(c, f, limits, s, e).value;
            after.curve == s.curve + [EquityAtPrices(after.ledger, after.histories, false)]
  {
    hide Ledger.Valid, AfterMark, EquityAtPrices, OpenList, AfterPending, AfterExits, Scheduled, AfterReset, AppendBars;
    var cooled := AfterCooldown(c, limits, s, e).value;
    var acted := AfterPending(c, limits, cooled, e, cooled.pending.keys).value;
    PendingKeepsSwitch(c, limits, cooled, e, cooled.pending.keys);
    ExitsKeepSwitch(c, acted, e, OpenList(acted.ledger));
    SchedulingKeepsSwitch(c, f, AfterExits(c, acted, e, OpenList(acted.ledger)).value, e);
  }

  lemma ResetClears(s: RiskState)
    ensures AfterReset(s, COOLDOWN_REASON).Ok? && !AfterReset(s, COOLDOWN_REASON).value.tripped
  {}

  // ----- Runs

  lemma {:induction false} PrefixCompletes(c: Config, f: Filters, limits: RiskLimits, start: Portfolio,
                                           events: seq<MarketEvent>, k: nat)
    requires start.ledger.Valid() && k <= |events| && AfterEvents(c, f, limits, start, events).Ok?
    ensures AfterEvents(c, f, limits, start, events[..k]).Ok?
  {
    hide Ledger.Valid, AfterEvent;
    if k == |events| {
      assert events[..k] == events;
    } else {
      PrefixCompletes(c, f, limits, start, events[..|events| - 1], k);
      assert events[..|events| - 1][..k] == events[..k];
    }
  }

  /** The portfolio before event k of a run. */
  ghost function StateAt(c: Config, f: Filters, limits: RiskLimits, start: Portfolio, events: seq<MarketEvent>,
                         k: nat): (s: Portfolio)
    requires start.ledger.Valid() && k <= |events| && AfterEvents(c, f, limits, start, events).Ok?
    ensures s.ledger.Valid()
  {
    PrefixCompletes(c, f, limits, start, events, k);
    AfterEvents(c, f, limits, start, events[..k]).value
  }

  lemma NextState(c: Config, f: Filters, limits: RiskLimits, start: Portfolio, events: seq<MarketEvent>, k: nat)
    requires start.ledger.Valid() && k < |events| && AfterEvents(c, f, limits, start, events).Ok?
    ensures AfterEvent(c, f, limits, StateAt(c, f, limits, start, events, k), events[k])
         == Ok(StateAt(c, f, limits, start, events, k + 1))
  {
    hide Ledger.Valid, AfterEvent;
    PrefixCompletes(c, f, limits, start, events, k + 1);
    assert events[..k + 1][..k] == events[..k];
  }

  /** Throughout event j the switch was tripped, and the event bought nothing. */
  ghost predicate HeldBack(c: Config, f: Filters, limits: RiskLimits, start: Portfolio, events: seq<MarketEvent>,
                           j: nat)
    requires start.ledger.Valid() && j < |events| && AfterEvents(c, f, limits, start, events).Ok?
  {
    var s := StateAt(c, f, limits, start, events, j);
    && AfterCooldown(c, limits, s, events[j]).Ok? && AfterCooldown(c, limits, s, events[j]).value.risk.tripped
    && O.NothingBought(s.ledger, StateAt(c, f, limits, start, events, j + 1).ledger)
  }

  ghost predicate HeldBackFrom(c: Config, f: Filters, limits: RiskLimits, start: Portfolio, events: seq<MarketEvent>,
                               i: nat, k: nat)
    requires start.ledger.Valid() && k <= |events| && AfterEvents(c, f, limits, start, events).Ok?
  {
    forall j: nat | i <= j < k :: HeldBack(c, f, limits, start, events, j)
  }

  ghost predicate ResetAt(c: Config, f: Filters, limits: RiskLimits, start: Portfolio, events: seq<MarketEvent>, k: nat)
    requires start.ledger.Valid() && k < |events| && AfterEvents(c, f, limits, start, events).Ok?
  {
    StateAt(c, f, limits, start, events, k + 1).resets != StateAt(c, f, limits, start, events, k).resets
  }

  /** The event whose time the loop remembers: since then the switch has stayed tripped and nothing was bought. */
  ghost predicate TriggeredBy(c: Config, f: Filters, limits: RiskLimits, start: Portfolio, events: seq<MarketEvent>,
                              k: nat, i: nat)
    requires start.ledger.Valid() && k <= |events| && AfterEvents(c, f, limits, start, events).Ok?
  {
    i < k && StateAt(c, f, limits, start, events, k).triggeredAt == Some(events[i].time.instant) &&
    HeldBackFrom(c, f, limits, start, events, i, k)
  }

  lemma {:induction false} TriggerIsExplained(c: Config, f: Filters, limits: RiskLimits, start: Portfolio,
                                              events: seq<MarketEvent>, k: nat)
    requires start.ledger.Valid() && k <= |events| && AfterEvents(c, f, limits, start, events).Ok?
    requires c.cooldownDays.Some? && start.triggeredAt.None?
    requires StateAt(c, f, limits, start, events, k).triggeredAt.Some?
    ensures exists i: nat :: TriggeredBy(c, f, limits, start, events, k, i)
  {
    hide Ledger.Valid, AfterEvent, AfterCooldown, O.NothingBought, StateAt, AfterEvents;
    if k == 0 {
      StateAtStart(c, f, limits, start, events);
    } else {
      var before, e := StateAt(c, f, limits, start, events, k - 1), events[k - 1];
      NextState(c, f, limits, start, events, k - 1);
      EventSwitch(c, f, limits, before, e);
      TriggerMoves(c, limits, before, e);
      assert HeldBack(c, f, limits, start, events, k - 1);
      if before.triggeredAt.Some? {
        TriggerIsExplained(c, f, limits, start, events, k - 1);
        var i: nat :| TriggeredBy(c, f, limits, start, events, k - 1, i);
        assert TriggeredBy(c, f, limits, start, events, k, i);
      } else {
        assert TriggeredBy(c, f, limits, start, events, k, k - 1);
      }
    }
  }

  lemma StateAtStart(c: Config, f: Filters, limits: RiskLimits, start: Portfolio, events: seq<MarketEvent>)
    requires start.ledger.Valid() && AfterEvents(c, f, limits, start, events).Ok?
    ensures StateAt(c, f, limits, start, events, 0) == start
  {
    hide AfterEvent, Ledger.Valid;
    assert events[..0] == [];
  }

  /** What one event does to the remembered time and to the number of resets. */
  lemma TriggerMoves(c: Config, limits: RiskLimits, s: Portfolio, e: MarketEvent)
    requires s.ledger.Valid() && AfterCooldown(c, limits, s, e).Ok? && c.cooldownDays.Some?
    ensures var after := AfterCooldown(c, limits, s, e).value;
            && (after.triggeredAt.Some? ==>
                  after.risk.tripped &&
                  (if s.triggeredAt.Some? then after.triggeredAt == s.triggeredAt
                      else after.triggeredAt == Some(e.time.instant)))
            && (after.resets != s.resets ==>
                  && s.triggeredAt.Some? && TrippedOnMark(limits, s, e) && !after.risk.tripped
                  && (e.time.instant - s.triggeredAt.value) / SECONDS_PER_DAY >= c.cooldownDays.value)
  {
    hide Ledger.Valid, AfterMark, EquityAtPrices, AfterReset, AppendBars, COOLDOWN_REASON;
    var marked := Marked(limits, WithBars(s, e), e).value;
    ResetClears(marked.risk);
  }

  /**
   * Every automatic reset comes at least the configured number of days after an event from which on the switch was
   * tripped at every event, and no purchase or pyramid was filled.
   */
  lemma CooldownSafety(c: Config, f: Filters, limits: RiskLimits, start: Portfolio, events: seq<MarketEvent>, k: nat)
    returns (i: nat)
    requires start.ledger.Valid() && k < |events| && AfterEvents(c, f, limits, start, events).Ok?
    requires c.cooldownDays.Some? && start.triggeredAt.None?
    requires ResetAt(c, f, limits, start, events, k)
    ensures i < k && HeldBackFrom(c, f, limits, start, events, i, k)
    ensures TrippedOnMark(limits, StateAt(c, f, limits, start, events, k), events[k])
    ensures !HeldBack(c, f, limits, start, events, k)
    ensures (events[k].time.instant - events[i].time.instant) / SECONDS_PER_DAY >= c.cooldownDays.value
  {
    hide Ledger.Valid, AfterEvent, AfterCooldown, O.NothingBought, StateAt, HeldBackFrom, TrippedOnMark, AfterEvents;
    var before := StateAt(c, f, limits, start, events, k);
    NextState(c, f, limits, start, events, k);
    EventSwitch(c, f, limits, before, events[k]);
    TriggerMoves(c, limits, before, events[k]);
    TriggerIsExplained(c, f, limits, start, events, k);
    i :| TriggeredBy(c, f, limits, start, events, k, i);
  }

  /** Hence two resets are at least the cooldown apart. */
  lemma ResetsAreApart(c: Config, f: Filters, limits: RiskLimits, start: Portfolio, events: seq<MarketEvent>, j: nat,
                       k: nat)
    requires start.ledger.Valid() && j < k < |events| && AfterEvents(c, f, limits, start, events).Ok?
    requires c.cooldownDays.Some? && start.triggeredAt.None?
    requires forall x, y | 0 <= x < y < |events| :: events[x].time.instant < events[y].time.instant
    requires ResetAt(c, f, limits, start, events, j) && ResetAt(c, f, limits, start, events, k)
    ensures events[k].time.instant - events[j].time.instant > c.cooldownDays.value * SECONDS_PER_DAY
  {
    hide Ledger.Valid, StateAt, HeldBack, ResetAt, TrippedOnMark, AfterEvents;
    var first := CooldownSafety(c, f, limits, start, events, j);
    var i := CooldownSafety(c, f, limits, start, events, k);
    assert i > j;
    assert events[j].time.instant < events[i].time.instant;
  }
}
