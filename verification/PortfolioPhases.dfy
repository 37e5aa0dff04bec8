/** The phases of an event, and whole runs, keep the loop invariant. */
module PortfolioPhases {
  import opened Prelude
  import opened OrderedDict
  import opened Models
  import opened Risk
  import opened PaperBroking
  import opened OrderManaging
  import opened LedgerEffects
  import opened PortfolioLoop
  import opened PortfolioBooks
  import opened PortfolioSteps

  ghost function Ids(s: Portfolio): set<OrderId> { s.ledger.orders.data.Keys }

  /** The position is as it was when the phase listed it. */
  ghost predicate StillOpen(m: Market, l: Ledger, p: Position) {
    p.instrument in m && p.instrument in Holding(m, l) && p.quantity == l.Held(KeyOf(m, p.instrument))
  }

  lemma OneOrderIds(m: Market, l: Ledger, after: Ledger, id: OrderId, instrument: string, delta: int)
    requires ValidMarket(m) && instrument in m && OneOrder(l, after, id, KeyOf(m, instrument), delta)
    ensures after.orders.data.Keys == l.orders.data.Keys + {id}
    ensures forall p: Position :: StillOpen(m, l, p) && p.instrument != instrument ==> StillOpen(m, after, p)
  {
    hide PositionKey;
    forall p: Position | StillOpen(m, l, p) && p.instrument != instrument ensures StillOpen(m, after, p) {
      assert KeyOf(m, p.instrument) != KeyOf(m, instrument);
      assert after.Held(KeyOf(m, p.instrument)) == l.Held(KeyOf(m, p.instrument));
    }
  }

  lemma ListedPositionsAreOpen(m: Market, l: Ledger)
    requires ValidMarket(m) && Coherent(m, l)
    ensures forall p | p in OpenList(l) :: StillOpen(m, l, p)
    ensures OnePerInstrument(OpenList(l))
  {
    hide PositionKey;
    OpenListHasOnePerInstrument(m, l);
    forall p | p in OpenList(l) ensures StillOpen(m, l, p) {
      OpenPositionsAreHeld(m, l, p);
    }
  }

  /** A position sold out: the invariant holds, one id is spent, and the other positions are untouched. */
  ghost predicate SoldOutWell(m: Market, c: Config, s: Portfolio, after: Portfolio, now: int, id: OrderId,
                              instrument: string) {
    && Steady(m, c, after, now)
    && Ids(after) == Ids(s) + {id}
    && after.histories == s.histories && after.pending == s.pending
    && Holding(m, after.ledger) == Holding(m, s.ledger) - {instrument}
    && forall p: Position :: StillOpen(m, s.ledger, p) && p.instrument != instrument ==> StillOpen(m, after.ledger, p)
  }

  lemma SteadyIsBooked(m: Market, c: Config, s: Portfolio, now: int)
    requires Steady(m, c, s, now)
    ensures Booked(m, c, s) && ValidMarket(m) && Coherent(m, s.ledger) && s.ledger.Valid()
  {
    hide Holding, KnownHistories, Paced, BuyKeys;
    BookedIsValid(m, c, s);
  }

  lemma SaleShape(m: Market, c: Config, s: Portfolio, after: Portfolio, id: OrderId, instrument: string)
    requires instrument in m && SaleMade(m, c, s, after, id, instrument)
    ensures OneOrder(s.ledger, after.ledger, id, KeyOf(m, instrument), 0 - s.ledger.Held(KeyOf(m, instrument)))
    ensures Holding(m, after.ledger) == Holding(m, s.ledger) - {instrument}
    ensures Booked(m, c, after) && Entries(after.ledger) == Entries(s.ledger)
    ensures after.histories == s.histories && after.pending == s.pending && after.curve == s.curve
  {
    hide OneOrder, Holding, Booked, PositionKey, Entries;
  }

  lemma SellingOutIsSteady(m: Market, c: Config, s: Portfolio, now: int, bar: Bar, quantity: int, price: real,
                           id: OrderId)
    requires Steady(m, c, s, now) && Listed(m, bar) && bar.instrument in Holding(m, s.ledger)
    requires quantity == s.ledger.Held(KeyOf(m, bar.instrument))
    requires id !in Ids(s) && !id.kind.KBuy?
    requires s.ledger.Valid() && SoldOut(s, bar, quantity, price, id).Ok?
    ensures SoldOutWell(m, c, s, SoldOut(s, bar, quantity, price, id).value, now, id, bar.instrument)
  {
    hide PositionKey, Holding, OneOrder, Booked, Sold, StillOpen, SaleMade, Steady;
    SteadyIsBooked(m, c, s, now);
    SaleKeepsBooks(m, c, s, bar, quantity, price, id);
    var sold := Sold(s, bar, quantity, price, id).value;
    SaleKeepsSteady(m, c, s, sold, now, id, bar.instrument);
    SaleShape(m, c, s, sold, id, bar.instrument);
    OneOrderIds(m, s.ledger, sold.ledger, id, bar.instrument, 0 - quantity);
  }

  // ----- Pending actions

  lemma FoundPosition(m: Market, c: Config, s: Portfolio, now: int, bar: Bar)
    requires Steady(m, c, s, now) && Listed(m, bar)
    ensures s.ledger.Valid()
    ensures var found := FindPosition(OpenList(s.ledger), bar.instrument, bar.exchange);
            && (found.Some? <==> bar.instrument in Holding(m, s.ledger))
            && (found.Some? ==> found.value.quantity == s.ledger.Held(KeyOf(m, bar.instrument)))
  {
    hide PositionKey, Holding, KnownHistories, Paced, BuyKeys, OpenList;
    BookedIsValid(m, c, s);
    LookupFindsHeld(m, s.ledger, bar.instrument);
  }

  /** What a pending action leaves for the rest of its event. */
  ghost predicate ActedWell(m: Market, c: Config, s: Portfolio, after: Portfolio, e: MarketEvent, acted: set<string>) {
    && Steady(m, c, after, e.time.instant)
    && after.histories == s.histories
    && Spent(Ids(after), e.time.instant, acted, {})
  }

  lemma FreshAction(ids: set<OrderId>, e: MarketEvent, acted: set<string>, k: string, kind: OrderKind)
    requires Spent(ids, e.time.instant, acted, {}) && k !in acted
    requires kind.KTrend? || kind.KBuy? || kind.KPyramid?
    ensures OrderIdAt(k, e.time, kind) !in ids
    ensures forall more: set<OrderId> ::
              more <= ids + {OrderIdAt(k, e.time, kind)} ==> Spent(more, e.time.instant, acted + {k}, {})
  {}

  lemma MoreActed(ids: set<OrderId>, now: int, acted: set<string>, k: string)
    requires Spent(ids, now, acted, {})
    ensures Spent(ids, now, acted + {k}, {})
  {}

  lemma PendingSaleActsWell(m: Market, c: Config, s: Portfolio, e: MarketEvent, bar: Bar, quantity: int, price: real,
                            acted: set<string>)
    requires Steady(m, c, s, e.time.instant) && Listed(m, bar) && bar.instrument in Holding(m, s.ledger)
    requires quantity == s.ledger.Held(KeyOf(m, bar.instrument)) && bar.instrument !in acted
    requires Spent(Ids(s), e.time.instant, acted, {})
    requires s.ledger.Valid() && SoldOut(s, bar, quantity, price, OrderIdAt(bar.instrument, e.time, KTrend)).Ok?
    ensures ActedWell(m, c, s, SoldOut(s, bar, quantity, price, OrderIdAt(bar.instrument, e.time, KTrend)).value, e,
            acted + {bar.instrument})
  {
    hide PositionKey, Holding, Steady, SoldOut, StillOpen, Spent;
    FreshAction(Ids(s), e, acted, bar.instrument, KTrend);
    SellingOutIsSteady(m, c, s, e.time.instant, bar, quantity, price, OrderIdAt(bar.instrument, e.time, KTrend));
  }

  lemma PendingPyramidActsWell(m: Market, c: Config, limits: RiskLimits, s: Portfolio, e: MarketEvent, bar: Bar,
                               position: Position, acted: set<string>)
    requires Steady(m, c, s, e.time.instant) && Listed(m, bar) && bar.instrument in Holding(m, s.ledger)
    requires bar.instrument !in acted && Spent(Ids(s), e.time.instant, acted, {})
    requires s.ledger.Valid() && Pyramided(c, limits, s, bar, position, e).Ok?
    ensures ActedWell(m, c, s, Pyramided(c, limits, s, bar, position, e).value, e, acted + {bar.instrument})
  {
    hide PositionKey, Holding, Pyramided, Spent, BooksAgree, Paced, KnownHistories, BuyKeys, Entries;
    FreshAction(Ids(s), e, acted, bar.instrument, KPyramid);
    PyramidKeepsBooks(m, c, limits, s, bar, position, e);
    var after := Pyramided(c, limits, s, bar, position, e).value;
    var filled :| PyramidMade(m, c, s, after, e, bar.instrument, filled);
    PyramidKeepsSteady(m, c, s, after, e, bar.instrument, filled);
    hide Steady;
  }

  lemma PendingEntryActsWell(m: Market, c: Config, limits: RiskLimits, s: Portfolio, e: MarketEvent, bar: Bar,
                             candidate: Candidate, acted: set<string>)
    requires Steady(m, c, s, e.time.instant) && Listed(m, bar) && bar.instrument in BuyKeys(s.pending)
    requires |HistoryOf(s.histories, bar.instrument)| > 0
    requires bar.instrument !in acted && Spent(Ids(s), e.time.instant, acted, {})
    requires s.ledger.Valid()
    requires Entered(c, limits, s.(pending := s.pending.Remove(bar.instrument)), bar, candidate, e).Ok?
    ensures ActedWell(m, c, s, Entered(c, limits, s.(pending := s.pending.Remove(bar.instrument)), bar, candidate,
            e).value, e, acted + {bar.instrument})
  {
    hide PositionKey, Holding, Entered, Spent, BooksAgree, Paced, KnownHistories, BuyKeys, Entries;
    FreshAction(Ids(s), e, acted, bar.instrument, KBuy);
    var popped := s.(pending := s.pending.Remove(bar.instrument));
    EntryKeepsBooks(m, c, limits, popped, bar, candidate, e);
    var after := Entered(c, limits, popped, bar, candidate, e).value;
    EntryKeepsSteady(m, c, s, after, e, bar.instrument);
    hide Steady;
  }

  lemma PendingStepActsWell(m: Market, c: Config, limits: RiskLimits, s: Portfolio, e: MarketEvent, k: string,
                            acted: set<string>)
    requires Steady(m, c, s, e.time.instant) && ProperEvent(m, e) && Visible(s, e)
    requires Spent(Ids(s), e.time.instant, acted, {}) && k !in acted
    requires s.ledger.Valid() && PendingStep(c, limits, s, e, k).Ok?
    ensures ActedWell(m, c, s, PendingStep(c, limits, s, e, k).value, e, acted + {k})
  {
    hide PositionKey, Holding, Entered, Pyramided, SoldOut, Spent, Steady, OpenList, FindPosition, BarOf;
    BarOfFinds(e.bars, k);
    MoreActed(Ids(s), e.time.instant, acted, k);
    var bar := BarOf(e.bars, k);
    if bar.Some? && k in s.pending.data {
      var popped := s.(pending := s.pending.Remove(k));
      FoundPosition(m, c, s, e.time.instant, bar.value);
      PopKeepsSteady(m, c, s, e.time.instant, k);
      var action, position := s.pending.data[k], FindPosition(OpenList(s.ledger), k, bar.value.exchange);
      if action.PendingSell? && position.Some? {
        PendingSaleActsWell(m, c, popped, e, bar.value, position.value.quantity, c.SellPrice(bar.value.open), acted);
      } else if action.PendingPyramid? && position.Some? {
        PendingPyramidActsWell(m, c, limits, popped, e, bar.value, position.value, acted);
      } else if action.PendingBuy? && position.None? {
        PendingEntryActsWell(m, c, limits, s, e, bar.value, action.candidate, acted);
      }
    }
  }

  lemma {:induction false} PendingActsWell(m: Market, c: Config, limits: RiskLimits, s: Portfolio, e: MarketEvent,
                                           keys: seq<string>)
    requires Steady(m, c, s, e.time.instant) && ProperEvent(m, e) && Visible(s, e)
    requires Spent(Ids(s), e.time.instant, {}, {}) && Distinct(keys)
    requires s.ledger.Valid() && AfterPending(c, limits, s, e, keys).Ok?
    ensures ActedWell(m, c, s, AfterPending(c, limits, s, e, keys).value, e, set k | k in keys)
  {
    hide Spent, Steady, PendingStep;
    if |keys| == 0 {
      assert (set k | k in keys) == {};
    } else {
      var init, last := keys[..|keys| - 1], keys[|keys| - 1];
      PendingActsWell(m, c, limits, s, e, init);
      var acted := set k | k in init;
      assert last !in acted;
      PendingStepActsWell(m, c, limits, AfterPending(c, limits, s, e, init).value, e, last, acted);
      assert (set k | k in keys) == acted + {last};
    }
  }

  // ----- Stops and targets

  /** What an exit leaves: the invariant, the other positions, and no new pending action. */
  ghost predicate ExitedWell(m: Market, c: Config, s: Portfolio, after: Portfolio, e: MarketEvent, acted: set<string>,
                             exited: set<string>) {
    && Steady(m, c, after, e.time.instant)
    && after.histories == s.histories
    && Spent(Ids(after), e.time.instant, acted, exited)
    && forall p: Position :: StillOpen(m, s.ledger, p) && p.instrument !in exited ==> StillOpen(m, after.ledger, p)
  }

  lemma FreshExit(ids: set<OrderId>, e: MarketEvent, acted: set<string>, exited: set<string>, k: string,
                  kind: OrderKind)
    requires Spent(ids, e.time.instant, acted, exited) && k !in exited && (kind.KStop? || kind.KTarget?)
    ensures OrderIdAt(k, e.time, kind) !in ids
    ensures Spent(ids + {OrderIdAt(k, e.time, kind)}, e.time.instant, acted, exited + {k})
    ensures Spent(ids, e.time.instant, acted, exited + {k})
  {}

  lemma ExitSaleIsWell(m: Market, c: Config, s: Portfolio, e: MarketEvent, bar: Bar, quantity: int, price: real,
                       kind: OrderKind,
                       acted: set<string>, exited: set<string>)
    requires Steady(m, c, s, e.time.instant) && Listed(m, bar) && bar.instrument in Holding(m, s.ledger)
    requires quantity == s.ledger.Held(KeyOf(m, bar.instrument)) && bar.instrument !in exited
             && (kind.KStop? || kind.KTarget?)
    requires Spent(Ids(s), e.time.instant, acted, exited)
    requires s.ledger.Valid() && SoldOut(s, bar, quantity, price, OrderIdAt(bar.instrument, e.time, kind)).Ok?
    ensures ExitedWell(m, c, s, SoldOut(s, bar, quantity, price, OrderIdAt(bar.instrument, e.time, kind)).value, e,
            acted, exited + {bar.instrument})
  {
    hide PositionKey, Holding, Steady, SoldOut, StillOpen, Spent;
    FreshExit(Ids(s), e, acted, exited, bar.instrument, kind);
    SellingOutIsSteady(m, c, s, e.time.instant, bar, quantity, price, OrderIdAt(bar.instrument, e.time, kind));
  }

  /** Raising the highest close of a plan changes nothing the invariant speaks of. */
  lemma TrailingKeepsSteady(m: Market, c: Config, s: Portfolio, now: int, k: string, plan: Plan)
    requires Steady(m, c, s, now) && k in s.plans
    ensures Steady(m, c, s.(plans := s.plans[k := plan]), now)
  {
    hide Holding, BooksAgree, KnownHistories, Paced, BuyKeys;
    assert s.plans[k := plan].Keys == s.plans.Keys;
  }

  lemma ExitStepIsWell(m: Market, c: Config, s: Portfolio, e: MarketEvent, p: Position, acted: set<string>,
                       exited: set<string>)
    requires Steady(m, c, s, e.time.instant) && ProperEvent(m, e)
    requires StillOpen(m, s.ledger, p) && p.instrument !in exited
    requires Spent(Ids(s), e.time.instant, acted, exited)
    requires s.ledger.Valid() && ExitStep(c, s, e, p).Ok?
    ensures ExitedWell(m, c, s, ExitStep(c, s, e, p).value, e, acted, exited + {p.instrument})
  {
    hide PositionKey, Holding, SoldOut, Spent, Steady, BarOf, StopLevel;
    BarOfFinds(e.bars, p.instrument);
    FreshExit(Ids(s), e, acted, exited, p.instrument, KStop);
    var bar := BarOf(e.bars, p.instrument);
    if bar.Some? && p.instrument in s.plans {
      var plan := s.plans[p.instrument];
      var stop := StopLevel(c, s, plan, p.instrument);
      if bar.value.low <= stop {
        ExitSaleIsWell(m, c, s, e, bar.value, p.quantity, c.SellPrice(Min(bar.value.open, stop)), KStop, acted, exited);
      } else if plan.targetPrice.Some? && bar.value.high >= plan.targetPrice.value {
        ExitSaleIsWell(m, c, s, e, bar.value, p.quantity, c.SellPrice(Max(bar.value.open, plan.targetPrice.value)),
            KTarget, acted, exited);
      } else if plan.trailing.Some? {
        TrailingKeepsSteady(m, c, s, e.time.instant, p.instrument,
            plan.(highestClose := Max(plan.highestClose, bar.value.close)));
      }
    }
  }

  function Names(positions: seq<Position>): set<string> {
    set p | p in positions :: p.instrument
  }

  lemma NamesSnoc(positions: seq<Position>)
    requires |positions| > 0
    ensures Names(positions) == Names(positions[..|positions| - 1]) + {positions[|positions| - 1].instrument}
    ensures OnePerInstrument(positions) ==>
              positions[|positions| - 1].instrument !in Names(positions[..|positions| - 1]) &&
              OnePerInstrument(positions[..|positions| - 1])
  {
    var init, last := positions[..|positions| - 1], positions[|positions| - 1];
    assert positions == init + [last];
    forall p | p in positions ensures p in init || p == last {}
  }

  lemma {:induction false} ExitsAreWell(m: Market, c: Config, s: Portfolio, e: MarketEvent, positions: seq<Position>,
                                        acted: set<string>)
    requires Steady(m, c, s, e.time.instant) && ProperEvent(m, e)
    requires OnePerInstrument(positions) && forall p | p in positions :: StillOpen(m, s.ledger, p)
    requires Spent(Ids(s), e.time.instant, acted, {})
    requires s.ledger.Valid() && AfterExits(c, s, e, positions).Ok?
    ensures ExitedWell(m, c, s, AfterExits(c, s, e, positions).value, e, acted, Names(positions))
  {
    hide Spent, Steady, ExitStep, StillOpen, OnePerInstrument, Names;
    if |positions| == 0 {
      assert Names(positions) == {} by { NoNames(positions); }
    } else {
      var init, last := positions[..|positions| - 1], positions[|positions| - 1];
      NamesSnoc(positions);
      ExitsAreWell(m, c, s, e, init, acted);
      ExitStepIsWell(m, c, AfterExits(c, s, e, init).value, e, last, acted, Names(init));
    }
  }

  lemma NoNames(positions: seq<Position>)
    requires |positions| == 0
    ensures Names(positions) == {}
  {}

  // ----- Pyramids and the scan

  lemma PutOther(pending: Dict<string, Pending>, k: string, action: Pending)
    requires pending.Valid() && !action.PendingBuy?
    ensures pending.Put(k, action).Valid()
    ensures BuyKeys(pending.Put(k, action)) <= BuyKeys(pending)
  {}

  lemma ReplacingKeepsSteady(m: Market, c: Config, s: Portfolio, now: int, k: string, action: Pending)
    requires Steady(m, c, s, now) && !action.PendingBuy?
    ensures Steady(m, c, s.(pending := s.pending.Put(k, action)), now)
  {
    hide Holding, KnownHistories, Paced, BuyKeys;
    PutOther(s.pending, k, action);
    SubsetIsSmaller(BuyKeys(s.pending.Put(k, action)), BuyKeys(s.pending));
    FewerPending(c, s.ledger, s.recentEntries, |BuyKeys(s.pending)|, |BuyKeys(s.pending.Put(k, action))|, now);
    SameBooksPending(m, c, s, s.pending.Put(k, action));
    hide Booked;
  }

  lemma {:induction false} PyramidsKeepSteady(m: Market, c: Config, s: Portfolio, e: MarketEvent,
                                              positions: seq<Position>)
    requires Steady(m, c, s, e.time.instant)
    ensures Steady(m, c, AfterPyramids(c, s, e, positions), e.time.instant)
    ensures AfterPyramids(c, s, e, positions) == s.(pending := AfterPyramids(c, s, e, positions).pending)
  {
    hide Steady, WantsPyramid;
    if |positions| > 0 {
      var init, last := positions[..|positions| - 1], positions[|positions| - 1];
      PyramidsKeepSteady(m, c, s, e, init);
      ReplacingKeepsSteady(m, c, AfterPyramids(c, s, e, init), e.time.instant, last.instrument, PendingPyramid);
    }
  }

  /** Candidates are instruments of the scanned bars that are not held. */
  ghost predicate CandidatesAreFree(m: Market, l: Ledger, candidates: seq<Candidate>) {
    forall x | x in candidates :: x.instrument !in Holding(m, l)
  }

  lemma SnapshotNamesItsBar(c: Config, history: seq<Bar>)
    requires |history| > 0
    ensures SnapshotFor(c, history).Some? ==> SnapshotFor(c, history).value.instrument == LastOf(history).instrument
  {}

  lemma ScanStepIsWell(m: Market, c: Config, f: Filters, scan: Scan, bar: Bar, allowEntries: bool, now: int)
    requires scan.portfolio.ledger.Valid()
    requires Steady(m, c, scan.portfolio, now) && CandidatesAreFree(m, scan.portfolio.ledger, scan.candidates)
    requires Listed(m, bar)
    requires |HistoryOf(scan.portfolio.histories, bar.instrument)| > 0
    requires LastOf(HistoryOf(scan.portfolio.histories, bar.instrument)) == bar
    ensures var after := ScanStep(c, f, scan, bar, allowEntries);
            && Steady(m, c, after.portfolio, now) && CandidatesAreFree(m, after.portfolio.ledger, after.candidates)
            && after.portfolio == scan.portfolio.(pending := after.portfolio.pending)
  {
    hide PositionKey, Holding, Steady, OpenList, FindPosition, SnapshotFor;
    FoundPosition(m, c, scan.portfolio, now, bar);
    SnapshotNamesItsBar(c, HistoryOf(scan.portfolio.histories, bar.instrument));
    ReplacingKeepsSteady(m, c, scan.portfolio, now, bar.instrument, PendingSell);
  }

  lemma {:induction false} ScanIsWell(m: Market, c: Config, f: Filters, s: Portfolio, bars: seq<Bar>,
                                      allowEntries: bool, now: int)
    requires s.ledger.Valid() && Steady(m, c, s, now)
    requires forall b | b in bars ::
               Listed(m, b) && |HistoryOf(s.histories, b.instrument)| > 0
               && LastOf(HistoryOf(s.histories, b.instrument)) == b
    ensures var scan := Scanned(c, f, s, bars, allowEntries);
            && Steady(m, c, scan.portfolio, now) && CandidatesAreFree(m, scan.portfolio.ledger, scan.candidates)
            && scan.portfolio == s.(pending := scan.portfolio.pending)
  {
    hide Steady, ScanStep, Holding;
    if |bars| > 0 {
      ScanIsWell(m, c, f, s, bars[..|bars| - 1], allowEntries, now);
      ScanStepIsWell(m, c, f, Scanned(c, f, s, bars[..|bars| - 1], allowEntries), bars[|bars| - 1], allowEntries, now);
    }
  }

  // ----- Filling the slots

  /** Every scheduled purchase was free, and each uses up at most one slot. */
  ghost predicate FitsSlots(m: Market, c: Config, s: Portfolio, now: int, more: nat)
    requires s.ledger.Valid()
  {
    && Steady(m, c, s, now)
    && (more > 0 ==> |Holding(m, s.ledger)| + |BuyKeys(s.pending)| + more <= c.maxPositions)
    && (more > 0 && c.maxNewEntries.Some? ==> |s.recentEntries| + |BuyKeys(s.pending)| + more <= c.maxNewEntries.value)
  }

  lemma PutBuy(pending: Dict<string, Pending>, x: Candidate)
    requires pending.Valid()
    ensures pending.Put(x.instrument, PendingBuy(x)).Valid()
    ensures BuyKeys(pending.Put(x.instrument, PendingBuy(x))) == BuyKeys(pending) + {x.instrument}
  {}

  lemma SchedulingFits(m: Market, c: Config, s: Portfolio, now: int, x: Candidate, more: nat)
    requires s.ledger.Valid() && FitsSlots(m, c, s, now, more) && more > 0 && x.instrument !in Holding(m, s.ledger)
    ensures FitsSlots(m, c, s.(pending := s.pending.Put(x.instrument, PendingBuy(x))), now, more - 1)
  {
    hide Holding, KnownHistories, BuyKeys, Covered, WindowsBounded;
    PutBuy(s.pending, x);
    OneMore(BuyKeys(s.pending), x.instrument);
    SameBooksPending(m, c, s, s.pending.Put(x.instrument, PendingBuy(x)));
    hide Booked;
  }

  lemma {:induction false} SchedulesFit(m: Market, c: Config, s: Portfolio, now: int, candidates: seq<Candidate>,
                                        slots: nat)
    requires s.ledger.Valid() && FitsSlots(m, c, s, now, slots) && |candidates| <= slots
    requires CandidatesAreFree(m, s.ledger, candidates)
    ensures Schedule(s, candidates) == s.(pending := Schedule(s, candidates).pending)
    ensures FitsSlots(m, c, Schedule(s, candidates), now, slots - |candidates|)
  {
    hide FitsSlots, Holding;
    if |candidates| > 0 {
      SchedulesFit(m, c, s, now, candidates[..|candidates| - 1], slots);
      SchedulingFits(m, c, Schedule(s, candidates[..|candidates| - 1]), now, candidates[|candidates| - 1],
          slots - |candidates| + 1);
    }
  }

  lemma PruningKeepsSteady(m: Market, c: Config, s: Portfolio, e: MarketEvent)
    requires Steady(m, c, s, e.time.instant)
    ensures Steady(m, c, WithPruning(c, s, e), e.time.instant)
  {
    hide Holding, BooksAgree, KnownHistories, BuyKeys, Paced;
    if c.maxNewEntries.Some? {
      PruningKeepsPace(c, s.ledger, s.recentEntries, |BuyKeys(s.pending)|, e.time.instant);
    }
  }

  lemma SlotsFit(m: Market, c: Config, s: Portfolio, now: int)
    requires s.ledger.Valid() && Steady(m, c, s, now)
    ensures FitsSlots(m, c, s, now, Slots(c, s))
  {
    hide Holding, KnownHistories, BuyKeys, Paced, OpenInstruments;
    BookedIsValid(m, c, s);
    OpenInstrumentsAreHeld(m, s.ledger);
    hide Booked;
  }

  lemma FillingSlotsKeepsSteady(m: Market, c: Config, scan: Scan, e: MarketEvent)
    requires scan.portfolio.ledger.Valid() && Steady(m, c, scan.portfolio, e.time.instant)
    requires CandidatesAreFree(m, scan.portfolio.ledger, scan.candidates)
    ensures Steady(m, c, SlotsFilled(c, scan, e), e.time.instant)
  {
    hide Steady, Slots, Holding;
    var s := WithPruning(c, scan.portfolio, e);
    PruningKeepsSteady(m, c, scan.portfolio, e);
    SlotsFit(m, c, s, e.time.instant);
    var ranked := SortCandidates(scan.candidates);
    var chosen := ranked[..MinInt(Slots(c, s), |ranked|)];
    forall x | x in chosen ensures x.instrument !in Holding(m, s.ledger) {
      assert x in multiset(ranked) && x in multiset(scan.candidates);
    }
    SchedulesFit(m, c, s, e.time.instant, chosen, Slots(c, s));
  }
}
