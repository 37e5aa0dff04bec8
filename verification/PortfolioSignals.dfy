/** What makes the loop sell, add or buy, in the closes and ranges of an instrument's own history. */
module PortfolioSignals {
  import opened Prelude
  import opened OrderedDict
  import opened Models
  import opened Strategies
  import opened Risk
  import opened PaperBroking
  import opened LedgerEffects
  import opened Indicators
  import opened IndicatorLaws
  import opened PortfolioLoop
  import opened PortfolioBooks
  import opened PortfolioSteps
  import opened PortfolioPhases
  import opened PortfolioLaws
  import opened PortfolioRanking
  import O = OrderManaging

  // ----- Reading a history

  /** The mean extent of the last n bars, each with the close before it. */
  function MeanExtent(bars: seq<Bar>, n: int): real
    requires 0 < n < |bars|
  {
    Sum(Extents(bars, n)) / n as real
  }

  /** Every lookback is full, and the mean of the last fast closes is below that of the last slow ones. */
  predicate Falling(c: Config, history: seq<Bar>) {
    && |history| > 0 && Full(c.periods, history)
    && MeanClose(history, |history| - 1, c.periods.fast) < MeanClose(history, |history| - 1, c.periods.slow)
  }

  predicate Rising(c: Config, history: seq<Bar>) {
    && |history| > 0 && Full(c.periods, history)
    && MeanClose(history, |history| - 1, c.periods.fast) > MeanClose(history, |history| - 1, c.periods.slow)
  }

  predicate HighAboveLow(history: seq<Bar>) { forall b | b in history :: b.low <= b.high }

  lemma SmaIsMeanClose(bars: seq<Bar>, n: int)
    requires 0 < n <= |bars|
    ensures Sma(Closes(bars), n) == MeanClose(bars, |bars| - 1, n)
  {
    assert LastN(Closes(bars), n) == seq(n, i requires 0 <= i < n => bars[|bars| - 1 + 1 - n + i].close);
  }

  lemma AtrIsMeanExtentOf(bars: seq<Bar>, n: int)
    requires 0 < n < |bars| && HighAboveLow(bars)
    ensures Atr(bars, n) == MeanExtent(bars, n)
  {
    RangesAreExtents(bars, n);
  }

  /** There is a snapshot exactly when every lookback is full; its averages and range are those of the history. */
  lemma SnapshotInPrices(c: Config, history: seq<Bar>)
    requires HighAboveLow(history)
    ensures SnapshotFor(c, history).Some? <==> |history| > 0 && Full(c.periods, history)
    ensures SnapshotFor(c, history).Some? ==>
              var s, last := SnapshotFor(c, history).value, |history| - 1;
              && s.smaFast == MeanClose(history, last, c.periods.fast)
              && s.smaSlow == MeanClose(history, last, c.periods.slow)
              && s.atr == MeanExtent(history, c.periods.atr)
              && s.close == history[last].close && s.instrument == history[last].instrument
              && s.exchange == history[last].exchange
  {
    hide Sma, Atr, Rsi, Closes, Volumes, MeanClose, MeanExtent;
    if |history| > 0 && Full(c.periods, history) {
      SmaIsMeanClose(history, c.periods.fast);
      SmaIsMeanClose(history, c.periods.slow);
      AtrIsMeanExtentOf(history, c.periods.atr);
    }
  }

  // ----- What is scheduled for an instrument

  /** Two sets of pending actions agree on an instrument. */
  ghost predicate Same(a: map<string, Pending>, b: map<string, Pending>, i: string) {
    (i in a <==> i in b) && (i in a ==> a[i] == b[i])
  }

  ghost predicate IsPending(pending: map<string, Pending>, i: string, action: Pending) {
    i in pending && pending[i] == action
  }

  /** One of the listed positions is of the instrument, and wants an addition. */
  ghost predicate AnyWants(c: Config, s: Portfolio, e: MarketEvent, positions: seq<Position>, i: string) {
    exists p :: p in positions && p.instrument == i && WantsPyramid(c, s, e, p)
  }

  lemma {:induction false} PyramidsPend(c: Config, s: Portfolio, e: MarketEvent, positions: seq<Position>)
    requires OnePerInstrument(positions)
    ensures var after := AfterPyramids(c, s, e, positions);
            && after == s.(pending := after.pending)
            && forall i :: if AnyWants(c, s, e, positions, i) then IsPending(after.pending.data, i, PendingPyramid)
                           else Same(after.pending.data, s.pending.data, i)
  {
    hide WantsPyramid, OnePerInstrument, Names, AnyWants;
    if |positions| == 0 {
      forall i ensures !AnyWants(c, s, e, positions, i) {
        NoneWants(c, s, e, positions, i);
      }
    } else {
      var init, last := positions[..|positions| - 1], positions[|positions| - 1];
      NamesSnoc(positions);
      PyramidsPend(c, s, e, init);
      var before, after := AfterPyramids(c, s, e, init), AfterPyramids(c, s, e, positions);
      NoneWants(c, s, e, init, last.instrument);
      SameWants(c, s, before, e, last);
      forall i ensures if AnyWants(c, s, e, positions, i) then IsPending(after.pending.data, i, PendingPyramid)
                       else Same(after.pending.data, s.pending.data, i)
      {
        OneMoreWants(c, s, e, positions, i);
        assert AnyWants(c, s, e, init, i) || !AnyWants(c, s, e, init, i);
      }
    }
  }

  lemma NoneWants(c: Config, s: Portfolio, e: MarketEvent, positions: seq<Position>, i: string)
    requires i !in Names(positions) || |positions| == 0
    ensures !AnyWants(c, s, e, positions, i)
  {
    hide WantsPyramid;
  }

  lemma OneMoreWants(c: Config, s: Portfolio, e: MarketEvent, positions: seq<Position>, i: string)
    requires |positions| > 0
    ensures var init, last := positions[..|positions| - 1], positions[|positions| - 1];
            AnyWants(c, s, e, positions, i) <==>
            AnyWants(c, s, e, init, i) || (last.instrument == i && WantsPyramid(c, s, e, last))
  {
    hide WantsPyramid;
    assert positions == positions[..|positions| - 1] + [positions[|positions| - 1]];
  }

  lemma SameWants(c: Config, s: Portfolio, t: Portfolio, e: MarketEvent, p: Position)
    requires t == s.(pending := t.pending) && Same(t.pending.data, s.pending.data, p.instrument)
    ensures WantsPyramid(c, t, e, p) == WantsPyramid(c, s, e, p)
  {
    hide SnapshotFor, BarOf;
  }

  predicate OutOfTrend(c: Config, s: Portfolio, i: string) {
    var snapshot := SnapshotFor(c, HistoryOf(s.histories, i));
    snapshot.Some? && snapshot.value.smaFast < snapshot.value.smaSlow
  }

  ghost predicate ScansOut(m: Market, c: Config, s: Portfolio, bars: seq<Bar>, i: string) {
    BarOf(bars, i).Some? && i in Holding(m, s.ledger) && OutOfTrend(c, s, i)
  }

  /** A scanned bar makes a candidate of its instrument. */
  ghost predicate Qualifies(m: Market, c: Config, f: Filters, s: Portfolio, allow: bool, i: string, x: Candidate) {
    && i !in Holding(m, s.ledger) && i in s.universe && allow
    && var history := HistoryOf(s.histories, i);
       SnapshotFor(c, history).Some? && CandidateFrom(c, f, s, SnapshotFor(c, history).value, history) == Some(x)
  }

  lemma ScanStepActs(m: Market, c: Config, f: Filters, scan: Scan, bar: Bar, allow: bool, now: int)
    requires scan.portfolio.ledger.Valid() && Steady(m, c, scan.portfolio, now) && Listed(m, bar)
    ensures var s, after, i := scan.portfolio, ScanStep(c, f, scan, bar, allow), bar.instrument;
            && after.portfolio == s.(pending := after.portfolio.pending)
            && (if i in Holding(m, s.ledger) && OutOfTrend(c, s, i)
                then IsPending(after.portfolio.pending.data, i, PendingSell)
                else after.portfolio.pending == s.pending)
            && (forall j | j != i :: Same(after.portfolio.pending.data, s.pending.data, j))
            && (after.candidates == scan.candidates || |after.candidates| == |scan.candidates| + 1)
            && after.candidates[..|scan.candidates|] == scan.candidates
            && (|after.candidates| > |scan.candidates| ==> Qualifies(m, c, f, s, allow, i, LastOf(after.candidates)))
            && forall x | Qualifies(m, c, f, s, allow, i, x) ::
                 |after.candidates| > |scan.candidates| && LastOf(after.candidates) == x
  {
    hide Holding, Steady, OpenList, FindPosition, SnapshotFor, CandidateFrom, PositionKey;
    FoundPosition(m, c, scan.portfolio, now, bar);
  }

  /** The scan sells exactly the held instruments out of trend, and finds exactly the candidates that qualify. */
  lemma {:induction false} ScanActs(m: Market, c: Config, f: Filters, s: Portfolio, bars: seq<Bar>, allow: bool,
                                    now: int)
    requires s.ledger.Valid() && Steady(m, c, s, now)
    requires forall b | b in bars ::
               Listed(m, b) && |HistoryOf(s.histories, b.instrument)| > 0
               && LastOf(HistoryOf(s.histories, b.instrument)) == b
    ensures var scan := Scanned(c, f, s, bars, allow);
            && scan.portfolio == s.(pending := scan.portfolio.pending)
            && (forall i :: if ScansOut(m, c, s, bars, i)
                            then IsPending(scan.portfolio.pending.data, i, PendingSell)
                            else Same(scan.portfolio.pending.data, s.pending.data, i))
            && (forall x | x in scan.candidates ::
                  exists b :: b in bars && Qualifies(m, c, f, s, allow, b.instrument, x))
            && forall b, x | b in bars && Qualifies(m, c, f, s, allow, b.instrument, x) :: x in scan.candidates
  {
    hide Steady, ScanStep, Holding, Qualifies, OutOfTrend;
    if |bars| > 0 {
      var init, last := bars[..|bars| - 1], bars[|bars| - 1];
      assert bars == init + [last];
      ScanActs(m, c, f, s, init, allow, now);
      ScanIsWell(m, c, f, s, init, allow, now);
      var before, after := Scanned(c, f, s, init, allow), Scanned(c, f, s, bars, allow);
      ScanStepActs(m, c, f, before, last, allow, now);
      SameReading(m, c, f, s, before.portfolio, allow, last.instrument);
      forall i ensures if ScansOut(m, c, s, bars, i) then IsPending(after.portfolio.pending.data, i, PendingSell)
                       else Same(after.portfolio.pending.data, s.pending.data, i)
      {
        ScanPends(m, c, s, before.portfolio, after.portfolio, init, last, i);
      }
      forall x | x in after.candidates
        ensures exists b :: b in bars && Qualifies(m, c, f, s, allow, b.instrument, x)
      {
        if x in before.candidates {
          var b :| b in init && Qualifies(m, c, f, s, allow, b.instrument, x);
          assert b in bars;
        } else {
          assert after.candidates == after.candidates[..|before.candidates|] + [LastOf(after.candidates)];
          assert last in bars && Qualifies(m, c, f, before.portfolio, allow, last.instrument, x);
        }
      }
      forall b, x | b in bars && Qualifies(m, c, f, s, allow, b.instrument, x) ensures x in after.candidates {
        if b in init {
          assert x in before.candidates && x in after.candidates[..|before.candidates|];
        } else {
          assert Qualifies(m, c, f, before.portfolio, allow, last.instrument, x);
        }
      }
    }
  }

  lemma ScanPends(m: Market, c: Config, s: Portfolio, before: Portfolio, after: Portfolio, init: seq<Bar>, last: Bar,
                  i: string)
    requires before == s.(pending := before.pending)
    requires if ScansOut(m, c, s, init, i) then IsPending(before.pending.data, i, PendingSell)
             else Same(before.pending.data, s.pending.data, i)
    requires if last.instrument in Holding(m, before.ledger) && OutOfTrend(c, before, last.instrument)
             then IsPending(after.pending.data, last.instrument, PendingSell)
             else after.pending == before.pending
    requires i != last.instrument ==> Same(after.pending.data, before.pending.data, i)
    ensures if ScansOut(m, c, s, init + [last], i) then IsPending(after.pending.data, i, PendingSell)
            else Same(after.pending.data, s.pending.data, i)
  {
    hide Holding, SnapshotFor;
    assert (init + [last])[..|init|] == init;
  }

  lemma SameReading(m: Market, c: Config, f: Filters, s: Portfolio, t: Portfolio, allow: bool, i: string)
    requires t == s.(pending := t.pending)
    ensures OutOfTrend(c, t, i) == OutOfTrend(c, s, i)
    ensures forall x :: Qualifies(m, c, f, t, allow, i, x) == Qualifies(m, c, f, s, allow, i, x)
  {
    hide SnapshotFor, Holding;
  }

  lemma {:induction false} SchedulingKeepsOthers(s: Portfolio, chosen: seq<Candidate>, i: string)
    requires forall x | x in chosen :: x.instrument != i
    ensures Same(Schedule(s, chosen).pending.data, s.pending.data, i)
  {
    if |chosen| > 0 {
      assert chosen == chosen[..|chosen| - 1] + [chosen[|chosen| - 1]];
      SchedulingKeepsOthers(s, chosen[..|chosen| - 1], i);
    }
  }

  lemma {:induction false} SchedulingBuys(s: Portfolio, chosen: seq<Candidate>, i: string)
    ensures var after := Schedule(s, chosen).pending.data;
            Same(after, s.pending.data, i) ||
            exists x :: x in chosen && x.instrument == i && IsPending(after, i, PendingBuy(x))
  {
    if |chosen| > 0 {
      var init, last := chosen[..|chosen| - 1], chosen[|chosen| - 1];
      assert chosen == init + [last];
      SchedulingBuys(s, init, i);
    }
  }

  // ----- The schedule of an event

  /** A held instrument's place in the schedule: a sale before an addition before what was pending. */
  ghost predicate HeldPends(m: Market, c: Config, t: Portfolio, e: MarketEvent, i: string,
                            pending: map<string, Pending>)
    requires t.ledger.Valid()
  {
    if ScansOut(m, c, t, e.bars, i) then IsPending(pending, i, PendingSell)
    else if c.enablePyramiding && AnyWants(c, t, e, OpenList(t.ledger), i) then IsPending(pending, i, PendingPyramid)
    else Same(pending, t.pending.data, i)
  }

  /** Any other instrument keeps what was pending, or is bought for a candidate that a current bar made of it. */
  ghost predicate FreePends(m: Market, c: Config, f: Filters, t: Portfolio, balanced: Portfolio, e: MarketEvent,
                            i: string, pending: map<string, Pending>) {
    Same(pending, t.pending.data, i) ||
    exists b, x :: b in e.bars && Qualifies(m, c, f, balanced, f.regime(balanced.regime), b.instrument, x) &&
                   x.instrument == i && IsPending(pending, i, PendingBuy(x))
  }

  /** The portfolio the scan reads: additions scheduled, universe rebalanced. */
  function BeforeScan(c: Config, f: Filters, t: Portfolio, e: MarketEvent): (r: Portfolio)
    requires t.ledger.Valid()
    ensures r.ledger == t.ledger
  {
    PyramidsKeepLedger(c, t, e, OpenList(t.ledger));
    Rebalanced(c, f, if c.enablePyramiding then AfterPyramids(c, t, e, OpenList(t.ledger)) else t, e)
  }

  lemma ListedOnce(m: Market, c: Config, t: Portfolio, now: int)
    requires Steady(m, c, t, now)
    ensures t.ledger.Valid() && OnePerInstrument(OpenList(t.ledger))
    ensures forall p | p in OpenList(t.ledger) :: p.instrument in Holding(m, t.ledger)
  {
    hide Steady, Holding, OnePerInstrument, OpenList;
    SteadyIsBooked(m, c, t, now);
    ListedPositionsAreOpen(m, t.ledger);
    HeldAreListed(m, t.ledger);
  }

  lemma OnlyHeldWant(m: Market, c: Config, t: Portfolio, e: MarketEvent, i: string)
    requires t.ledger.Valid() && forall p | p in OpenList(t.ledger) :: p.instrument in Holding(m, t.ledger)
    ensures AnyWants(c, t, e, OpenList(t.ledger), i) ==> i in Holding(m, t.ledger)
  {
    hide WantsPyramid, OpenList, Holding;
  }

  lemma BeforeScanPends(m: Market, c: Config, f: Filters, t: Portfolio, e: MarketEvent, i: string)
    requires t.ledger.Valid() && Steady(m, c, t, e.time.instant)
    ensures var s := BeforeScan(c, f, t, e);
            && s == t.(pending := s.pending, universe := s.universe, lastRebalance := s.lastRebalance)
            && Steady(m, c, s, e.time.instant)
            && (if c.enablePyramiding && AnyWants(c, t, e, OpenList(t.ledger), i)
                then IsPending(s.pending.data, i, PendingPyramid) else Same(s.pending.data, t.pending.data, i))
            && (i !in Holding(m, t.ledger) ==> Same(s.pending.data, t.pending.data, i))
  {
    hide Steady, OpenList, AfterPyramids, Holding, OnePerInstrument, AnyWants;
    ListedOnce(m, c, t, e.time.instant);
    PyramidsKeepSteady(m, c, t, e, OpenList(t.ledger));
    PyramidsPend(c, t, e, OpenList(t.ledger));
    PyramidsKeepLedger(c, t, e, OpenList(t.ledger));
    OnlyHeldWant(m, c, t, e, i);
    var pyramided := if c.enablePyramiding then AfterPyramids(c, t, e, OpenList(t.ledger)) else t;
    SteadyIgnores(m, c, pyramided, BeforeScan(c, f, t, e), e.time.instant);
  }

  lemma SlotsKeepOthers(m: Market, c: Config, f: Filters, scan: Scan, e: MarketEvent, i: string)
    requires scan.portfolio.ledger.Valid()
    ensures var after := SlotsFilled(c, scan, e).pending.data;
            Same(after, scan.portfolio.pending.data, i) ||
            exists x :: x in scan.candidates && x.instrument == i && IsPending(after, i, PendingBuy(x))
  {
    hide Schedule, Slots, SortCandidates, Pruned;
    var s := WithPruning(c, scan.portfolio, e);
    var ranked := SortCandidates(scan.candidates);
    var chosen := ranked[..MinInt(Slots(c, s), |ranked|)];
    SchedulingBuys(s, chosen, i);
    if !Same(SlotsFilled(c, scan, e).pending.data, scan.portfolio.pending.data, i) {
      var x :| x in chosen && x.instrument == i && IsPending(Schedule(s, chosen).pending.data, i, PendingBuy(x));
      assert x in multiset(ranked) && x in multiset(scan.candidates);
    }
  }

  lemma QualifiedIsNamed(m: Market, c: Config, f: Filters, s: Portfolio, allow: bool, b: Bar, x: Candidate)
    requires |HistoryOf(s.histories, b.instrument)| > 0 && LastOf(HistoryOf(s.histories, b.instrument)) == b
    ensures Qualifies(m, c, f, s, allow, b.instrument, x) ==> x.instrument == b.instrument
  {
    hide Holding, SnapshotFor;
    SnapshotNamesItsBar(c, HistoryOf(s.histories, b.instrument));
  }

  /** What the schedule of an event holds for each instrument. */
  lemma ScheduledPends(m: Market, c: Config, f: Filters, t: Portfolio, e: MarketEvent, i: string)
    requires t.ledger.Valid() && Steady(m, c, t, e.time.instant) && ProperEvent(m, e) && Visible(t, e)
    ensures var pending := Scheduled(c, f, t, e).pending.data;
            if i in Holding(m, t.ledger) then HeldPends(m, c, t, e, i, pending)
            else FreePends(m, c, f, t, BeforeScan(c, f, t, e), e, i, pending)
  {
    hide Steady, OpenList, AfterPyramids, Scanned, SlotsFilled, Holding, AnyWants, OutOfTrend, Qualifies, ProperEvent;
    var s := BeforeScan(c, f, t, e);
    BeforeScanPends(m, c, f, t, e, i);
    BarsAreListed(m, e);
    BarsAreLast(t, s, e);
    ScanActs(m, c, f, s, e.bars, f.regime(s.regime), e.time.instant);
    var scan := Scanned(c, f, s, e.bars, f.regime(s.regime));
    SlotsKeepOthers(m, c, f, scan, e, i);
    SameTrend(c, t, s, i);
    assert Scheduled(c, f, t, e) == SlotsFilled(c, scan, e);
    var pending := SlotsFilled(c, scan, e).pending.data;
    assert ScansOut(m, c, s, e.bars, i) == ScansOut(m, c, t, e.bars, i);
    if Same(pending, scan.portfolio.pending.data, i) {
      assert if ScansOut(m, c, s, e.bars, i) then IsPending(pending, i, PendingSell)
             else Same(pending, s.pending.data, i);
    } else {
      var x :| x in scan.candidates && x.instrument == i && IsPending(pending, i, PendingBuy(x));
      var b :| b in e.bars && Qualifies(m, c, f, s, f.regime(s.regime), b.instrument, x);
      QualifiedIsNamed(m, c, f, s, f.regime(s.regime), b, x);
      assert i !in Holding(m, t.ledger) by { QualifiedIsFree(m, c, f, s, f.regime(s.regime), i, x); }
    }
  }

  lemma QualifiedIsFree(m: Market, c: Config, f: Filters, s: Portfolio, allow: bool, i: string, x: Candidate)
    requires Qualifies(m, c, f, s, allow, i, x)
    ensures i !in Holding(m, s.ledger)
  {}

  lemma BarsAreListed(m: Market, e: MarketEvent)
    requires ProperEvent(m, e)
    ensures forall b | b in e.bars :: Listed(m, b)
  {}

  lemma SameTrend(c: Config, t: Portfolio, s: Portfolio, i: string)
    requires s.histories == t.histories
    ensures OutOfTrend(c, t, i) == OutOfTrend(c, s, i)
  {
    hide SnapshotFor;
  }

  // ----- ... after trading, and in the prices

  lemma {:induction false} PendingIsPopped(c: Config, limits: RiskLimits, s: Portfolio, e: MarketEvent,
                                           keys: seq<string>, i: string)
    requires s.ledger.Valid() && AfterPending(c, limits, s, e, keys).Ok?
    ensures var after := AfterPending(c, limits, s, e, keys).value;
            && SameMarket(s, after)
            && if i in keys && BarOf(e.bars, i).Some? then i !in after.pending.data
               else Same(after.pending.data, s.pending.data, i)
  {
    hide Ledger.Valid, PendingStep, BarOf;
    if |keys| > 0 {
      var init, last := keys[..|keys| - 1], keys[|keys| - 1];
      assert keys == init + [last];
      PendingIsPopped(c, limits, s, e, init, i);
      PopsOne(c, limits, AfterPending(c, limits, s, e, init).value, e, last);
      StepKeepsMarket(c, limits, AfterPending(c, limits, s, e, init).value, e, last);
    }
  }

  /** What the scan reads of the market, the universe and the clock is as it was. */
  ghost predicate SameMarket(s: Portfolio, after: Portfolio) {
    && after.histories == s.histories && after.regime == s.regime && after.universe == s.universe
    && after.lastRebalance == s.lastRebalance && after.curve == s.curve
  }

  lemma SaleKeepsMarket(s: Portfolio, bar: Bar, quantity: int, price: real, id: OrderId)
    requires s.ledger.Valid() && SoldOut(s, bar, quantity, price, id).Ok?
    ensures SameMarket(s, SoldOut(s, bar, quantity, price, id).value)
  {
    hide Ledger.Valid, O.AfterSellSubmission, FindInstrument, OpenList, RecordsFor, Notional;
  }

  lemma EntryKeepsMarket(c: Config, limits: RiskLimits, s: Portfolio, bar: Bar, candidate: Candidate, e: MarketEvent)
    requires s.ledger.Valid() && Entered(c, limits, s, bar, candidate, e).Ok?
    ensures SameMarket(s, Entered(c, limits, s, bar, candidate, e).value)
  {
    hide Ledger.Valid, O.AfterBuySubmission, EntryArgs, AverageFillPrice, FilledQuantity;
  }

  lemma PyramidKeepsMarket(c: Config, limits: RiskLimits, s: Portfolio, bar: Bar, position: Position, e: MarketEvent)
    requires s.ledger.Valid() && Pyramided(c, limits, s, bar, position, e).Ok?
    ensures SameMarket(s, Pyramided(c, limits, s, bar, position, e).value)
  {
    hide Ledger.Valid, O.AfterBuySubmission, PyramidArgs;
  }

  lemma StepKeepsMarket(c: Config, limits: RiskLimits, s: Portfolio, e: MarketEvent, k: string)
    requires s.ledger.Valid() && PendingStep(c, limits, s, e, k).Ok?
    ensures SameMarket(s, PendingStep(c, limits, s, e, k).value)
  {
    hide Ledger.Valid, SoldOut, Entered, Pyramided, FindPosition, OpenList, BarOf, Dict.Remove;
    var bar := BarOf(e.bars, k);
    if bar.Some? && k in s.pending.data {
      var action, popped := s.pending.data[k], s.(pending := s.pending.Remove(k));
      var position := FindPosition(OpenList(s.ledger), k, bar.value.exchange);
      if action.PendingSell? && position.Some? {
        SaleKeepsMarket(popped, bar.value, position.value.quantity, c.SellPrice(bar.value.open),
                        OrderIdAt(k, e.time, KTrend));
      } else if action.PendingPyramid? && position.Some? {
        PyramidKeepsMarket(c, limits, popped, bar.value, position.value, e);
      } else if action.PendingBuy? && position.None? {
        EntryKeepsMarket(c, limits, popped, bar.value, action.candidate, e);
      }
    }
  }

  lemma ExitStepKeepsMarket(c: Config, s: Portfolio, e: MarketEvent, p: Position)
    requires s.ledger.Valid() && ExitStep(c, s, e, p).Ok?
    ensures SameMarket(s, ExitStep(c, s, e, p).value)
  {
    hide Ledger.Valid, SoldOut, BarOf, StopLevel;
    var bar := BarOf(e.bars, p.instrument);
    if bar.Some? && p.instrument in s.plans {
      var plan := s.plans[p.instrument];
      var stop := StopLevel(c, s, plan, p.instrument);
      if bar.value.low <= stop {
        SaleKeepsMarket(s, bar.value, p.quantity, c.SellPrice(Min(bar.value.open, stop)),
                        OrderIdAt(p.instrument, e.time, KStop));
      } else if plan.targetPrice.Some? && bar.value.high >= plan.targetPrice.value {
        SaleKeepsMarket(s, bar.value, p.quantity, c.SellPrice(Max(bar.value.open, plan.targetPrice.value)),
                        OrderIdAt(p.instrument, e.time, KTarget));
      }
    }
  }

  lemma {:induction false} ExitsKeepMarket(c: Config, s: Portfolio, e: MarketEvent, positions: seq<Position>)
    requires s.ledger.Valid() && AfterExits(c, s, e, positions).Ok?
    ensures SameMarket(s, AfterExits(c, s, e, positions).value)
  {
    hide Ledger.Valid, ExitStep;
    if |positions| > 0 {
      var init := positions[..|positions| - 1];
      ExitsKeepMarket(c, s, e, init);
      ExitStepKeepsMarket(c, AfterExits(c, s, e, init).value, e, positions[|positions| - 1]);
    }
  }

  /** Trading uses up every pending action of an instrument with a bar, and leaves the others pending. */
  lemma TradingPends(c: Config, limits: RiskLimits, s: Portfolio, e: MarketEvent, i: string)
    requires s.ledger.Valid() && s.pending.Valid() && Traded(c, limits, s, e).Ok?
    ensures var t := Traded(c, limits, s, e).value;
            && SameMarket(WithBars(s, e), t)
            && if BarOf(e.bars, i).Some? then i !in t.pending.data else Same(t.pending.data, s.pending.data, i)
  {
    hide Ledger.Valid, AfterMark, EquityAtPrices, OpenList, AfterPending, AfterExits, AfterReset, AppendBars, BarOf;
    var cooled := CooledDown(c, Marked(limits, WithBars(s, e), e).value, e);
    PendingIsPopped(c, limits, cooled, e, cooled.pending.keys, i);
    var acted := AfterPending(c, limits, cooled, e, cooled.pending.keys).value;
    ExitsKeepPending(c, acted, e, OpenList(acted.ledger));
    ExitsKeepMarket(c, acted, e, OpenList(acted.ledger));
  }

  lemma TrendInPrices(c: Config, t: Portfolio, i: string)
    requires HighAboveLow(HistoryOf(t.histories, i))
    ensures OutOfTrend(c, t, i) <==> Falling(c, HistoryOf(t.histories, i))
  {
    hide MeanClose, MeanExtent, SnapshotFor, HighAboveLow;
    SnapshotInPrices(c, HistoryOf(t.histories, i));
  }

  /**
   * An addition is wanted: the plan has room for it, the closes rise, and the close is the configured number of mean
   * extents above the average price paid.
   */
  ghost predicate WantsAddition(m: Market, c: Config, t: Portfolio, i: string, close: real)
    requires i in m
  {
    var history := HistoryOf(t.histories, i);
    && c.enablePyramiding && i in t.plans && t.plans[i].additions < c.maxPyramidAdditions && Rising(c, history)
    && close >= t.ledger.AveragePrice(KeyOf(m, i)) + MeanExtent(history, c.periods.atr) * c.pyramidTrigger
  }

  lemma HeldPosition(m: Market, c: Config, t: Portfolio, i: string, now: int)
    requires Steady(m, c, t, now) && i in Holding(m, t.ledger)
    ensures i in m && t.ledger.Valid()
    ensures exists p :: p in OpenList(t.ledger) && p.instrument == i &&
                        p.averagePrice == t.ledger.AveragePrice(KeyOf(m, i))
    ensures forall p, q | p in OpenList(t.ledger) && q in OpenList(t.ledger) && p.instrument == i == q.instrument ::
              p == q
  {
    hide Steady, Holding, OpenList, PositionKey;
    SteadyIsBooked(m, c, t, now);
    HeldQuantity(m, t.ledger, i);
    HeldPositionIsOpen(m, t.ledger, i);
    PositionOf(m, t.ledger, i);
    assert t.ledger.positions.data[KeyOf(m, i)].averagePrice == t.ledger.AveragePrice(KeyOf(m, i));
    forall p, q | p in OpenList(t.ledger) && q in OpenList(t.ledger) && p.instrument == i == q.instrument
      ensures p == q
    {
      OpenPositionsAreHeld(m, t.ledger, p);
      OpenPositionsAreHeld(m, t.ledger, q);
    }
  }

  lemma WantsInPrices(m: Market, c: Config, t: Portfolio, e: MarketEvent, i: string, b: Bar)
    requires Steady(m, c, t, e.time.instant) && i in Holding(m, t.ledger) && t.ledger.Valid() && i in m
    requires BarOf(e.bars, i) == Some(b) && i !in t.pending.data && HighAboveLow(HistoryOf(t.histories, i))
    ensures c.enablePyramiding && AnyWants(c, t, e, OpenList(t.ledger), i) <==> WantsAddition(m, c, t, i, b.close)
  {
    hide Steady, Holding, OpenList, PositionKey, SnapshotFor, MeanClose, MeanExtent, BarOf, HighAboveLow;
    HeldPosition(m, c, t, i, e.time.instant);
    var p :| p in OpenList(t.ledger) && p.instrument == i && p.averagePrice == t.ledger.AveragePrice(KeyOf(m, i));
    SnapshotInPrices(c, HistoryOf(t.histories, i));
    WantsAsPriced(c, t, e, p, b);
    assert AnyWants(c, t, e, OpenList(t.ledger), i) <==> WantsPyramid(c, t, e, p);
  }

  lemma WantsAsPriced(c: Config, t: Portfolio, e: MarketEvent, p: Position, b: Bar)
    requires BarOf(e.bars, p.instrument) == Some(b) && p.instrument !in t.pending.data
    requires HighAboveLow(HistoryOf(t.histories, p.instrument))
    ensures var history := HistoryOf(t.histories, p.instrument);
            WantsPyramid(c, t, e, p) <==>
            && p.instrument in t.plans && t.plans[p.instrument].additions < c.maxPyramidAdditions && Rising(c, history)
            && b.close >= p.averagePrice + MeanExtent(history, c.periods.atr) * c.pyramidTrigger
  {
    hide SnapshotFor, MeanClose, MeanExtent, BarOf, HighAboveLow;
    SnapshotInPrices(c, HistoryOf(t.histories, p.instrument));
  }

  lemma FallingIsNotRising(c: Config, history: seq<Bar>)
    ensures !(Falling(c, history) && Rising(c, history))
  {}

  lemma {:induction false} BarOfIsTheBar(bars: seq<Bar>, b: Bar)
    requires b in bars && forall i, j :: 0 <= i < j < |bars| ==> bars[i].instrument != bars[j].instrument
    ensures BarOf(bars, b.instrument) == Some(b)
  {
    var init, last := bars[..|bars| - 1], bars[|bars| - 1];
    assert bars == init + [last];
    if last != b {
      assert b in init;
      BarOfIsTheBar(init, b);
    }
  }

  /**
   * After every event of a run, a position with a current bar is to be sold exactly when the lookbacks are full and
   * the mean of its last fast closes is below that of the last slow ones; it is to be added to exactly when they rise,
   * the plan has room and the close has moved the trigger's number of mean extents above the average price. The
   * history read is the one before with this event's bar at its end.
   */
  lemma HeldPositionsPend(m: Market, c: Config, f: Filters, limits: RiskLimits, s: Portfolio, e: MarketEvent, last: int,
                          b: Bar)
    requires Steady(m, c, s, last) && ProperEvent(m, e) && last < e.time.instant && SpentBy(Ids(s), last)
    requires s.ledger.Valid() && AfterEvent(c, f, limits, s, e).Ok? && b in e.bars
    requires HighAboveLow(HistoryOf(s.histories, b.instrument) + [b])
    ensures Traded(c, limits, s, e).Ok?
    ensures var t, a, i := Traded(c, limits, s, e).value, AfterEvent(c, f, limits, s, e).value, b.instrument;
            var history := HistoryOf(s.histories, i) + [b];
            i in Holding(m, t.ledger) ==>
              && i in m && HistoryOf(t.histories, i) == history
              && (IsPending(a.pending.data, i, PendingSell) <==> Falling(c, history))
              && (IsPending(a.pending.data, i, PendingPyramid) <==> WantsAddition(m, c, t, i, b.close))
              && (i in a.pending.data ==> !a.pending.data[i].PendingBuy?)
  {
    hide Steady, Visible, OpenList, Traded, Holding, Scheduled, Ledger.Valid, HighAboveLow, Falling, WantsAddition,
         AnyWants, OutOfTrend, BarOf, Rising;
    var i := b.instrument;
    TradingKeepsSteady(m, c, limits, s, e, last);
    SteadyPends(m, c, s, last);
    TradingPends(c, limits, s, e, i);
    BarOfIsTheBar(e.bars, b);
    BarsAreAppended(s.histories, e.bars);
    var t := Traded(c, limits, s, e).value;
    if i in Holding(m, t.ledger) {
      HeldPosition(m, c, t, i, e.time.instant);
      ScheduledPends(m, c, f, t, e, i);
      TrendInPrices(c, t, i);
      WantsInPrices(m, c, t, e, i, b);
      AdditionsNeedARise(m, c, t, i, b.close);
    }
  }

  lemma AdditionsNeedARise(m: Market, c: Config, t: Portfolio, i: string, close: real)
    requires i in m
    ensures WantsAddition(m, c, t, i, close) ==> !Falling(c, HistoryOf(t.histories, i))
  {
    FallingIsNotRising(c, HistoryOf(t.histories, i));
  }

  /** An instrument without a bar keeps whatever was pending for it, and gets nothing new. */
  lemma WithoutABarNothingPends(m: Market, c: Config, f: Filters, limits: RiskLimits, s: Portfolio, e: MarketEvent,
                                last: int, i: string)
    requires Steady(m, c, s, last) && ProperEvent(m, e) && last < e.time.instant && SpentBy(Ids(s), last)
    requires s.ledger.Valid() && AfterEvent(c, f, limits, s, e).Ok? && forall b | b in e.bars :: b.instrument != i
    ensures Same(AfterEvent(c, f, limits, s, e).value.pending.data, s.pending.data, i)
  {
    hide Steady, Visible, OpenList, Traded, Holding, Scheduled, Ledger.Valid, AnyWants, OutOfTrend, BarOf, Qualifies;
    TradingKeepsSteady(m, c, limits, s, e, last);
    SteadyPends(m, c, s, last);
    TradingPends(c, limits, s, e, i);
    BarOfFinds(e.bars, i);
    var t := Traded(c, limits, s, e).value;
    ScheduledPends(m, c, f, t, e, i);
    NobodyWants(c, t, e, i);
    assert BeforeScan(c, f, t, e).histories == t.histories by { BeforeScanPends(m, c, f, t, e, i); }
    BarsAreLast(t, BeforeScan(c, f, t, e), e);
    forall b, x | b in e.bars && Qualifies(m, c, f, BeforeScan(c, f, t, e), f.regime(BeforeScan(c, f, t, e).regime),
                                           b.instrument, x)
      ensures x.instrument != i
    {
      QualifiedIsNamed(m, c, f, BeforeScan(c, f, t, e), f.regime(BeforeScan(c, f, t, e).regime), b, x);
    }
  }

  lemma NobodyWants(c: Config, t: Portfolio, e: MarketEvent, i: string)
    requires t.ledger.Valid() && BarOf(e.bars, i).None?
    ensures !AnyWants(c, t, e, OpenList(t.ledger), i)
  {
    hide SnapshotFor, OpenList;
  }

  // ----- Candidates

  /** The universe of an event: ranked anew when enough events have passed, and else as it was. */
  function UniverseAt(c: Config, f: Filters, s: Portfolio, e: MarketEvent): set<string> {
    if |s.curve| - 1 - s.lastRebalance >= c.universeRebalanceDays then f.rank(AppendBars(s.histories, e.bars), e.time)
    else s.universe
  }

  /**
   * A history makes a candidate: the lookbacks are full, the filters score it, and its stop lies the configured number
   * of mean extents below the close; the target, when there is one, as far above it times the reward/risk multiple.
   */
  predicate Makes(c: Config, f: Filters, history: seq<Bar>, regime: seq<Bar>, x: Candidate) {
    && |history| > 0 && Full(c.periods, history)
    && var b, extent := history[|history| - 1], MeanExtent(history, c.periods.atr);
       && extent > 0.0 && Some(x.technical) == SnapshotOf(c.periods, history)
       && f.score(x.technical, history, regime) == Some(x.score)
       && x.instrument == b.instrument && x.exchange == b.exchange
       && LevelsAround(c, b.close, extent, x.stopPrice, x.targetPrice)
  }

  /** The stop is some extents below the close; the target, if targets are used, the multiple of that above it. */
  predicate LevelsAround(c: Config, close: real, extent: real, stop: real, target: Option<real>) {
    && stop == close - extent * c.stopAtrMultiple && stop > 0.0 && target.Some? == c.useProfitTarget
    && (target.Some? ==> target.value == close + (close - stop) * c.minimumRewardRisk)
  }

  lemma CandidateAsMade(c: Config, f: Filters, s: Portfolio, history: seq<Bar>, x: Candidate)
    requires HighAboveLow(history)
    ensures (SnapshotFor(c, history).Some? &&
             CandidateFrom(c, f, s, SnapshotFor(c, history).value, history) == Some(x))
            <==> Makes(c, f, history, s.regime, x)
  {
    SnapshotInPrices(c, history);
    hide MeanClose, MeanExtent, SnapshotOf, HighAboveLow, LevelsAround, CandidateFrom;
    if SnapshotFor(c, history).Some? {
      CandidateFields(c, f, s, SnapshotFor(c, history).value, history, x);
    }
  }

  lemma CandidateFields(c: Config, f: Filters, s: Portfolio, snapshot: Snapshot, history: seq<Bar>, x: Candidate)
    ensures CandidateFrom(c, f, s, snapshot, history) == Some(x) <==>
            && snapshot.atr > 0.0 && x.technical == snapshot && f.score(snapshot, history, s.regime) == Some(x.score)
            && x.instrument == snapshot.instrument && x.exchange == snapshot.exchange
            && LevelsAround(c, snapshot.close, snapshot.atr, x.stopPrice, x.targetPrice)
  {
    hide LevelsAround, CandidateFrom;
    MadeCandidate(c, f, s, snapshot, history);
    var made := CandidateFrom(c, f, s, snapshot, history);
    if made.Some? && LevelsAround(c, snapshot.close, snapshot.atr, x.stopPrice, x.targetPrice) {
      LevelsAreUnique(c, snapshot.close, snapshot.atr, x.stopPrice, x.targetPrice, made.value.stopPrice,
                      made.value.targetPrice);
    }
    if LevelsAround(c, snapshot.close, snapshot.atr, x.stopPrice, x.targetPrice) {
      StopIsPositive(c, snapshot.close, snapshot.atr, x.stopPrice, x.targetPrice);
    }
  }

  lemma MadeCandidate(c: Config, f: Filters, s: Portfolio, snapshot: Snapshot, history: seq<Bar>)
    ensures var made, score := CandidateFrom(c, f, s, snapshot, history), f.score(snapshot, history, s.regime);
            && (made.Some? <==>
                  snapshot.atr > 0.0 && score.Some? && snapshot.close - snapshot.atr * c.stopAtrMultiple > 0.0)
            && (made.Some? ==>
                  && made.value.technical == snapshot && score == Some(made.value.score)
                  && made.value.instrument == snapshot.instrument && made.value.exchange == snapshot.exchange
                  && LevelsAround(c, snapshot.close, snapshot.atr, made.value.stopPrice, made.value.targetPrice))
  {}

  lemma LevelsAreUnique(c: Config, close: real, extent: real, stop: real, target: Option<real>, other: real,
                        goal: Option<real>)
    requires LevelsAround(c, close, extent, stop, target) && LevelsAround(c, close, extent, other, goal)
    ensures stop == other && target == goal
  {
    if target.Some? {
      assert goal.Some? && target.value == goal.value;
    } else {
      assert goal.None?;
    }
  }

  lemma StopIsPositive(c: Config, close: real, extent: real, stop: real, target: Option<real>)
    requires LevelsAround(c, close, extent, stop, target)
    ensures close - extent * c.stopAtrMultiple > 0.0
  {}

  /**
   * The candidates of an event are exactly those that a current bar makes of an instrument that is not held, is in
   * the universe, and may be entered in the market's regime.
   */
  lemma CandidatesInPrices(m: Market, c: Config, f: Filters, limits: RiskLimits, s: Portfolio, e: MarketEvent,
                           last: int, x: Candidate)
    requires Steady(m, c, s, last) && ProperEvent(m, e) && last < e.time.instant && SpentBy(Ids(s), last)
    requires s.ledger.Valid() && AfterEvent(c, f, limits, s, e).Ok?
    requires forall b | b in e.bars :: HighAboveLow(HistoryOf(s.histories, b.instrument) + [b])
    ensures x in ScanOf(c, f, limits, s, e).candidates <==>
            && f.regime(s.regime + e.regimeBars)
            && exists b :: b in e.bars && b.instrument !in Holding(m, Traded(c, limits, s, e).value.ledger) &&
                           b.instrument in UniverseAt(c, f, s, e) &&
                           Makes(c, f, HistoryOf(s.histories, b.instrument) + [b], s.regime + e.regimeBars, x)
  {
    hide Steady, Visible, OpenList, Traded, Holding, Ledger.Valid, HighAboveLow, Makes, SnapshotFor, CandidateFrom,
         Scanned, AppendBars;
    TradingKeepsSteady(m, c, limits, s, e, last);
    SteadyPends(m, c, s, last);
    TradingPends(c, limits, s, e, "");
    BarsAreAppended(s.histories, e.bars);
    var t := Traded(c, limits, s, e).value;
    var u := BeforeScan(c, f, t, e);
    BeforeScanPends(m, c, f, t, e, "");
    BarsAreListed(m, e);
    BarsAreLast(t, u, e);
    ScanActs(m, c, f, u, e.bars, f.regime(u.regime), e.time.instant);
    UniverseIs(c, f, limits, s, e);
    forall b | b in e.bars
      ensures Qualifies(m, c, f, u, f.regime(u.regime), b.instrument, x) <==>
              f.regime(s.regime + e.regimeBars) && b.instrument !in Holding(m, t.ledger) &&
              b.instrument in UniverseAt(c, f, s, e) &&
              Makes(c, f, HistoryOf(s.histories, b.instrument) + [b], s.regime + e.regimeBars, x)
    {
      CandidateAsMade(c, f, u, HistoryOf(s.histories, b.instrument) + [b], x);
    }
  }

  lemma UniverseIs(c: Config, f: Filters, limits: RiskLimits, s: Portfolio, e: MarketEvent)
    requires s.ledger.Valid() && s.pending.Valid() && Traded(c, limits, s, e).Ok?
    ensures BeforeScan(c, f, Traded(c, limits, s, e).value, e).universe == UniverseAt(c, f, s, e)
  {
    hide Traded, Ledger.Valid, OpenList, AfterPyramids, AppendBars;
    TradingPends(c, limits, s, e, "");
    var t := Traded(c, limits, s, e).value;
    PyramidsOnlyPend(c, t, e, OpenList(t.ledger));
  }

  lemma {:induction false} PyramidsOnlyPend(c: Config, s: Portfolio, e: MarketEvent, positions: seq<Position>)
    ensures AfterPyramids(c, s, e, positions) == s.(pending := AfterPyramids(c, s, e, positions).pending)
  {
    hide WantsPyramid;
    if |positions| > 0 {
      PyramidsOnlyPend(c, s, e, positions[..|positions| - 1]);
    }
  }
}
