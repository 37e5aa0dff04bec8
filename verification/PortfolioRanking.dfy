/** The slots go to the best candidates: higher scores first, then by name. */
module PortfolioRanking {
  import opened Prelude
  import opened OrderedDict
  import opened Models
  import opened Risk
  import opened PaperBroking
  import opened LedgerEffects
  import opened PortfolioLoop
  import opened PortfolioBooks
  import opened PortfolioSteps
  import opened PortfolioPhases
  import opened PortfolioLaws
  import O = OrderManaging

  lemma {:induction false} NamesAreOrdered(a: string, b: string)
    ensures StringAtMost(a, b) || StringAtMost(b, a)
  {
    if |a| > 0 && |b| > 0 && a[0] == b[0] {
      NamesAreOrdered(a[1..], b[1..]);
    }
  }

  /** The names agree up to an index, where the first ends or has the smaller character. */
  predicate FirstDiffersAt(a: string, b: string, k: nat) {
    && k <= |a| && k <= |b| && a[..k] == b[..k]
    && (k == |a| || (k < |b| && a[k] < b[k]))
  }

  lemma {:induction false} NamesDiffer(a: string, b: string) returns (k: nat)
    requires StringAtMost(a, b)
    ensures FirstDiffersAt(a, b, k)
  {
    k := 0;
    if |a| > 0 && a[0] == b[0] {
      k := NamesDiffer(a[1..], b[1..]);
      assert a[..k + 1] == [a[0]] + a[1..][..k] && b[..k + 1] == [b[0]] + b[1..][..k];
      k := k + 1;
    }
  }

  /** The higher score is ahead; of equal scores, the name that comes first in the alphabet of the characters. */
  ghost predicate RanksAhead(a: Candidate, b: Candidate) {
    a.score > b.score || (a.score == b.score && exists k :: FirstDiffersAt(a.instrument, b.instrument, k))
  }

  lemma FirstIsAhead(a: Candidate, b: Candidate)
    requires GoesFirst(a, b)
    ensures RanksAhead(a, b)
  {
    if a.score == b.score {
      var k := NamesDiffer(a.instrument, b.instrument);
    }
  }

  lemma {:induction false} NameOrderIsTransitive(a: string, b: string, c: string)
    requires StringAtMost(a, b) && StringAtMost(b, c)
    ensures StringAtMost(a, c)
  {
    if |a| > 0 && |b| > 0 && |c| > 0 && a[0] == b[0] == c[0] {
      NameOrderIsTransitive(a[1..], b[1..], c[1..]);
    }
  }

  lemma RankIsTransitive(a: Candidate, b: Candidate, c: Candidate)
    requires GoesFirst(a, b) && GoesFirst(b, c)
    ensures GoesFirst(a, c)
  {
    if a.score == b.score == c.score {
      NameOrderIsTransitive(a.instrument, b.instrument, c.instrument);
    }
  }

  ghost predicate Ranked(s: seq<Candidate>) {
    forall i, j :: 0 <= i < j < |s| ==> GoesFirst(s[i], s[j])
  }

  lemma {:induction false} InsertingKeepsRanked(sorted: seq<Candidate>, x: Candidate)
    requires Ranked(sorted)
    ensures Ranked(InsertCandidate(sorted, x))
  {
    hide GoesFirst;
    if |sorted| > 0 {
      var init, last := sorted[..|sorted| - 1], sorted[|sorted| - 1];
      if GoesFirst(last, x) {
        forall i | 0 <= i < |init| ensures GoesFirst(init[i], x) {
          RankIsTransitive(sorted[i], last, x);
        }
      } else {
        InsertingKeepsRanked(init, x);
        RankIsTotal(last, x);
        var inserted := InsertCandidate(init, x);
        forall y | y in inserted ensures GoesFirst(y, last) {
          assert y in multiset(inserted);
          if y != x {
            assert y in multiset(init);
            var i :| 0 <= i < |init| && init[i] == y;
            assert GoesFirst(sorted[i], sorted[|sorted| - 1]);
          }
        }
      }
    }
  }

  lemma RankIsTotal(a: Candidate, b: Candidate)
    ensures GoesFirst(a, b) || GoesFirst(b, a)
  {
    NamesAreOrdered(a.instrument, b.instrument);
  }

  lemma {:induction false} SortingRanks(candidates: seq<Candidate>)
    ensures Ranked(SortCandidates(candidates))
  {
    if |candidates| > 0 {
      SortingRanks(candidates[..|candidates| - 1]);
      InsertingKeepsRanked(SortCandidates(candidates[..|candidates| - 1]), candidates[|candidates| - 1]);
    }
  }

  /** The candidates that get one of the free slots. */
  function Chosen(candidates: seq<Candidate>, slots: nat): seq<Candidate> {
    SortCandidates(candidates)[..MinInt(slots, |SortCandidates(candidates)|)]
  }

  lemma SlotsGoToChosen(c: Config, scan: Scan, e: MarketEvent)
    requires scan.portfolio.ledger.Valid()
    ensures var s := WithPruning(c, scan.portfolio, e);
            SlotsFilled(c, scan, e) == Schedule(s, Chosen(scan.candidates, Slots(c, s)))
  {
    hide Slots, SortCandidates;
  }

  /** Whatever the number of slots, no candidate left out ranks ahead of a chosen one. */
  lemma BestAreChosen(candidates: seq<Candidate>, slots: nat, x: Candidate, y: Candidate)
    requires y in Chosen(candidates, slots) && x in candidates && x !in Chosen(candidates, slots)
    ensures GoesFirst(y, x)
  {
    hide GoesFirst;
    var ranked := SortCandidates(candidates);
    SortingRanks(candidates);
    assert x in multiset(candidates) && x in multiset(ranked);
    var i :| 0 <= i < |ranked| && ranked[i] == x;
    var n := MinInt(slots, |ranked|);
    var j :| 0 <= j < n && ranked[j] == y;
    forall k | 0 <= k < n ensures ranked[k] in Chosen(candidates, slots) {
      assert ranked[k] == Chosen(candidates, slots)[k];
    }
  }

  // ----- No current instrument is pending when the slots are filled

  lemma PopsOne(c: Config, limits: RiskLimits, s: Portfolio, e: MarketEvent, k: string)
    requires s.ledger.Valid() && PendingStep(c, limits, s, e, k).Ok?
    ensures var after := PendingStep(c, limits, s, e, k).value;
            after.pending == if BarOf(e.bars, k).Some? && k in s.pending.data then s.pending.Remove(k) else s.pending
  {
    hide Ledger.Valid, O.AfterSellSubmission, O.AfterBuySubmission, EntryArgs, PyramidArgs, FindPosition,
         FindInstrument, OpenList,
         RecordsFor, BarOf, AverageFillPrice, Dict.Remove;
  }

  lemma {:induction false} PopsEveryCurrent(c: Config, limits: RiskLimits, s: Portfolio, e: MarketEvent,
                                            keys: seq<string>)
    requires s.ledger.Valid() && AfterPending(c, limits, s, e, keys).Ok?
    ensures var after := AfterPending(c, limits, s, e, keys).value;
            forall k | k in after.pending.data :: k in s.pending.data && (k in keys ==> BarOf(e.bars, k).None?)
  {
    hide Ledger.Valid, PendingStep, BarOf;
    if |keys| > 0 {
      var init, last := keys[..|keys| - 1], keys[|keys| - 1];
      assert keys == init + [last];
      PopsEveryCurrent(c, limits, s, e, init);
      PopsOne(c, limits, AfterPending(c, limits, s, e, init).value, e, last);
    }
  }

  lemma {:induction false} ExitsKeepPending(c: Config, s: Portfolio, e: MarketEvent, positions: seq<Position>)
    requires s.ledger.Valid() && AfterExits(c, s, e, positions).Ok?
    ensures AfterExits(c, s, e, positions).value.pending == s.pending
  {
    hide Ledger.Valid, O.AfterSellSubmission, FindInstrument, OpenList, RecordsFor, BarOf, StopLevel;
    if |positions| > 0 {
      ExitsKeepPending(c, s, e, positions[..|positions| - 1]);
    }
  }

  lemma {:induction false} CurrentBarIsFound(bars: seq<Bar>, b: Bar)
    requires b in bars
    ensures BarOf(bars, b.instrument).Some?
  {
    if bars[|bars| - 1].instrument != b.instrument {
      assert b in bars[..|bars| - 1];
      CurrentBarIsFound(bars[..|bars| - 1], b);
    }
  }

  /** A current instrument that is pending is held. */
  ghost predicate OnlyHeldPend(m: Market, s: Portfolio, bars: seq<Bar>) {
    forall b | b in bars && b.instrument in s.pending.data :: b.instrument in Holding(m, s.ledger)
  }

  lemma TradingPopsCurrent(m: Market, c: Config, limits: RiskLimits, s: Portfolio, e: MarketEvent)
    requires s.ledger.Valid() && s.pending.Valid() && Traded(c, limits, s, e).Ok?
    ensures OnlyHeldPend(m, Traded(c, limits, s, e).value, e.bars)
  {
    hide Ledger.Valid, AfterMark, EquityAtPrices, OpenList, AfterPending, AfterExits, AfterReset, AppendBars, BarOf,
         Holding;
    var cooled := CooledDown(c, Marked(limits, WithBars(s, e), e).value, e);
    PopsEveryCurrent(c, limits, cooled, e, cooled.pending.keys);
    var acted := AfterPending(c, limits, cooled, e, cooled.pending.keys).value;
    ExitsKeepPending(c, acted, e, OpenList(acted.ledger));
    forall b | b in e.bars ensures BarOf(e.bars, b.instrument).Some? {
      CurrentBarIsFound(e.bars, b);
    }
  }

  lemma {:induction false} PyramidsPendHeld(m: Market, c: Config, s: Portfolio, e: MarketEvent,
                                            positions: seq<Position>)
    requires OnlyHeldPend(m, s, e.bars) && forall p | p in positions :: p.instrument in Holding(m, s.ledger)
    ensures OnlyHeldPend(m, AfterPyramids(c, s, e, positions), e.bars)
  {
    hide WantsPyramid, Holding;
    if |positions| > 0 {
      PyramidsKeepLedger(c, s, e, positions[..|positions| - 1]);
      PyramidsPendHeld(m, c, s, e, positions[..|positions| - 1]);
    }
  }

  /** The candidates found so far are of different scanned instruments that are free and not pending. */
  ghost predicate FreshCandidates(m: Market, scan: Scan, bars: seq<Bar>) {
    && (forall x | x in scan.candidates :: x.instrument !in Holding(m, scan.portfolio.ledger))
    && (forall x | x in scan.candidates :: exists b :: b in bars && b.instrument == x.instrument)
    && forall i, j | 0 <= i < j < |scan.candidates| :: scan.candidates[i].instrument != scan.candidates[j].instrument
  }

  lemma ScanStepFresh(m: Market, c: Config, f: Filters, scan: Scan, bars: seq<Bar>, bar: Bar, allowEntries: bool,
                      now: int)
    requires scan.portfolio.ledger.Valid() && Steady(m, c, scan.portfolio, now) && Listed(m, bar)
    requires |HistoryOf(scan.portfolio.histories, bar.instrument)| > 0
    requires LastOf(HistoryOf(scan.portfolio.histories, bar.instrument)) == bar
    requires forall b | b in bars :: b.instrument != bar.instrument
    requires FreshCandidates(m, scan, bars)
    ensures FreshCandidates(m, ScanStep(c, f, scan, bar, allowEntries), bars + [bar])
    ensures forall all | OnlyHeldPend(m, scan.portfolio, all) ::
            OnlyHeldPend(m, ScanStep(c, f, scan, bar, allowEntries).portfolio, all)
  {
    hide PositionKey, Holding, Steady, OpenList, FindPosition, SnapshotFor;
    FoundPosition(m, c, scan.portfolio, now, bar);
    SnapshotNamesItsBar(c, HistoryOf(scan.portfolio.histories, bar.instrument));
    var after := ScanStep(c, f, scan, bar, allowEntries);
    assert bar in bars + [bar];
    forall x | x in after.candidates ensures exists b :: b in bars + [bar] && b.instrument == x.instrument {
      if x in scan.candidates {
        var b :| b in bars && b.instrument == x.instrument;
        assert b in bars + [bar];
      }
    }
  }

  lemma {:induction false} ScanFresh(m: Market, c: Config, f: Filters, s: Portfolio, bars: seq<Bar>,
                                     allowEntries: bool, now: int)
    requires s.ledger.Valid() && Steady(m, c, s, now)
    requires forall b | b in bars ::
               Listed(m, b) && |HistoryOf(s.histories, b.instrument)| > 0
               && LastOf(HistoryOf(s.histories, b.instrument)) == b
    requires forall i, j :: 0 <= i < j < |bars| ==> bars[i].instrument != bars[j].instrument
    ensures FreshCandidates(m, Scanned(c, f, s, bars, allowEntries), bars)
    ensures forall all | OnlyHeldPend(m, s, all) :: OnlyHeldPend(m, Scanned(c, f, s, bars, allowEntries).portfolio, all)
  {
    hide Steady, ScanStep, Holding, FreshCandidates, OnlyHeldPend;
    if |bars| == 0 {
      NoCandidatesAreFresh(m, s);
    } else {
      var init, last := bars[..|bars| - 1], bars[|bars| - 1];
      assert bars == init + [last];
      ScanFresh(m, c, f, s, init, allowEntries, now);
      ScanIsWell(m, c, f, s, init, allowEntries, now);
      ScanStepFresh(m, c, f, Scanned(c, f, s, init, allowEntries), init, last, allowEntries, now);
    }
  }

  lemma NoCandidatesAreFresh(m: Market, s: Portfolio)
    ensures FreshCandidates(m, Scan(s, []), [])
  {}

  // ----- What the slots are filled with

  predicate IsScheduled(s: Portfolio, x: Candidate) {
    x.instrument in s.pending.data && s.pending.data[x.instrument] == PendingBuy(x)
  }

  lemma PutScheduled(s: Portfolio, x: Candidate)
    requires x.instrument !in s.pending.data
    ensures var after := s.(pending := s.pending.Put(x.instrument, PendingBuy(x)));
            && IsScheduled(after, x)
            && |BuyKeys(after.pending)| == |BuyKeys(s.pending)| + 1
            && (forall y: Candidate | y.instrument != x.instrument && IsScheduled(s, y) :: IsScheduled(after, y))
            && forall k | k in after.pending.data :: k in s.pending.data || k == x.instrument
  {
    var after := s.(pending := s.pending.Put(x.instrument, PendingBuy(x)));
    assert BuyKeys(after.pending) == BuyKeys(s.pending) + {x.instrument};
  }

  lemma {:induction false} ScheduleContents(s: Portfolio, chosen: seq<Candidate>)
    requires forall i, j | 0 <= i < j < |chosen| :: chosen[i].instrument != chosen[j].instrument
    requires forall x | x in chosen :: x.instrument !in s.pending.data
    ensures forall x | x in chosen :: IsScheduled(Schedule(s, chosen), x)
    ensures forall k | k in Schedule(s, chosen).pending.data ::
              k in s.pending.data || exists x :: x in chosen && x.instrument == k
    ensures |BuyKeys(Schedule(s, chosen).pending)| == |BuyKeys(s.pending)| + |chosen|
  {
    hide IsScheduled, BuyKeys, Dict.Put;
    if |chosen| > 0 {
      var init, last := chosen[..|chosen| - 1], chosen[|chosen| - 1];
      assert chosen == init + [last];
      ScheduleContents(s, init);
      assert last.instrument !in Schedule(s, init).pending.data;
      PutScheduled(Schedule(s, init), last);
      forall k | k in Schedule(s, chosen).pending.data
        ensures k in s.pending.data || exists x :: x in chosen && x.instrument == k
      {
        if k != last.instrument && k !in s.pending.data {
          var x :| x in init && x.instrument == k;
          assert x in chosen;
        }
      }
    }
  }

  /** Scheduled candidates are exactly the chosen ones, and those are the best. */
  ghost predicate BestScheduled(s: Portfolio, after: Portfolio, candidates: seq<Candidate>, slots: nat) {
    && (forall x, y | x in candidates && y in candidates && IsScheduled(after, y)
        && !IsScheduled(after, x) :: RanksAhead(y, x))
    && |BuyKeys(after.pending)| == |BuyKeys(s.pending)| + MinInt(slots, |candidates|)
  }

  lemma SchedulingBest(s: Portfolio, candidates: seq<Candidate>, slots: nat)
    requires forall i, j | 0 <= i < j < |candidates| :: candidates[i].instrument != candidates[j].instrument
    requires forall x | x in candidates :: x.instrument !in s.pending.data
    ensures BestScheduled(s, Schedule(s, Chosen(candidates, slots)), candidates, slots)
  {
    hide GoesFirst, RanksAhead, SortCandidates, BuyKeys;
    var chosen := Chosen(candidates, slots);
    ChosenAreCandidates(candidates, slots);
    ScheduleContents(s, chosen);
    var after := Schedule(s, chosen);
    hide Chosen;
    forall x, y | x in candidates && y in candidates && IsScheduled(after, y) && !IsScheduled(after, x)
      ensures RanksAhead(y, x) {
      var z :| z in chosen && z.instrument == y.instrument;
      assert z == y;
      BestAreChosen(candidates, slots, x, y);
      FirstIsAhead(y, x);
    }
  }

  lemma SortingPermutes(candidates: seq<Candidate>)
    requires forall i, j | 0 <= i < j < |candidates| :: candidates[i].instrument != candidates[j].instrument
    ensures var r := SortCandidates(candidates);
            && |r| == |candidates| && (forall x | x in r :: x in candidates)
            && forall i, j | 0 <= i < j < |r| :: r[i].instrument != r[j].instrument
  {
    var r := SortCandidates(candidates);
    assert |multiset(r)| == |multiset(candidates)|;
    forall x | x in r ensures x in candidates {
      assert x in multiset(r);
    }
    forall i, j | 0 <= i < j < |r| ensures r[i].instrument != r[j].instrument {
      if r[i].instrument == r[j].instrument {
        assert r[i] in r && r[j] in r;
        var a :| 0 <= a < |candidates| && candidates[a] == r[i];
        var b :| 0 <= b < |candidates| && candidates[b] == r[j];
        assert a == b && r[i] == r[j];
        TwiceInMultiset(r, i, j);
        OnceInMultiset(candidates, a);
        assert false;
      }
    }
  }

  lemma TwiceInMultiset(s: seq<Candidate>, i: int, j: int)
    requires 0 <= i < j < |s| && s[i] == s[j]
    ensures multiset(s)[s[i]] >= 2
  {
    assert s == s[..j] + [s[j]] + s[j + 1..];
    assert s[i] in s[..j];
  }

  lemma OnceInMultiset(s: seq<Candidate>, i: int)
    requires 0 <= i < |s| && forall a, b | 0 <= a < b < |s| :: s[a] != s[b]
    ensures multiset(s)[s[i]] == 1
  {
    assert s == s[..i] + [s[i]] + s[i + 1..];
    assert s[i] !in s[..i] && s[i] !in s[i + 1..];
  }

  lemma ChosenAreCandidates(candidates: seq<Candidate>, slots: nat)
    requires forall i, j | 0 <= i < j < |candidates| :: candidates[i].instrument != candidates[j].instrument
    ensures var chosen := Chosen(candidates, slots);
            && |chosen| == MinInt(slots, |candidates|) && (forall x | x in chosen :: x in candidates)
            && forall i, j | 0 <= i < j < |chosen| :: chosen[i].instrument != chosen[j].instrument
  {
    hide SortCandidates;
    SortingPermutes(candidates);
  }

  /** The scan of an event: its candidates, and the portfolio they compete in. */
  function ScanOf(c: Config, f: Filters, limits: RiskLimits, s: Portfolio, e: MarketEvent): (r: Scan)
    requires s.ledger.Valid() && Traded(c, limits, s, e).Ok?
    ensures r.portfolio.ledger.Valid()
  {
    var traded := Traded(c, limits, s, e).value;
    PyramidsKeepLedger(c, traded, e, OpenList(traded.ledger));
    var pyramided := if c.enablePyramiding then AfterPyramids(c, traded, e, OpenList(traded.ledger)) else traded;
    var balanced := Rebalanced(c, f, pyramided, e);
    Scanned(c, f, balanced, e.bars, f.regime(balanced.regime))
  }

  /**
   * In every event of a run, the purchases scheduled are the best of the event's candidates, as many as there are
   * free slots: no candidate left out has a higher score, or an equal score and an earlier name.
   */
  lemma SlotsGoToTheBest(m: Market, c: Config, f: Filters, limits: RiskLimits, s: Portfolio, e: MarketEvent, last: int)
    requires Steady(m, c, s, last) && ProperEvent(m, e) && last < e.time.instant && SpentBy(Ids(s), last)
    requires s.ledger.Valid() && AfterEvent(c, f, limits, s, e).Ok?
    ensures var scan := ScanOf(c, f, limits, s, e);
            var pruned := WithPruning(c, scan.portfolio, e);
            BestScheduled(pruned, AfterEvent(c, f, limits, s, e).value, scan.candidates, Slots(c, pruned))
  {
    hide Steady, Visible, OpenList, AfterPyramids, Scanned, Traded, Holding, OnlyHeldPend, Slots, Chosen, BuyKeys,
         GoesFirst, Schedule, Ledger.Valid;
    TradingKeepsSteady(m, c, limits, s, e, last);
    var traded := Traded(c, limits, s, e).value;
    SteadyPends(m, c, s, last);
    TradingPopsCurrent(m, c, limits, s, e);
    SteadyIsBooked(m, c, traded, e.time.instant);
    HeldAreListed(m, traded.ledger);
    PyramidsKeepSteady(m, c, traded, e, OpenList(traded.ledger));
    PyramidsPendHeld(m, c, traded, e, OpenList(traded.ledger));
    PyramidsKeepLedger(c, traded, e, OpenList(traded.ledger));
    var pyramided := if c.enablePyramiding then AfterPyramids(c, traded, e, OpenList(traded.ledger)) else traded;
    var balanced := Rebalanced(c, f, pyramided, e);
    SteadyIgnores(m, c, pyramided, balanced, e.time.instant);
    SamePend(m, pyramided, balanced, e.bars);
    BarsAreLast(traded, balanced, e);
    ScanFresh(m, c, f, balanced, e.bars, f.regime(balanced.regime), e.time.instant);
    var scan := ScanOf(c, f, limits, s, e);
    var pruned := WithPruning(c, scan.portfolio, e);
    FreshAreFree(m, scan, e.bars);
    SlotsGoToChosen(c, scan, e);
    SchedulingBest(pruned, scan.candidates, Slots(c, pruned));
  }

  lemma SteadyPends(m: Market, c: Config, s: Portfolio, now: int)
    requires Steady(m, c, s, now)
    ensures s.pending.Valid()
  {
    hide Holding, Booked, KnownHistories, BuyKeys, Paced;
  }

  lemma HeldAreListed(m: Market, l: Ledger)
    requires ValidMarket(m) && Coherent(m, l)
    ensures forall p | p in OpenList(l) :: p.instrument in Holding(m, l)
  {
    hide Holding, OpenList, PositionKey;
    forall p | p in OpenList(l) ensures p.instrument in Holding(m, l) {
      OpenPositionsAreHeld(m, l, p);
    }
  }

  lemma SamePend(m: Market, s: Portfolio, after: Portfolio, bars: seq<Bar>)
    requires OnlyHeldPend(m, s, bars) && after.pending == s.pending && after.ledger == s.ledger
    ensures OnlyHeldPend(m, after, bars)
  {
    hide Holding;
  }

  lemma BarsAreLast(s: Portfolio, after: Portfolio, e: MarketEvent)
    requires Visible(s, e) && after.histories == s.histories
    ensures forall b | b in e.bars ::
              |HistoryOf(after.histories, b.instrument)| > 0 && LastOf(HistoryOf(after.histories, b.instrument)) == b
  {}

  lemma FreshAreFree(m: Market, scan: Scan, bars: seq<Bar>)
    requires FreshCandidates(m, scan, bars) && OnlyHeldPend(m, scan.portfolio, bars)
    ensures forall x | x in scan.candidates :: x.instrument !in scan.portfolio.pending.data
    ensures forall i, j | 0 <= i < j < |scan.candidates| ::
            scan.candidates[i].instrument != scan.candidates[j].instrument
  {
    hide Holding;
    forall x | x in scan.candidates ensures x.instrument !in scan.portfolio.pending.data {
      var b :| b in bars && b.instrument == x.instrument;
    }
  }
}
