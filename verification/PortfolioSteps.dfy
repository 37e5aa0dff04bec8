/** Every step of the portfolio loop keeps the loop invariant. */
module PortfolioSteps {
  import opened Prelude
  import opened OrderedDict
  import opened Models
  import opened Risk
  import opened PaperBroking
  import opened OrderManaging
  import opened LedgerLaws
  import opened LedgerEffects
  import opened PortfolioLoop
  import opened PortfolioBooks

  // ----- Pacing

  function Window(c: Config): int { c.entryPeriodDays * SECONDS_PER_DAY }

  /** The entries filled in the pacing window that ends at an instant. */
  ghost function WindowEndingAt(c: Config, l: Ledger, t: int): set<OrderId> {
    EntriesWithin(l, t - Window(c), t)
  }

  /** How many of the remembered entry times lie at or after an instant. */
  function CountFrom(recent: seq<int>, since: int): (n: nat)
    ensures n <= |recent|
  {
    if |recent| == 0 then 0 else CountFrom(recent[1..], since) + if recent[0] >= since then 1 else 0
  }

  lemma {:induction false} CountFromSnoc(recent: seq<int>, x: int, since: int)
    ensures CountFrom(recent + [x], since) == CountFrom(recent, since) + if x >= since then 1 else 0
  {
    if |recent| == 0 {
      assert (recent + [x])[1..] == [];
    } else {
      CountFromSnoc(recent[1..], x, since);
      assert (recent + [x])[1..] == recent[1..] + [x];
    }
  }

  lemma {:induction false} PruningForgetsOnlyTheOld(recent: seq<int>, windowStart: int, since: int)
    requires since >= windowStart
    ensures |Pruned(recent, windowStart)| <= |recent|
    ensures CountFrom(Pruned(recent, windowStart), since) == CountFrom(recent, since)
  {
    if |recent| > 0 && recent[0] < windowStart {
      PruningForgetsOnlyTheOld(recent[1..], windowStart, since);
    }
  }

  /** The remembered entry times cover every entry of the window, so remembered and pending ones bound it. */
  ghost predicate Covered(c: Config, l: Ledger, recent: seq<int>, now: int) {
    && (forall since | since >= now - Window(c) :: |EntriesSince(l, since)| <= CountFrom(recent, since))
    && (forall id | id in Entries(l) :: FillTime(l, id) <= now)
  }

  ghost predicate WindowsBounded(c: Config, l: Ledger, limit: int) {
    forall t :: |WindowEndingAt(c, l, t)| <= limit
  }

  ghost predicate Paced(c: Config, l: Ledger, recent: seq<int>, buys: nat, now: int) {
    c.maxNewEntries.Some? ==>
      && |recent| + buys <= c.maxNewEntries.value
      && Covered(c, l, recent, now)
      && WindowsBounded(c, l, c.maxNewEntries.value)
  }

  ghost predicate SameEntries(l: Ledger, after: Ledger) {
    Entries(after) == Entries(l) && forall x | x in Entries(l) :: FillTime(after, x) == FillTime(l, x)
  }

  lemma SameEntriesKeepPace(c: Config, l: Ledger, after: Ledger, recent: seq<int>, buys: nat, fewer: nat, now: int)
    requires Paced(c, l, recent, buys, now) && SameEntries(l, after) && fewer <= buys
    ensures Paced(c, after, recent, fewer, now)
  {
    hide Entries;
    forall since ensures EntriesSince(after, since) == EntriesSince(l, since) {}
    forall t ensures WindowEndingAt(c, after, t) == WindowEndingAt(c, l, t) {}
  }

  lemma LaterKeepsPace(c: Config, l: Ledger, recent: seq<int>, buys: nat, now: int, later: int)
    requires Paced(c, l, recent, buys, now) && now <= later
    ensures Paced(c, l, recent, buys, later)
  {}

  lemma PruningKeepsPace(c: Config, l: Ledger, recent: seq<int>, buys: nat, now: int)
    requires Paced(c, l, recent, buys, now)
    ensures Paced(c, l, Pruned(recent, now - Window(c)), buys, now)
  {
    PruningForgetsOnlyTheOld(recent, now - Window(c), now - Window(c));
    forall since | since >= now - Window(c)
      ensures CountFrom(Pruned(recent, now - Window(c)), since) == CountFrom(recent, since)
    {
      PruningForgetsOnlyTheOld(recent, now - Window(c), since);
    }
  }

  /** The book gained one entry, filled now. */
  ghost predicate OneMoreEntry(l: Ledger, after: Ledger, id: OrderId, now: int) {
    && id !in Entries(l) && Entries(after) == Entries(l) + {id}
    && FillTime(after, id) == now
    && forall x | x in Entries(l) :: FillTime(after, x) == FillTime(l, x)
  }

  lemma EntryExtendsCover(c: Config, l: Ledger, after: Ledger, recent: seq<int>, id: OrderId, now: int)
    requires Covered(c, l, recent, now) && OneMoreEntry(l, after, id, now)
    ensures Covered(c, after, recent + [now], now)
  {
    hide Entries;
    forall since | since >= now - Window(c)
      ensures |EntriesSince(after, since)| <= CountFrom(recent + [now], since)
    {
      CountFromSnoc(recent, now, since);
      assert EntriesSince(after, since) == EntriesSince(l, since) + if now >= since then {id} else {};
    }
  }

  /** A window that ends before the new entry misses it; a later one lies inside the remembered times. */
  lemma EntryKeepsWindow(c: Config, l: Ledger, after: Ledger, recent: seq<int>, id: OrderId, now: int, limit: int,
                         t: int)
    requires OneMoreEntry(l, after, id, now) && |WindowEndingAt(c, l, t)| <= limit
    requires Covered(c, after, recent, now) && |recent| <= limit
    ensures |WindowEndingAt(c, after, t)| <= limit
  {
    hide Entries;
    if t - Window(c) <= now <= t {
      assert EntriesWithin(after, t - Window(c), t) <= EntriesSince(after, t - Window(c));
      SubsetIsSmaller(EntriesWithin(after, t - Window(c), t), EntriesSince(after, t - Window(c)));
    } else {
      assert EntriesWithin(after, t - Window(c), t) == EntriesWithin(l, t - Window(c), t);
    }
  }

  lemma {:induction false} SubsetIsSmaller<T>(a: set<T>, b: set<T>)
    requires a <= b
    ensures |a| <= |b|
  {
    assert a + (b - a) == b;
  }

  lemma EntryKeepsPace(c: Config, l: Ledger, after: Ledger, recent: seq<int>, buys: nat, id: OrderId, now: int)
    requires Paced(c, l, recent, buys, now) && buys > 0 && OneMoreEntry(l, after, id, now)
    ensures Paced(c, after, recent + [now], buys - 1, now)
  {
    hide Entries, Covered, OneMoreEntry;
    if c.maxNewEntries.Some? {
      EntryExtendsCover(c, l, after, recent, id, now);
      forall t ensures |WindowEndingAt(c, after, t)| <= c.maxNewEntries.value {
        EntryKeepsWindow(c, l, after, recent + [now], id, now, c.maxNewEntries.value, t);
      }
    }
  }

  // ----- The order ids used so far

  /** The ids on the book: nothing is from the future, and this event's belong to what has been handled already. */
  ghost predicate Spent(ids: set<OrderId>, now: int, acted: set<string>, exited: set<string>) {
    forall id | id in ids ::
      && id.instant <= now && !id.kind.KFinal?
      && (id.instant == now ==>
            if id.kind.KBuy? || id.kind.KPyramid? || id.kind.KTrend? then id.instrument in acted
                else id.instrument in exited)
  }

  ghost predicate SpentBy(ids: set<OrderId>, now: int) {
    forall id | id in ids :: id.instant <= now && !id.kind.KFinal?
  }

  // ----- The loop invariant

  ghost predicate Steady(m: Market, c: Config, s: Portfolio, now: int) {
    && Booked(m, c, s)
    && s.plans.Keys == Holding(m, s.ledger)
    && KnownHistories(m, s.histories)
    && (forall i | i in Holding(m, s.ledger) :: |HistoryOf(s.histories, i)| > 0)
    && s.pending.Valid()
    && BuyKeys(s.pending) !! Holding(m, s.ledger)
    && |Holding(m, s.ledger)| + |BuyKeys(s.pending)| <= c.maxPositions
    && Paced(c, s.ledger, s.recentEntries, |BuyKeys(s.pending)|, now)
  }

  /** The current bars are the last of their histories. */
  ghost predicate Visible(s: Portfolio, e: MarketEvent) {
    forall b | b in e.bars :: |HistoryOf(s.histories, b.instrument)| > 0
        && LastOf(HistoryOf(s.histories, b.instrument)) == b
  }

  lemma {:induction false} BarOfFinds(bars: seq<Bar>, instrument: string)
    ensures BarOf(bars, instrument).Some? ==>
              BarOf(bars, instrument).value in bars && BarOf(bars, instrument).value.instrument == instrument
  {
    if |bars| > 0 {
      BarOfFinds(bars[..|bars| - 1], instrument);
    }
  }

  lemma RemovedBuyKeys(pending: Dict<string, Pending>, k: string)
    ensures BuyKeys(pending.Remove(k)) == BuyKeys(pending) - {k}
  {}

  lemma FewerKeys<T>(s: set<T>, k: T)
    ensures |s - {k}| == if k in s then |s| - 1 else |s|
  {
    if k !in s {
      assert s - {k} == s;
    }
  }

  /** Popping a pending action keeps the invariant. */
  lemma PopKeepsSteady(m: Market, c: Config, s: Portfolio, now: int, k: string)
    requires Steady(m, c, s, now)
    ensures Steady(m, c, s.(pending := s.pending.Remove(k)), now)
  {
    hide Holding, Booked, KnownHistories, Paced, BuyKeys, Dict.Valid, Dict.Remove, HistoryOf;
    RemovedBuyKeys(s.pending, k);
    FewerKeys(BuyKeys(s.pending), k);
    FewerPending(c, s.ledger, s.recentEntries, |BuyKeys(s.pending)|, |BuyKeys(s.pending.Remove(k))|, now);
    SameBooksPending(m, c, s, s.pending.Remove(k));
  }

  lemma FewerPending(c: Config, l: Ledger, recent: seq<int>, buys: nat, fewer: nat, now: int)
    requires Paced(c, l, recent, buys, now) && fewer <= buys
    ensures Paced(c, l, recent, fewer, now)
  {}

  lemma SameBooksPending(m: Market, c: Config, s: Portfolio, pending: Dict<string, Pending>)
    ensures Booked(m, c, s.(pending := pending)) == Booked(m, c, s)
  {}

  /** Selling a whole position and dropping its plan keeps the invariant. */
  lemma SaleKeepsSteady(m: Market, c: Config, s: Portfolio, after: Portfolio, now: int, id: OrderId, instrument: string)
    requires Steady(m, c, s, now) && instrument in m && instrument in Holding(m, s.ledger)
    requires SaleMade(m, c, s, after, id, instrument)
    ensures Steady(m, c, after.(plans := after.plans - {instrument}), now)
  {
    hide Holding, Worth, KnownHistories, Paced, BuyKeys, OneOrder, Entries, BooksAgree;
    FewerKeys(Holding(m, s.ledger), instrument);
    SaleKeepsEntryTimes(m, c, s, after, id, instrument);
    SameEntriesKeepPace(c, s.ledger, after.ledger, s.recentEntries, |BuyKeys(s.pending)|, |BuyKeys(s.pending)|, now);
  }

  lemma SaleKeepsEntryTimes(m: Market, c: Config, s: Portfolio, after: Portfolio, id: OrderId, instrument: string)
    requires instrument in m && SaleMade(m, c, s, after, id, instrument)
    ensures SameEntries(s.ledger, after.ledger)
  {
    hide Holding, BooksAgree, PositionKey;
  }

  lemma EntryKeepsSteady(m: Market, c: Config, s: Portfolio, after: Portfolio, e: MarketEvent, instrument: string)
    requires Steady(m, c, s, e.time.instant) && instrument in BuyKeys(s.pending)
    requires EntryMade(m, c, s.(pending := s.pending.Remove(instrument)), after, e, instrument)
    requires |HistoryOf(s.histories, instrument)| > 0
    ensures Steady(m, c, after, e.time.instant)
  {
    hide Holding, KnownHistories, Paced, BuyKeys, Entries, Booked, HistoryOf, Dict.Valid, Dict.Remove;
    var id, now := OrderIdAt(instrument, e.time, KBuy), e.time.instant;
    var buys := |BuyKeys(s.pending)|;
    RemovedBuyKeys(s.pending, instrument);
    FewerKeys(BuyKeys(s.pending), instrument);
    if instrument in Holding(m, after.ledger) {
      EntryIsNew(s.ledger, id);
      EntryKeepsPace(c, s.ledger, after.ledger, s.recentEntries, buys, id, now);
      OneMore(Holding(m, s.ledger), instrument);
    } else {
      SameEntriesKeepPace(c, s.ledger, after.ledger, s.recentEntries, buys, buys - 1, now);
    }
  }

  lemma PyramidKeepsSteady(m: Market, c: Config, s: Portfolio, after: Portfolio, e: MarketEvent, instrument: string,
                           filled: bool)
    requires Steady(m, c, s, e.time.instant) && instrument in Holding(m, s.ledger)
    requires PyramidMade(m, c, s, after, e, instrument, filled)
    ensures Steady(m, c, after, e.time.instant)
  {
    hide Holding, Worth, KnownHistories, Paced, BuyKeys, Entries, BooksAgree;
    assert Holding(m, after.ledger) == Holding(m, s.ledger);
    SameEntriesKeepPace(c, s.ledger, after.ledger, s.recentEntries, |BuyKeys(s.pending)|, |BuyKeys(s.pending)|,
        e.time.instant);
  }
}
