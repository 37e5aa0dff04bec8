/** What every step of the portfolio loop keeps: the books, the plans, the capacity and the pacing window. */
module PortfolioBooks {
  import opened Prelude
  import opened OrderedDict
  import opened Models
  import opened Risk
  import opened PaperBroking
  import opened OrderManaging
  import opened LedgerLaws
  import opened LedgerEffects
  import opened PortfolioLoop

  // ----- What a run may assume of its market data

  predicate Listed(m: Market, bar: Bar) {
    bar.instrument in m && bar.exchange == m[bar.instrument]
  }

  ghost predicate KnownHistories(m: Market, histories: map<string, seq<Bar>>) {
    forall i | i in histories :: i in m && forall b | b in histories[i] :: b.instrument == i && Listed(m, b)
  }

  /** The bars of an event share its time, and each instrument has at most one. */
  ghost predicate ProperEvent(m: Market, e: MarketEvent) {
    && (forall b | b in e.bars :: Listed(m, b) && b.time.instant == e.time.instant)
    && (forall i, j :: 0 <= i < j < |e.bars| ==> e.bars[i].instrument != e.bars[j].instrument)
  }

  ghost predicate ProperRun(m: Market, events: seq<MarketEvent>) {
    && (forall k | 0 <= k < |events| :: ProperEvent(m, events[k]))
    && (forall j, k | 0 <= j < k < |events| :: events[j].time.instant < events[k].time.instant)
  }

  // ----- Entries on the book

  /** The filled initial purchases: every one of them opened a position. */
  ghost function Entries(l: Ledger): set<OrderId> {
    set id | id in l.orders.data && id.kind.KBuy? && l.orders.data[id].status.FILLED?
  }

  ghost function FillTime(l: Ledger, id: OrderId): int
    requires id in Entries(l)
  {
    l.orders.data[id].updatedAt.instant
  }

  ghost function EntriesSince(l: Ledger, since: int): set<OrderId> {
    set id | id in Entries(l) && FillTime(l, id) >= since
  }

  ghost function EntriesWithin(l: Ledger, from: int, to: int): set<OrderId> {
    set id | id in Entries(l) && from <= FillTime(l, id) <= to
  }

  /** Any other order leaves the entries as they are; a filled initial purchase is one more. */
  lemma OneOrderMovesEntries(l: Ledger, after: Ledger, id: OrderId, key: string, delta: int)
    requires OneOrder(l, after, id, key, delta)
    ensures var more := if id.kind.KBuy? && after.orders.data[id].status.FILLED? then {id} else {};
            && after.orders.data.Keys == l.orders.data.Keys + {id}
            && Entries(after) == Entries(l) + more && id !in Entries(l)
            && (forall x | x in Entries(l) :: FillTime(after, x) == FillTime(l, x))
            && (forall since :: EntriesSince(after, since) <= EntriesSince(l, since) + more)
            && (forall from, to :: EntriesWithin(after, from, to) <= EntriesWithin(l, from, to) + more)
  {}

  // ----- The books

  /**
   * Every held instrument has one entry lot, the worth is the initial capital plus the recorded profits, every
   * pnl has its trade record, and every entry so far is either still open or closed by exactly one of them.
   */
  ghost predicate BooksAgree(m: Market, c: Config, l: Ledger, active: map<string, seq<Lot>>, pnls: seq<real>,
                             records: seq<TradeRecord>) {
    && ValidMarket(m) && Coherent(m, l)
    && l.rate == c.commissionRate
    && active.Keys == Holding(m, l)
    && (forall i | i in active :: |active[i]| == 1)
    && Worth(l) == c.initialCapital + Sum(pnls)
    && |records| == |pnls|
    && |Entries(l)| == |pnls| + |Holding(m, l)|
  }

  ghost predicate Booked(m: Market, c: Config, s: Portfolio) {
    BooksAgree(m, c, s.ledger, s.active, s.pnls, s.records)
  }

  lemma BookedIsValid(m: Market, c: Config, s: Portfolio)
    requires Booked(m, c, s)
    ensures s.ledger.Valid() && Coherent(m, s.ledger) && ValidMarket(m)
  {
    hide Worth, Holding, Entries;
  }

  lemma OneFewer(s: set<string>, x: string)
    requires x in s
    ensures |s - {x}| == |s| - 1
  {}

  lemma ClosedFacts(m: Market, l: Ledger, after: Ledger, a: SellArgs)
    requires a.instrument in m && l.Valid() && Closed(m, l, after, a) && !a.id.kind.KBuy?
    ensures Coherent(m, after) && after.rate == l.rate
    ensures Holding(m, after) == Holding(m, l) - {a.instrument}
    ensures Entries(after) == Entries(l)
    ensures Worth(after) == Worth(l) + Notional(a.fillPrice - l.AveragePrice(KeyOf(m, a.instrument)), a.quantity)
  {
    hide Worth, Coherent, Holding, OneOrder, Notional, KeyOf, Entries, Ledger.AveragePrice, Fee;
    OneOrderMovesEntries(l, after, a.id, KeyOf(m, a.instrument), 0 - a.quantity);
    OneOrderKeepsRate(l, after, a.id, KeyOf(m, a.instrument), 0 - a.quantity);
  }

  lemma SaleKeepsAgreement(m: Market, c: Config, l: Ledger, active: map<string, seq<Lot>>, pnls: seq<real>,
                           records: seq<TradeRecord>, a: SellArgs, after: Ledger, made: seq<TradeRecord>)
    requires BooksAgree(m, c, l, active, pnls, records)
    requires a.instrument in m && a.instrument in Holding(m, l) && !a.id.kind.KBuy?
    requires Closed(m, l, after, a) && |made| == 1
    ensures Entries(after) == Entries(l)
    ensures BooksAgree(m, c, after, active - {a.instrument},
                       pnls + [Notional(a.fillPrice - l.AveragePrice(KeyOf(m, a.instrument)), a.quantity)],
                           records + made)
  {
    hide Worth, Coherent, Holding, Notional, KeyOf, Entries, ValidMarket, Closed, Ledger.AveragePrice, Sum;
    ValidWhenCoherent(m, l);
    var pnl := Notional(a.fillPrice - l.AveragePrice(KeyOf(m, a.instrument)), a.quantity);
    ClosedFacts(m, l, after, a);
    SumSnoc(pnls, pnl);
    OneFewer(Holding(m, l), a.instrument);
  }

  /** What a sale of a whole position adds: one profit over the average price, and the record of its one lot. */
  lemma SoldContents(m: Market, s: Portfolio, bar: Bar, quantity: int, price: real, id: OrderId)
    requires ValidMarket(m) && Coherent(m, s.ledger) && s.ledger.Valid() && Listed(m, bar)
    requires bar.instrument in Holding(m, s.ledger)
    requires quantity == s.ledger.Held(KeyOf(m, bar.instrument)) && id !in s.ledger.orders.data
    requires bar.instrument in s.active && |s.active[bar.instrument]| == 1
    requires Sold(s, bar, quantity, price, id).Ok?
    ensures var after, lot := Sold(s, bar, quantity, price, id).value, s.active[bar.instrument][0];
            && Closed(m, s.ledger, after.ledger, SellArgs(id, bar.instrument, bar.exchange, quantity, price, bar.time))
            && after.ledger.Valid()
            && after == s.(ledger := after.ledger, pnls := after.pnls, active := after.active, records := after.records)
            && after.active == s.active - {bar.instrument}
            && after.pnls == s.pnls + [Notional(price - s.ledger.AveragePrice(KeyOf(m, bar.instrument)), quantity)]
            && after.records == s.records + [
                 TradeRecord(bar.instrument, bar.exchange, lot.time, bar.time, lot.price, price,
                             MinInt(quantity, lot.quantity), Notional(price - lot.price, lot.quantity), id.kind)]
  {
    hide PositionKey, Holding, OpenList, AfterSellSubmission, Closed, Notional, Ledger.Valid;
    LookupFindsHeld(m, s.ledger, bar.instrument);
    FullSale(m, s.ledger, SellArgs(id, bar.instrument, bar.exchange, quantity, price, bar.time));
  }

  lemma ClosedIsOneOrder(m: Market, l: Ledger, after: Ledger, a: SellArgs)
    requires a.instrument in m && l.Valid() && Closed(m, l, after, a)
    ensures OneOrder(l, after, a.id, KeyOf(m, a.instrument), 0 - a.quantity)
  {
    hide OneOrder, Holding, Worth, Coherent, Notional, Fee;
  }

  /** One whole position sold: its pnl, its record, and nothing else. */
  ghost predicate SaleMade(m: Market, c: Config, s: Portfolio, after: Portfolio, id: OrderId, instrument: string)
    requires instrument in m
  {
    && Booked(m, c, after)
    && OneOrder(s.ledger, after.ledger, id, KeyOf(m, instrument), 0 - s.ledger.Held(KeyOf(m, instrument)))
    && Holding(m, after.ledger) == Holding(m, s.ledger) - {instrument}
    && Entries(after.ledger) == Entries(s.ledger)
    && after == s.(ledger := after.ledger, pnls := after.pnls, active := after.active, records := after.records)
    && |after.pnls| == |s.pnls| + 1
  }

  lemma HeldHasOneLot(m: Market, c: Config, s: Portfolio, instrument: string)
    requires Booked(m, c, s) && instrument in Holding(m, s.ledger)
    ensures instrument in s.active && |s.active[instrument]| == 1
  {
    hide Worth, Holding, Entries;
  }

  lemma SaleKeepsBooks(m: Market, c: Config, s: Portfolio, bar: Bar, quantity: int, price: real, id: OrderId)
    requires Booked(m, c, s) && Listed(m, bar) && bar.instrument in Holding(m, s.ledger)
    requires quantity == s.ledger.Held(KeyOf(m, bar.instrument))
    requires id !in s.ledger.orders.data && !id.kind.KBuy?
    requires s.ledger.Valid() && Sold(s, bar, quantity, price, id).Ok?
    ensures SaleMade(m, c, s, Sold(s, bar, quantity, price, id).value, id, bar.instrument)
  {
    hide PositionKey, Worth, Holding, OneOrder, Notional, Entries, OpenList, Sold, Ledger.Valid, Closed, BooksAgree,
         Coherent, ValidMarket, Ledger.AveragePrice, Ledger.Held;
    BookedIsValid(m, c, s);
    HeldHasOneLot(m, c, s, bar.instrument);
    SoldContents(m, s, bar, quantity, price, id);
    var after, a := Sold(s, bar, quantity, price, id).value,
        SellArgs(id, bar.instrument, bar.exchange, quantity, price, bar.time);
    SaleKeepsAgreement(m, c, s.ledger, s.active, s.pnls, s.records, a, after.ledger, [LastOf(after.records)]);
    ClosedIsOneOrder(m, s.ledger, after.ledger, a);
    ClosedFacts(m, s.ledger, after.ledger, a);
  }

  // ----- Purchases

  /** The orders, the entries and the holdings after a purchase that may have been refused. */
  ghost predicate Purchased(m: Market, l: Ledger, after: Ledger, id: OrderId, instrument: string, filled: bool)
  {
    && l.orders.data.Keys <= after.orders.data.Keys <= l.orders.data.Keys + {id}
    && Holding(m, after) == (if filled then Holding(m, l) + {instrument} else Holding(m, l))
    && (filled ==> id !in l.orders.data)
    && Entries(after) == (if filled && id.kind.KBuy? then Entries(l) + {id} else Entries(l))
    && (forall x | x in Entries(l) :: FillTime(after, x) == FillTime(l, x))
    && (filled && id.kind.KBuy? ==> FillTime(after, id) == id.instant)
  }

  lemma PurchaseOutcome(m: Market, l: Ledger, after: Ledger, a: BuyArgs, outcome: Outcome)
    requires l.Valid() && a.instrument in m && Bought(m, l, after, a, outcome)
    requires a.id.instant == a.time.instant
    ensures Purchased(m, l, after, a.id, a.instrument, outcome.submitted)
  {
    hide PositionKey, Worth, Coherent, Holding, OneOrder;
    if after != l || outcome.submitted {
      var delta := if outcome.submitted then outcome.order.value.fills[0].quantity else 0;
      OneOrderMovesEntries(l, after, a.id, KeyOf(m, a.instrument), delta);
      if outcome.submitted {
        OneOrderIsNew(l, after, a.id, KeyOf(m, a.instrument), delta);
      }
    }
  }

  lemma OneOrderIsNew(l: Ledger, after: Ledger, id: OrderId, key: string, delta: int)
    requires OneOrder(l, after, id, key, delta)
    ensures id !in l.orders.data
  {}

  lemma BoughtFacts(m: Market, l: Ledger, after: Ledger, a: BuyArgs, outcome: Outcome)
    requires a.instrument in m && l.Valid() && Bought(m, l, after, a, outcome) && a.id.instant == a.time.instant
    ensures Coherent(m, after) && after.rate == l.rate && Worth(after) == Worth(l)
    ensures Holding(m, after) == if outcome.submitted then Holding(m, l) + {a.instrument} else Holding(m, l)
    ensures |Entries(after)| == |Entries(l)| + if outcome.submitted && a.id.kind.KBuy? then 1 else 0
  {
    hide Worth, Coherent, Holding, OneOrder, KeyOf, Entries;
    PurchaseOutcome(m, l, after, a, outcome);
    if outcome.submitted && a.id.kind.KBuy? {
      EntryIsNew(l, a.id);
    }
  }

  lemma OneMore(s: set<string>, x: string)
    ensures |s + {x}| == if x in s then |s| else |s| + 1
  {
    if x in s {
      assert s + {x} == s;
    }
  }

  lemma PurchaseKeepsAgreement(m: Market, c: Config, l: Ledger, active: map<string, seq<Lot>>, pnls: seq<real>,
                               records: seq<TradeRecord>, after: Ledger, a: BuyArgs, outcome: Outcome,
                                   later: map<string, seq<Lot>>)
    requires BooksAgree(m, c, l, active, pnls, records)
    requires a.instrument in m && Bought(m, l, after, a, outcome) && a.id.instant == a.time.instant
    requires a.id.kind.KBuy? ==> a.instrument !in Holding(m, l)
    requires !a.id.kind.KBuy? ==> a.instrument in Holding(m, l)
    requires if outcome.submitted && a.id.kind.KBuy?
             then later.Keys == active.Keys + {a.instrument} && forall i | i in later :: |later[i]| == 1
             else later == active
    ensures BooksAgree(m, c, after, later, pnls, records)
  {
    hide Worth, Coherent, Holding, KeyOf, Entries, ValidMarket, Bought, Sum;
    ValidWhenCoherent(m, l);
    BoughtFacts(m, l, after, a, outcome);
    OneMore(Holding(m, l), a.instrument);
    if !a.id.kind.KBuy? {
      assert Holding(m, l) + {a.instrument} == Holding(m, l);
    }
  }

  lemma EntryIsNew(l: Ledger, id: OrderId)
    requires id !in l.orders.data
    ensures id !in Entries(l)
  {}

  lemma OneFillAverages(order: Order)
    requires |order.fills| == 1 && order.fills[0].quantity > 0
    ensures AverageFillPrice(order).Some?
  {
    assert order.fills[..0] == [];
    assert FilledQuantity(order.fills) == order.fills[0].quantity;
  }

  /** An entry changes only the ledger, and the plan, the lot and the entry times if it opened a position. */
  ghost predicate EntryMade(m: Market, c: Config, s: Portfolio, after: Portfolio, e: MarketEvent, instrument: string) {
    && Booked(m, c, after)
    && after == s.(ledger := after.ledger, plans := after.plans, active := after.active,
        recentEntries := after.recentEntries)
    && var filled := instrument in Holding(m, after.ledger);
       && Purchased(m, s.ledger, after.ledger, OrderIdAt(instrument, e.time, KBuy), instrument, filled)
       && after.recentEntries == (if filled then s.recentEntries + [e.time.instant] else s.recentEntries)
       && after.plans.Keys == (if filled then s.plans.Keys + {instrument} else s.plans.Keys)
  }

  /** A filled order's entry: one plan, one lot, one entry time. */
  lemma EntryShape(c: Config, s: Portfolio, bar: Bar, candidate: Candidate, outcome: Outcome, after: Ledger,
                   e: MarketEvent)
    requires bar.instrument !in s.active && outcome.order.Some?
    requires |outcome.order.value.fills| == 1 && outcome.order.value.fills[0].quantity > 0
    ensures var made := WithEntry(c, s, bar, candidate, outcome, after, e);
            && made == s.(ledger := after, plans := made.plans, active := made.active,
                recentEntries := s.recentEntries + [e.time.instant])
            && made.plans.Keys == s.plans.Keys + {bar.instrument}
            && made.active.Keys == s.active.Keys + {bar.instrument}
            && |made.active[bar.instrument]| == 1
            && forall i | i in s.active :: made.active[i] == s.active[i]
  {
    hide AverageFillPrice;
    OneFillAverages(outcome.order.value);
  }

  lemma FilledOrderShape(m: Market, l: Ledger, after: Ledger, a: BuyArgs, outcome: Outcome)
    requires a.instrument in m && l.Valid() && Bought(m, l, after, a, outcome) && outcome.submitted
    ensures outcome.order.Some? && |outcome.order.value.fills| == 1 && outcome.order.value.fills[0].quantity > 0
  {
    hide Worth, OneOrder, Holding, Coherent;
  }

  lemma SubmissionMakesEntry(m: Market, c: Config, s: Portfolio, bar: Bar, candidate: Candidate, e: MarketEvent,
                             a: BuyArgs, after: Ledger, outcome: Outcome)
    requires Booked(m, c, s) && s.ledger.Valid() && Listed(m, bar) && bar.instrument !in Holding(m, s.ledger)
    requires a.instrument == bar.instrument && a.id == OrderIdAt(bar.instrument, e.time, KBuy) && a.time == e.time
    requires Bought(m, s.ledger, after, a, outcome)
    ensures EntryMade(m, c, s, if outcome.submitted then WithEntry(c, s, bar, candidate, outcome, after, e)
            else s.(ledger := after),
                      e, bar.instrument)
  {
    hide PositionKey, Worth, Holding, OneOrder, Notional, Entries, WithEntry, Purchased, Bought, Coherent, ValidMarket;
    PurchaseOutcome(m, s.ledger, after, a, outcome);
    EntryHeld(m, s.ledger, after, a.id, bar.instrument, outcome.submitted);
    if outcome.submitted {
      FilledOrderShape(m, s.ledger, after, a, outcome);
      EntryShape(c, s, bar, candidate, outcome, after, e);
      var made := WithEntry(c, s, bar, candidate, outcome, after, e);
      PurchaseKeepsAgreement(m, c, s.ledger, s.active, s.pnls, s.records, after, a, outcome, made.active);
      hide BooksAgree;
    } else {
      PurchaseKeepsAgreement(m, c, s.ledger, s.active, s.pnls, s.records, after, a, outcome, s.active);
      hide BooksAgree;
    }
  }

  lemma EntryKeepsBooks(m: Market, c: Config, limits: RiskLimits, s: Portfolio, bar: Bar, candidate: Candidate,
                        e: MarketEvent)
    requires Booked(m, c, s) && Listed(m, bar) && bar.instrument !in Holding(m, s.ledger)
    requires OrderIdAt(bar.instrument, e.time, KBuy) !in s.ledger.orders.data
    requires s.ledger.Valid() && Entered(c, limits, s, bar, candidate, e).Ok?
    ensures EntryMade(m, c, s, Entered(c, limits, s, bar, candidate, e).value, e, bar.instrument)
  {
    hide PositionKey, Worth, Holding, OneOrder, Notional, Entries, OpenList, AfterBuySubmission, WithEntry, Bought,
         EntryMade;
    BookedIsValid(m, c, s);
    var a := EntryArgs(c, s, bar, candidate, e);
    var (after, outcome) := AfterBuySubmission(limits, s.ledger, s.risk, a).value;
    GatedPurchase(m, limits, s.ledger, s.risk, a);
    SubmissionMakesEntry(m, c, s, bar, candidate, e, a, after, outcome);
  }

  lemma EntryHeld(m: Market, l: Ledger, after: Ledger, id: OrderId, instrument: string, filled: bool)
    requires Purchased(m, l, after, id, instrument, filled) && instrument !in Holding(m, l)
    ensures filled <==> instrument in Holding(m, after)
  {
    hide Holding, Entries;
  }

  ghost predicate PyramidMade(m: Market, c: Config, s: Portfolio, after: Portfolio, e: MarketEvent, instrument: string,
                              filled: bool) {
    && Booked(m, c, after)
    && after == s.(ledger := after.ledger, plans := after.plans)
    && Purchased(m, s.ledger, after.ledger, OrderIdAt(instrument, e.time, KPyramid), instrument, filled)
    && after.plans.Keys == s.plans.Keys
  }

  lemma PyramidKeepsBooks(m: Market, c: Config, limits: RiskLimits, s: Portfolio, bar: Bar, position: Position,
                          e: MarketEvent)
    requires Booked(m, c, s) && Listed(m, bar) && bar.instrument in Holding(m, s.ledger)
    requires OrderIdAt(bar.instrument, e.time, KPyramid) !in s.ledger.orders.data
    requires s.ledger.Valid() && Pyramided(c, limits, s, bar, position, e).Ok?
    ensures exists filled :: PyramidMade(m, c, s, Pyramided(c, limits, s, bar, position, e).value, e, bar.instrument,
            filled)
  {
    hide PositionKey, Worth, Holding, OneOrder, Notional, Entries, OpenList, AfterBuySubmission;
    BookedIsValid(m, c, s);
    var made := Pyramided(c, limits, s, bar, position, e).value;
    if bar.instrument in s.plans {
      var a := PyramidArgs(c, s, bar, position, s.plans[bar.instrument], e);
      var (after, outcome) := AfterBuySubmission(limits, s.ledger, s.risk, a).value;
      GatedPurchase(m, limits, s.ledger, s.risk, a);
      PurchaseOutcome(m, s.ledger, after, a, outcome);
      hide Purchased, Coherent, ValidMarket;
      PurchaseKeepsAgreement(m, c, s.ledger, s.active, s.pnls, s.records, after, a, outcome, s.active);
      assert made.plans.Keys == s.plans.Keys;
      assert PyramidMade(m, c, s, made, e, bar.instrument, outcome.submitted);
    } else {
      assert PyramidMade(m, c, s, made, e, bar.instrument, false);
    }
  }
}
