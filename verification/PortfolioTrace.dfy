/** Every trade record and profit traced to the orders behind it: its entry, its additions and its sale. */
module PortfolioTracing {
  import opened Prelude
  import opened OrderedDict
  import opened Models
  import opened Risk
  import opened PaperBroking
  import opened LedgerLaws
  import opened LedgerEffects
  import opened PortfolioLoop
  import opened PortfolioBooks
  import opened PortfolioSteps
  import opened PortfolioPhases
  import opened PortfolioLaws
  import opened PortfolioTrades
  import O = OrderManaging

  // ----- Additions on the book

  /** A filled pyramid order of an instrument, placed within a stretch of time. */
  predicate IsAddition(o: Order, instrument: string, from: int, to: int) {
    && o.request.id.kind.KPyramid? && o.request.id.instrument == instrument && o.status.FILLED?
    && from <= o.request.id.instant <= to
  }

  function SharesOf(instrument: string, from: int, to: int): Order -> real {
    o => if IsAddition(o, instrument, from, to) then FilledQuantity(o.fills) as real else 0.0
  }

  function MoneyOf(instrument: string, from: int, to: int): Order -> real {
    o => if IsAddition(o, instrument, from, to) then FillValue(o.fills) else 0.0
  }

  function OneFor(instrument: string, from: int, to: int): Order -> real {
    o => if IsAddition(o, instrument, from, to) then 1.0 else 0.0
  }

  ghost function AddedShares(l: Ledger, instrument: string, from: int, to: int): real
    requires l.orders.Valid()
  {
    Total(l.orders, SharesOf(instrument, from, to))
  }

  ghost function AddedCost(l: Ledger, instrument: string, from: int, to: int): real
    requires l.orders.Valid()
  {
    Total(l.orders, MoneyOf(instrument, from, to))
  }

  ghost function Additions(l: Ledger, instrument: string, from: int, to: int): real
    requires l.orders.Valid()
  {
    Total(l.orders, OneFor(instrument, from, to))
  }

  /** Any new order that is not an addition of the stretch leaves its sums alone. */
  ghost predicate SameAdditions(l: Ledger, after: Ledger, instrument: string, from: int, to: int)
    requires l.orders.Valid() && after.orders.Valid()
  {
    && AddedShares(after, instrument, from, to) == AddedShares(l, instrument, from, to)
    && AddedCost(after, instrument, from, to) == AddedCost(l, instrument, from, to)
    && Additions(after, instrument, from, to) == Additions(l, instrument, from, to)
  }

  lemma OtherOrderAddsNothing(l: Ledger, after: Ledger, id: OrderId, key: string, delta: int, instrument: string,
                              from: int, to: int)
    requires l.Valid() && after.Valid() && OneOrder(l, after, id, key, delta)
    requires !IsAddition(after.orders.data[id], instrument, from, to)
    ensures SameAdditions(l, after, instrument, from, to)
  {
    hide IsAddition, SumOf;
    var o := after.orders.data[id];
    TotalPut(l.orders, id, o, SharesOf(instrument, from, to));
    TotalPut(l.orders, id, o, MoneyOf(instrument, from, to));
    TotalPut(l.orders, id, o, OneFor(instrument, from, to));
  }

  /** A filled addition adds its shares, its money and itself. */
  lemma AdditionAdds(l: Ledger, after: Ledger, id: OrderId, key: string, delta: int, instrument: string, from: int,
                     to: int)
    requires l.Valid() && after.Valid() && OneOrder(l, after, id, key, delta)
    requires var o := after.orders.data[id]; IsAddition(o, instrument, from, to) && |o.fills| == 1
    ensures var fill := after.orders.data[id].fills[0];
            && AddedShares(after, instrument, from, to) == AddedShares(l, instrument, from, to) + fill.quantity as real
            && AddedCost(after, instrument, from, to) == AddedCost(l, instrument, from, to)
                + Notional(fill.price, fill.quantity)
            && Additions(after, instrument, from, to) == Additions(l, instrument, from, to) + 1.0
  {
    hide IsAddition, SumOf, Notional;
    var o := after.orders.data[id];
    OneFillSums(o.fills);
    TotalPut(l.orders, id, o, SharesOf(instrument, from, to));
    TotalPut(l.orders, id, o, MoneyOf(instrument, from, to));
    TotalPut(l.orders, id, o, OneFor(instrument, from, to));
  }

  lemma OneFillSums(fills: seq<Fill>)
    requires |fills| == 1
    ensures FilledQuantity(fills) == fills[0].quantity && FillValue(fills)
            == Notional(fills[0].price, fills[0].quantity)
  {
    hide Notional;
    assert fills[..0] == [];
    assert FilledQuantity(fills[..0]) == 0 && FillValue(fills[..0]) == 0.0;
  }

  lemma {:induction false} SumsAgree(keys: seq<OrderId>, data: map<OrderId, Order>, w: Order -> real, v: Order -> real)
    requires forall k | k in keys :: k in data && w(data[k]) == v(data[k])
    ensures SumOf(keys, data, w) == SumOf(keys, data, v)
  {
    if |keys| > 0 {
      SumsAgree(keys[..|keys| - 1], data, w, v);
    }
  }

  /** A stretch that ends later counts no more while no order is later. */
  lemma LaterAddsNothing(l: Ledger, instrument: string, from: int, now: int, later: int)
    requires l.Valid() && now <= later && forall id | id in l.orders.data :: id.instant <= now
    ensures AddedShares(l, instrument, from, later) == AddedShares(l, instrument, from, now)
    ensures AddedCost(l, instrument, from, later) == AddedCost(l, instrument, from, now)
    ensures Additions(l, instrument, from, later) == Additions(l, instrument, from, now)
  {
    forall k | k in l.orders.keys
      ensures IsAddition(l.orders.data[k], instrument, from, later)
              == IsAddition(l.orders.data[k], instrument, from, now) {
      assert l.orders.data[k].request.id == k;
    }
    hide IsAddition;
    SumsAgree(l.orders.keys, l.orders.data, SharesOf(instrument, from, later), SharesOf(instrument, from, now));
    SumsAgree(l.orders.keys, l.orders.data, MoneyOf(instrument, from, later), MoneyOf(instrument, from, now));
    SumsAgree(l.orders.keys, l.orders.data, OneFor(instrument, from, later), OneFor(instrument, from, now));
  }

  lemma {:induction false} SumsToNothing(keys: seq<OrderId>, data: map<OrderId, Order>, w: Order -> real)
    requires forall k | k in keys :: k in data && w(data[k]) == 0.0
    ensures SumOf(keys, data, w) == 0.0
  {
    if |keys| > 0 {
      SumsToNothing(keys[..|keys| - 1], data, w);
    }
  }

  lemma NothingAdded(l: Ledger, instrument: string, from: int, to: int)
    requires l.Valid()
    requires forall id | id in l.orders.data ::
               !(id.kind.KPyramid? && id.instrument == instrument && from <= id.instant <= to)
    ensures AddedShares(l, instrument, from, to) == 0.0
    ensures AddedCost(l, instrument, from, to) == 0.0
    ensures Additions(l, instrument, from, to) == 0.0
  {
    forall k | k in l.orders.keys ensures !IsAddition(l.orders.data[k], instrument, from, to) {
      assert l.orders.data[k].request.id == k;
    }
    hide IsAddition;
    SumsToNothing(l.orders.keys, l.orders.data, SharesOf(instrument, from, to));
    SumsToNothing(l.orders.keys, l.orders.data, MoneyOf(instrument, from, to));
    SumsToNothing(l.orders.keys, l.orders.data, OneFor(instrument, from, to));
  }

  // ----- What a lot and a record come from

  function EntryId(instrument: string, time: Timestamp): OrderId { OrderId(instrument, time.instant, KBuy) }

  /** One filled order, at a price and for some shares. */
  predicate FilledAt(l: Ledger, id: OrderId, price: real, quantity: int) {
    && id in l.orders.data && l.orders.data[id].status.FILLED?
    && |l.orders.data[id].fills| == 1
    && l.orders.data[id].fills[0].price == price && l.orders.data[id].fills[0].quantity == quantity
  }

  /**
   * An open position's lot is its filled entry; what is held, what it cost and how often it was added to are that lot
   * and the filled pyramid orders since.
   */
  ghost predicate LotTraced(l: Ledger, instrument: string, key: string, lots: seq<Lot>, plan: Plan, now: int)
    requires l.orders.Valid()
  {
    && |lots| == 1
    && var lot := lots[0];
       && lot.time.instant <= now
       && FilledAt(l, EntryId(instrument, lot.time), lot.price, lot.quantity)
       && 0 < lot.quantity <= l.Held(key)
       && l.Held(key) as real == lot.quantity as real + AddedShares(l, instrument, lot.time.instant, now)
       && CostAt(l, key) == Notional(lot.price, lot.quantity) + AddedCost(l, instrument, lot.time.instant, now)
       && plan.additions as real == Additions(l, instrument, lot.time.instant, now)
  }

  /** What the additions of a stretch gained when everything was sold at a price. */
  ghost function AdditionsGain(l: Ledger, instrument: string, from: int, to: int, price: real): real
    requires l.orders.Valid()
  {
    price * AddedShares(l, instrument, from, to) - AddedCost(l, instrument, from, to)
  }

  /**
   * A record and its profit come from one filled sale: the record names the entry's lot and the sale's price, the sale
   * is of that lot and everything added to it since, and the profit is the record's plus what the additions gained.
   */
  ghost predicate RecordTraced(l: Ledger, r: TradeRecord, pnl: real, sale: OrderId)
    requires l.orders.Valid()
  {
    && sale.instrument == r.instrument && sale.kind == r.reason && !sale.kind.KBuy? && !sale.kind.KPyramid?
    && r.entryTime.instant <= sale.instant
    && FilledAt(l, EntryId(r.instrument, r.entryTime), r.entryPrice, r.quantity)
    && sale in l.orders.data && l.orders.data[sale].request.side.SELL?
    && l.orders.data[sale].status.FILLED? && |l.orders.data[sale].fills| == 1
    && l.orders.data[sale].fills[0].price == r.exitPrice
    && l.orders.data[sale].fills[0].quantity as real
       == r.quantity as real + AddedShares(l, r.instrument, r.entryTime.instant, sale.instant)
    && r.pnl == Notional(r.exitPrice - r.entryPrice, r.quantity)
    && pnl == r.pnl + AdditionsGain(l, r.instrument, r.entryTime.instant, sale.instant, r.exitPrice)
  }

  lemma OtherOrdersStay(l: Ledger, after: Ledger, id: OrderId, key: string, delta: int, other: OrderId)
    requires OneOrder(l, after, id, key, delta) && other in l.orders.data
    ensures other != id && other in after.orders.data && after.orders.data[other] == l.orders.data[other]
  {}

  lemma OtherKeyStays(l: Ledger, after: Ledger, id: OrderId, key: string, delta: int, other: string)
    requires OneOrder(l, after, id, key, delta) && other != key
    ensures after.Held(other) == l.Held(other) && CostAt(after, other) == CostAt(l, other)
  {
    hide Notional;
  }

  /** An order that does not move its position and is no addition to it leaves a lot as it was. */
  lemma LotStays(l: Ledger, after: Ledger, id: OrderId, ordered: string, delta: int, instrument: string, key: string,
                 lots: seq<Lot>, plan: Plan, now: int)
    requires l.Valid() && after.Valid() && OneOrder(l, after, id, ordered, delta)
    requires after.Held(key) == l.Held(key) && CostAt(after, key) == CostAt(l, key)
    requires LotTraced(l, instrument, key, lots, plan, now)
    requires !IsAddition(after.orders.data[id], instrument, lots[0].time.instant, now)
    ensures LotTraced(after, instrument, key, lots, plan, now)
  {
    hide Ledger.Valid, OneOrder, AddedShares, AddedCost, Additions, CostAt, Notional, IsAddition, Ledger.Held;
    OrdersAreValid(l);
    OrdersAreValid(after);
    OtherOrdersStay(l, after, id, ordered, delta, EntryId(instrument, lots[0].time));
    NewIsNamed(l, after, id, ordered, delta);
    OtherOrderAddsNothing(l, after, id, ordered, delta, instrument, lots[0].time.instant, now);
  }

  lemma OrdersAreValid(l: Ledger)
    requires l.Valid()
    ensures l.orders.Valid()
  {}

  lemma NewIsNamed(l: Ledger, after: Ledger, id: OrderId, key: string, delta: int)
    requires after.Valid() && OneOrder(l, after, id, key, delta)
    ensures id in after.orders.data && after.orders.data[id].request.id == id && id !in l.orders.data
  {}

  /** A later order leaves a record as it was. */
  lemma RecordStays(l: Ledger, after: Ledger, id: OrderId, ordered: string, delta: int, r: TradeRecord, pnl: real,
                    sale: OrderId)
    requires l.Valid() && after.Valid() && OneOrder(l, after, id, ordered, delta)
    requires RecordTraced(l, r, pnl, sale)
    requires !IsAddition(after.orders.data[id], r.instrument, r.entryTime.instant, sale.instant)
    ensures RecordTraced(after, r, pnl, sale)
  {
    hide Ledger.Valid, OneOrder, AddedShares, AddedCost, Additions, Notional, IsAddition;
    OrdersAreValid(l);
    OrdersAreValid(after);
    OtherOrdersStay(l, after, id, ordered, delta, EntryId(r.instrument, r.entryTime));
    OtherOrdersStay(l, after, id, ordered, delta, sale);
    NewIsNamed(l, after, id, ordered, delta);
    OtherOrderAddsNothing(l, after, id, ordered, delta, r.instrument, r.entryTime.instant, sale.instant);
  }

  // ----- The books traced

  ghost predicate LotsTraced(m: Market, l: Ledger, active: map<string, seq<Lot>>, plans: map<string, Plan>, now: int)
    requires l.orders.Valid()
  {
    forall i | i in active :: i in m && i in plans && LotTraced(l, i, KeyOf(m, i), active[i], plans[i], now)
  }

  ghost predicate RecordsTraced(l: Ledger, records: seq<TradeRecord>, pnls: seq<real>, sales: seq<OrderId>)
    requires l.orders.Valid()
  {
    && |records| == |pnls| == |sales|
    && forall k | 0 <= k < |records| :: RecordTraced(l, records[k], pnls[k], sales[k])
  }

  /** Trades of one instrument follow each other: each is sold before the next is entered. */
  ghost predicate Apart(records: seq<TradeRecord>, sales: seq<OrderId>)
    requires |records| == |sales|
  {
    forall j, k | 0 <= j < k < |records| && records[j].instrument == records[k].instrument ::
      sales[j].instant < records[k].entryTime.instant
  }

  ghost predicate SoldBefore(records: seq<TradeRecord>, sales: seq<OrderId>, instrument: string, since: int)
    requires |records| == |sales|
  {
    forall k | 0 <= k < |records| && records[k].instrument == instrument :: sales[k].instant < since
  }

  ghost predicate Traced(m: Market, s: Portfolio, sales: seq<OrderId>, now: int) {
    && s.ledger.Valid()
    && LotsTraced(m, s.ledger, s.active, s.plans, now)
    && RecordsTraced(s.ledger, s.records, s.pnls, sales)
    && Apart(s.records, sales)
    && forall i | i in s.active :: SoldBefore(s.records, sales, i, s.active[i][0].time.instant)
  }

  lemma LaterStaysTraced(m: Market, s: Portfolio, sales: seq<OrderId>, now: int, later: int)
    requires Traced(m, s, sales, now) && now <= later && forall id | id in Ids(s) :: id.instant <= now
    ensures Traced(m, s, sales, later)
  {
    hide AddedShares, AddedCost, Additions, Notional, CostAt, RecordTraced, Apart, SoldBefore;
    forall i | i in s.active ensures LotTraced(s.ledger, i, KeyOf(m, i), s.active[i], s.plans[i], later) {
      assert LotTraced(s.ledger, i, KeyOf(m, i), s.active[i], s.plans[i], now);
      LaterAddsNothing(s.ledger, i, s.active[i][0].time.instant, now, later);
    }
  }

  // ----- A sale

  /** The record and the profit of a closed position. */
  lemma ClosedIsTraced(m: Market, l: Ledger, after: Ledger, a: O.SellArgs, lots: seq<Lot>, plan: Plan, r: TradeRecord)
    requires l.Valid() && a.instrument in m && Closed(m, l, after, a) && a.quantity == l.Held(KeyOf(m, a.instrument))
    requires a.id.instrument == a.instrument && !a.id.kind.KBuy? && !a.id.kind.KPyramid?
    requires LotTraced(l, a.instrument, KeyOf(m, a.instrument), lots, plan, a.id.instant)
    requires r.instrument == a.instrument && r.reason == a.id.kind && r.entryTime == lots[0].time
    requires r.entryPrice == lots[0].price && r.exitPrice == a.fillPrice
             && r.quantity == MinInt(a.quantity, lots[0].quantity)
    requires r.pnl == Notional(a.fillPrice - lots[0].price, lots[0].quantity)
    ensures after.Valid()
    ensures RecordTraced(after, r, Notional(a.fillPrice - l.AveragePrice(KeyOf(m, a.instrument)), a.quantity), a.id)
  {
    hide Ledger.Valid, OneOrder, Notional, Holding, Worth, AddedShares, AddedCost, Additions, Coherent, Fee;
    var key, lot, now := KeyOf(m, a.instrument), lots[0], a.id.instant;
    ValidWhenCoherent(m, after);
    OrdersAreValid(l);
    OrdersAreValid(after);
    NewIsNamed(l, after, a.id, key, 0 - a.quantity);
    OtherOrdersStay(l, after, a.id, key, 0 - a.quantity, EntryId(a.instrument, lot.time));
    OtherOrderAddsNothing(l, after, a.id, key, 0 - a.quantity, a.instrument, lot.time.instant, now);
    SaleProfit(a.fillPrice, l.AveragePrice(key), a.quantity, lot.price, lot.quantity,
               AddedShares(l, a.instrument, lot.time.instant, now), AddedCost(l, a.instrument, lot.time.instant, now));
  }

  /** Profit over average cost is profit over the lot's price plus the gain of the additions. */
  lemma SaleProfit(exit: real, average: real, held: int, entry: real, lot: int, shares: real, cost: real)
    requires held as real == lot as real + shares
    requires Notional(average, held) == Notional(entry, lot) + cost
    ensures Notional(exit - average, held) == Notional(exit - entry, lot) + (exit * shares - cost)
  {
    NotionalDifference(exit, average, held);
    NotionalDifference(exit, entry, lot);
    assert exit * (lot as real + shares) == exit * lot as real + exit * shares;
  }

  /** A closed trade joins the records, later than every earlier one of its instrument. */
  lemma RecordJoins(records: seq<TradeRecord>, sales: seq<OrderId>, r: TradeRecord, sale: OrderId)
    requires |records| == |sales| && Apart(records, sales)
    requires SoldBefore(records, sales, r.instrument, r.entryTime.instant)
    ensures Apart(records + [r], sales + [sale])
  {}

  lemma OthersStaySoldBefore(records: seq<TradeRecord>, sales: seq<OrderId>, r: TradeRecord, sale: OrderId,
                             instrument: string, since: int)
    requires |records| == |sales| && SoldBefore(records, sales, instrument, since) && instrument != r.instrument
    ensures SoldBefore(records + [r], sales + [sale], instrument, since)
  {}

  /** A sale keeps everything traced. */
  lemma SaleStaysTraced(m: Market, c: Config, s: Portfolio, sales: seq<OrderId>, bar: Bar, quantity: int, price: real,
                        id: OrderId)
    requires Booked(m, c, s) && Traced(m, s, sales, id.instant) && Listed(m, bar)
             && bar.instrument in Holding(m, s.ledger)
    requires quantity == s.ledger.Held(KeyOf(m, bar.instrument))
    requires id !in Ids(s) && id.instrument == bar.instrument && !id.kind.KBuy? && !id.kind.KPyramid?
    requires Sold(s, bar, quantity, price, id).Ok?
    ensures Traced(m, Sold(s, bar, quantity, price, id).value, sales + [id], id.instant)
  {
    hide PositionKey, Holding, Sold, Closed, Notional, Ledger.Valid, OneOrder, LotTraced, RecordTraced, Apart,
         SoldBefore, BooksAgree;
    BookedIsValid(m, c, s);
    ActiveIsHeld(m, c, s);
    OrdersAreValid(s.ledger);
    LotHasOne(s.ledger, bar.instrument, KeyOf(m, bar.instrument), s.active[bar.instrument], s.plans[bar.instrument],
        id.instant);
    SoldContents(m, s, bar, quantity, price, id);
    var after := Sold(s, bar, quantity, price, id).value;
    var a := O.SellArgs(id, bar.instrument, bar.exchange, quantity, price, bar.time);
    ClosedIsOneOrder(m, s.ledger, after.ledger, a);
    OrdersAreValid(after.ledger);
    NewIsNamed(s.ledger, after.ledger, id, KeyOf(m, bar.instrument), 0 - quantity);
    forall i | i in after.active
      ensures LotTraced(after.ledger, i, KeyOf(m, i), after.active[i], after.plans[i], id.instant)
      ensures |after.active[i]| == 1 && SoldBefore(after.records, sales + [id], i, after.active[i][0].time.instant)
    {
      KeysDiffer(m, i, bar.instrument);
      LotHasOne(s.ledger, i, KeyOf(m, i), s.active[i], s.plans[i], id.instant);
      OtherKeyStays(s.ledger, after.ledger, id, KeyOf(m, bar.instrument), 0 - quantity, KeyOf(m, i));
      LotStays(s.ledger, after.ledger, id, KeyOf(m, bar.instrument), 0 - quantity, i, KeyOf(m, i), s.active[i],
          s.plans[i], id.instant);
      OthersStaySoldBefore(s.records, sales, LastOf(after.records), id, i, s.active[i][0].time.instant);
    }
    forall k | 0 <= k < |s.records| ensures RecordTraced(after.ledger, s.records[k], s.pnls[k], sales[k]) {
      RecordStays(s.ledger, after.ledger, id, KeyOf(m, bar.instrument), 0 - quantity, s.records[k], s.pnls[k],
          sales[k]);
    }
    ClosedIsTraced(m, s.ledger, after.ledger, a, s.active[bar.instrument], s.plans[bar.instrument],
        LastOf(after.records));
    RecordJoins(s.records, sales, LastOf(after.records), id);
  }

  lemma ActiveIsHeld(m: Market, c: Config, s: Portfolio)
    requires Booked(m, c, s)
    ensures s.active.Keys == Holding(m, s.ledger)
  {
    hide Holding, Entries, Worth;
  }

  lemma KeysDiffer(m: Market, i: string, j: string)
    requires ValidMarket(m) && i in m && j in m && i != j
    ensures KeyOf(m, i) != KeyOf(m, j)
  {}

  lemma LotHasOne(l: Ledger, instrument: string, key: string, lots: seq<Lot>, plan: Plan, now: int)
    requires l.orders.Valid() && LotTraced(l, instrument, key, lots, plan, now)
    ensures |lots| == 1 && lots[0].time.instant <= now
  {
    hide AddedShares, AddedCost, Additions, CostAt;
  }

  // ----- Purchases

  /** What a purchase for one instrument leaves of the others, and of the records. */
  lemma OthersStayTraced(m: Market, s: Portfolio, after: Ledger, sales: seq<OrderId>, id: OrderId, instrument: string,
                         delta: int, now: int)
    requires ValidMarket(m) && Traced(m, s, sales, now) && after.Valid() && instrument in m
    requires OneOrder(s.ledger, after, id, KeyOf(m, instrument), delta) && id.instrument == instrument
             && id.instant == now
    requires SoldBefore(s.records, sales, instrument, now)
    ensures RecordsTraced(after, s.records, s.pnls, sales)
    ensures forall i | i in s.active && i != instrument ::
              i in m && LotTraced(after, i, KeyOf(m, i), s.active[i], s.plans[i], now)
  {
    hide PositionKey, Notional, Ledger.Valid, OneOrder, LotTraced, RecordTraced, ValidMarket;
    OrdersAreValid(s.ledger);
    OrdersAreValid(after);
    NewIsNamed(s.ledger, after, id, KeyOf(m, instrument), delta);
    forall i | i in s.active && i != instrument
      ensures i in m && LotTraced(after, i, KeyOf(m, i), s.active[i], s.plans[i], now) {
      KeysDiffer(m, i, instrument);
      LotHasOne(s.ledger, i, KeyOf(m, i), s.active[i], s.plans[i], now);
      OtherKeyStays(s.ledger, after, id, KeyOf(m, instrument), delta, KeyOf(m, i));
      LotStays(s.ledger, after, id, KeyOf(m, instrument), delta, i, KeyOf(m, i), s.active[i], s.plans[i], now);
    }
    forall k | 0 <= k < |s.records| ensures RecordTraced(after, s.records[k], s.pnls[k], sales[k]) {
      RecordStays(s.ledger, after, id, KeyOf(m, instrument), delta, s.records[k], s.pnls[k], sales[k]);
    }
  }

  /** The lot of a position just opened. */
  lemma NewLotIsTraced(l: Ledger, after: Ledger, id: OrderId, key: string, fill: Fill, instrument: string,
                       time: Timestamp, plan: Plan)
    requires l.Valid() && after.Valid() && OneOrder(l, after, id, key, fill.quantity) && l.Held(key) == 0
    requires id == EntryId(instrument, time) && plan.additions == 0 && fill.quantity > 0
    requires CostAt(after, key) == CostAt(l, key) + Notional(fill.price, fill.quantity)
    requires after.orders.data[id].status.FILLED? && after.orders.data[id].fills == [fill]
    requires forall other | other in l.orders.data ::
               !(other.kind.KPyramid? && other.instrument == instrument && other.instant == time.instant)
    ensures after.orders.Valid() && LotTraced(after, instrument, key, [Lot(time, fill.price, fill.quantity)], plan,
            time.instant)
  {
    hide Notional, Ledger.Valid, AddedShares, AddedCost, Additions;
    NoSharesCostNothing(l, key);
    OrdersAreValid(after);
    NothingAdded(after, instrument, time.instant, time.instant);
  }

  /** A filled addition, counted in the plan. */
  lemma AddedLotIsTraced(l: Ledger, after: Ledger, id: OrderId, key: string, fill: Fill, instrument: string,
                         lots: seq<Lot>, plan: Plan)
    requires l.Valid() && after.Valid() && OneOrder(l, after, id, key, fill.quantity) && fill.quantity > 0
    requires id.kind.KPyramid? && id.instrument == instrument
    requires LotTraced(l, instrument, key, lots, plan, id.instant)
    requires CostAt(after, key) == CostAt(l, key) + Notional(fill.price, fill.quantity)
    requires after.orders.data[id].status.FILLED? && after.orders.data[id].fills == [fill]
    ensures after.orders.Valid() && LotTraced(after, instrument, key, lots, plan.(additions := plan.additions + 1),
            id.instant)
  {
    hide Notional, Ledger.Valid, AddedShares, AddedCost, Additions, CostAt;
    OrdersAreValid(l);
    OrdersAreValid(after);
    NewIsNamed(l, after, id, key, fill.quantity);
    OtherOrdersStay(l, after, id, key, fill.quantity, EntryId(instrument, lots[0].time));
    AdditionAdds(l, after, id, key, fill.quantity, instrument, lots[0].time.instant, id.instant);
    HeldMoves(l, after, id, key, fill.quantity);
  }

  lemma HeldMoves(l: Ledger, after: Ledger, id: OrderId, key: string, delta: int)
    requires OneOrder(l, after, id, key, delta)
    ensures after.Held(key) == l.Held(key) + delta
  {}

  /** What Bought says of a filled purchase. */
  lemma BoughtFill(m: Market, l: Ledger, after: Ledger, a: O.BuyArgs, outcome: O.Outcome)
    requires a.instrument in m && l.Valid() && Bought(m, l, after, a, outcome) && outcome.submitted
    ensures after.Valid() && a.id in after.orders.data && outcome.order == Some(after.orders.data[a.id])
    ensures var order := after.orders.data[a.id];
            && order.status.FILLED? && |order.fills| == 1 && order.fills[0].quantity > 0
                && order.fills[0].price == a.fillPrice
            && OneOrder(l, after, a.id, KeyOf(m, a.instrument), order.fills[0].quantity)
            && CostAt(after, KeyOf(m, a.instrument)) == CostAt(l, KeyOf(m, a.instrument))
                + Notional(a.fillPrice, order.fills[0].quantity)
  {
    hide OneOrder, Holding, LedgerLaws.Worth, CostAt, Notional, Ledger.Valid, KeyOf;
    ValidWhenCoherent(m, after);
  }

  lemma NotBought(m: Market, l: Ledger, after: Ledger, a: O.BuyArgs, outcome: O.Outcome)
    requires a.instrument in m && l.Valid() && Bought(m, l, after, a, outcome) && !outcome.submitted
    ensures after.Valid() && after.positions == l.positions
    ensures after == l || (OneOrder(l, after, a.id, KeyOf(m, a.instrument), 0) && a.id in after.orders.data
            && !after.orders.data[a.id].status.FILLED?)
  {
    hide Holding, LedgerLaws.Worth, CostAt, Notional, Ledger.Valid, KeyOf, PositionKey;
    ValidWhenCoherent(m, after);
  }

  /** A refused purchase keeps everything traced. */
  lemma RefusalStaysTraced(m: Market, s: Portfolio, after: Ledger, sales: seq<OrderId>, a: O.BuyArgs,
                           outcome: O.Outcome, now: int)
    requires ValidMarket(m) && Traced(m, s, sales, now) && a.instrument in m
    requires Bought(m, s.ledger, after, a, outcome) && !outcome.submitted
    requires a.id.instrument == a.instrument && a.id.instant == now && SoldBefore(s.records, sales, a.instrument, now)
    ensures Traced(m, s.(ledger := after), sales, now)
  {
    hide PositionKey, Notional, Ledger.Valid, OneOrder, LotTraced, RecordTraced, ValidMarket, Bought, IsAddition,
         Apart, SoldBefore;
    NotBought(m, s.ledger, after, a, outcome);
    if after != s.ledger {
      OthersStayTraced(m, s, after, sales, a.id, a.instrument, 0, now);
      OrdersAreValid(s.ledger);
      OrdersAreValid(after);
      if a.instrument in s.active {
        var lots, plan := s.active[a.instrument], s.plans[a.instrument];
        LotHasOne(s.ledger, a.instrument, KeyOf(m, a.instrument), lots, plan, now);
        SamePositionsSameCost(s.ledger, after, KeyOf(m, a.instrument));
        UnfilledIsNoAddition(after.orders.data[a.id], a.instrument, lots[0].time.instant, now);
        LotStays(s.ledger, after, a.id, KeyOf(m, a.instrument), 0, a.instrument, KeyOf(m, a.instrument), lots, plan,
            now);
      }
      forall i | i in s.active ensures LotTraced(after, i, KeyOf(m, i), s.active[i], s.plans[i], now) {}
    }
  }

  lemma SamePositionsSameCost(l: Ledger, after: Ledger, key: string)
    requires after.positions == l.positions
    ensures after.Held(key) == l.Held(key) && CostAt(after, key) == CostAt(l, key)
  {
    hide Notional;
  }

  lemma UnfilledIsNoAddition(o: Order, instrument: string, from: int, to: int)
    requires !o.status.FILLED?
    ensures !IsAddition(o, instrument, from, to)
  {}

  /** A filled entry keeps everything traced. */
  lemma FilledEntryStaysTraced(m: Market, c: Config, s: Portfolio, sales: seq<OrderId>, bar: Bar, candidate: Candidate,
                               e: MarketEvent,
                               a: O.BuyArgs, after: Ledger, outcome: O.Outcome)
    requires ValidMarket(m) && Traced(m, s, sales, e.time.instant) && bar.instrument in m && bar.instrument !in s.active
    requires s.ledger.Held(KeyOf(m, bar.instrument)) == 0
    requires a.instrument == bar.instrument && a.id == OrderIdAt(bar.instrument, e.time, KBuy)
    requires Bought(m, s.ledger, after, a, outcome) && outcome.submitted
    requires SoldBefore(s.records, sales, bar.instrument, e.time.instant)
    requires forall id | id in Ids(s) ::
               !(id.kind.KPyramid? && id.instrument == bar.instrument && id.instant == e.time.instant)
    ensures Traced(m, WithEntry(c, s, bar, candidate, outcome, after, e), sales, e.time.instant)
  {
    hide PositionKey, Notional, Ledger.Valid, OneOrder, LotTraced, RecordTraced, ValidMarket, Bought, Apart,
         SoldBefore, WithEntry, CostAt;
    BoughtFill(m, s.ledger, after, a, outcome);
    var fill, key := outcome.order.value.fills[0], KeyOf(m, bar.instrument);
    assert outcome.order.value.fills == [fill];
    EntryContents(c, s, bar, candidate, outcome, after, e);
    var made := WithEntry(c, s, bar, candidate, outcome, after, e);
    NewLotIsTraced(s.ledger, after, a.id, key, fill, bar.instrument, e.time, made.plans[bar.instrument]);
    OthersStayTraced(m, s, after, sales, a.id, bar.instrument, fill.quantity, e.time.instant);
    OrdersAreValid(s.ledger);
    forall i | i in made.active
      ensures i in m && i in made.plans && LotTraced(after, i, KeyOf(m, i), made.active[i], made.plans[i],
              e.time.instant)
      ensures |made.active[i]| == 1 && SoldBefore(made.records, sales, i, made.active[i][0].time.instant)
    {
      if i != bar.instrument {
        LotHasOne(s.ledger, i, KeyOf(m, i), s.active[i], s.plans[i], e.time.instant);
      }
    }
  }

  lemma EntryContents(c: Config, s: Portfolio, bar: Bar, candidate: Candidate, outcome: O.Outcome, after: Ledger,
                      e: MarketEvent)
    requires bar.instrument !in s.active && outcome.order.Some?
    requires |outcome.order.value.fills| == 1 && outcome.order.value.fills[0].quantity > 0
    ensures var made, fill := WithEntry(c, s, bar, candidate, outcome, after, e), outcome.order.value.fills[0];
            && made.ledger == after && made.records == s.records && made.pnls == s.pnls
            && made.active == s.active[bar.instrument := [Lot(e.time, fill.price, fill.quantity)]]
            && bar.instrument in made.plans && made.plans[bar.instrument].additions == 0
            && made.plans == s.plans[bar.instrument := made.plans[bar.instrument]]
  {
    hide AverageFillPrice;
    EntryLot(c, s, bar, candidate, outcome, after, e);
  }

  /** A filled addition keeps everything traced. */
  lemma FilledPyramidStaysTraced(m: Market, s: Portfolio, after: Ledger, sales: seq<OrderId>, a: O.BuyArgs,
                                 outcome: O.Outcome, now: int)
    requires ValidMarket(m) && Traced(m, s, sales, now) && a.instrument in m && a.instrument in s.active
    requires a.id.kind.KPyramid? && a.id.instrument == a.instrument && a.id.instant == now
    requires Bought(m, s.ledger, after, a, outcome) && outcome.submitted
    ensures a.instrument in s.plans
    ensures var plan := s.plans[a.instrument];
            Traced(m, s.(ledger := after, plans := s.plans[a.instrument := plan.(additions := plan.additions + 1)]),
                sales, now)
  {
    hide PositionKey, Notional, Ledger.Valid, OneOrder, LotTraced, RecordTraced, ValidMarket, Bought, Apart, CostAt;
    BoughtFill(m, s.ledger, after, a, outcome);
    var fill, key := outcome.order.value.fills[0], KeyOf(m, a.instrument);
    assert outcome.order.value.fills == [fill];
    OrdersAreValid(s.ledger);
    var lots, plan := s.active[a.instrument], s.plans[a.instrument];
    LotHasOne(s.ledger, a.instrument, key, lots, plan, now);
    assert SoldBefore(s.records, sales, a.instrument, now);
    hide SoldBefore;
    AddedLotIsTraced(s.ledger, after, a.id, key, fill, a.instrument, lots, plan);
    OthersStayTraced(m, s, after, sales, a.id, a.instrument, fill.quantity, now);
    var plans := s.plans[a.instrument := plan.(additions := plan.additions + 1)];
    forall i | i in s.active
      ensures i in m && i in plans && LotTraced(after, i, KeyOf(m, i), s.active[i], plans[i], now) {}
  }
}
