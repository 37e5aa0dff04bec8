/** What a single sale or purchase does to a ledger that holds positions in many instruments. */
module LedgerEffects {
  import opened Prelude
  import opened OrderedDict
  import opened Models
  import opened Risk
  import opened PaperBroking
  import opened OrderManaging
  import opened LedgerLaws

  /** Every traded instrument and the one exchange it trades on. */
  type Market = map<string, string>

  function KeyOf(m: Market, instrument: string): string
    requires instrument in m
  {
    PositionKey(instrument, m[instrument])
  }

  /** Different instruments have different position keys. */
  ghost predicate ValidMarket(m: Market) {
    forall i, j | i in m && j in m && i != j :: KeyOf(m, i) != KeyOf(m, j)
  }

  /** Every position belongs to an instrument of the market, on its exchange. */
  ghost predicate Coherent(m: Market, l: Ledger) {
    && l.Valid()
    && forall k | k in l.positions.data :: l.positions.data[k].instrument in m
        && l.positions.data[k].exchange == m[l.positions.data[k].instrument]
  }

  ghost function Holding(m: Market, l: Ledger): set<string> {
    set i | i in m && l.Held(KeyOf(m, i)) != 0
  }

  function OpenList(l: Ledger): seq<Position>
    requires l.Valid()
  {
    Select(l.positions.keys, l.positions.data, IsOpen)
  }

  function OpenInstruments(l: Ledger): set<string>
    requires l.Valid()
  {
    set p | p in OpenList(l) :: p.instrument
  }

  function FindPosition(positions: seq<Position>, instrument: string, exchange: string): Option<Position> {
    if |positions| == 0 then None
    else if positions[0].instrument == instrument && positions[0].exchange == exchange then Some(positions[0])
    else FindPosition(positions[1..], instrument, exchange)
  }

  function FindInstrument(positions: seq<Position>, instrument: string): Option<Position> {
    if |positions| == 0 then None
    else if positions[0].instrument == instrument then Some(positions[0])
    else FindInstrument(positions[1..], instrument)
  }

  // ----- The open positions are those of the held instruments

  lemma KeyOfPosition(m: Market, l: Ledger, k: string)
    requires Coherent(m, l) && k in l.positions.data
    ensures var p := l.positions.data[k];
              p.instrument in m && p.exchange == m[p.instrument] && k == KeyOf(m, p.instrument)
  {}

  lemma OpenPositionsAreHeld(m: Market, l: Ledger, p: Position)
    requires Coherent(m, l) && p in OpenList(l)
    ensures p.instrument in Holding(m, l) && p.exchange == m[p.instrument]
    ensures KeyOf(m, p.instrument) in l.positions.data && p == l.positions.data[KeyOf(m, p.instrument)]
  {
    hide PositionKey;
    SelectMembers(l.positions.keys, l.positions.data, IsOpen);
    var k :| k in l.positions.keys && l.positions.data[k] == p;
    KeyOfPosition(m, l, k);
  }

  lemma HeldPositionIsOpen(m: Market, l: Ledger, instrument: string)
    requires Coherent(m, l) && instrument in Holding(m, l)
    ensures KeyOf(m, instrument) in l.positions.data && l.positions.data[KeyOf(m, instrument)] in OpenList(l)
  {
    hide PositionKey;
    SelectMembers(l.positions.keys, l.positions.data, IsOpen);
  }

  /** The instrument of a market that a position key stands for. */
  lemma PositionOf(m: Market, l: Ledger, instrument: string)
    requires ValidMarket(m) && Coherent(m, l) && instrument in m && KeyOf(m, instrument) in l.positions.data
    ensures l.positions.data[KeyOf(m, instrument)].instrument == instrument
  {
    hide PositionKey;
    KeyOfPosition(m, l, KeyOf(m, instrument));
  }

  lemma OpenInstrumentsAreHeld(m: Market, l: Ledger)
    requires ValidMarket(m) && Coherent(m, l)
    ensures OpenInstruments(l) == Holding(m, l)
  {
    hide PositionKey, OpenList, Holding, ValidMarket;
    forall p | p in OpenList(l) ensures p.instrument in Holding(m, l) {
      OpenPositionsAreHeld(m, l, p);
    }
    forall i | i in Holding(m, l) ensures i in OpenInstruments(l) {
      HeldIsOpenInstrument(m, l, i);
    }
  }

  lemma HeldIsOpenInstrument(m: Market, l: Ledger, i: string)
    requires ValidMarket(m) && Coherent(m, l) && i in Holding(m, l)
    ensures i in OpenInstruments(l)
  {
    hide PositionKey, OpenList;
    HeldPositionIsOpen(m, l, i);
    PositionOf(m, l, i);
  }

  /** No instrument is open twice. */
  ghost predicate OnePerInstrument(positions: seq<Position>) {
    forall i, j :: 0 <= i < j < |positions| ==> positions[i].instrument != positions[j].instrument
  }

  lemma {:induction false} SelectedOnce(m: Market, l: Ledger, keys: seq<string>)
    requires Coherent(m, l) && Distinct(keys) && forall k | k in keys :: k in l.positions.data
    ensures OnePerInstrument(Select(keys, l.positions.data, IsOpen))
  {
    hide PositionKey;
    if |keys| > 0 {
      var init, last := keys[..|keys| - 1], keys[|keys| - 1];
      SelectedOnce(m, l, init);
      SelectMembers(init, l.positions.data, IsOpen);
      KeyOfPosition(m, l, last);
      forall p | p in Select(init, l.positions.data, IsOpen) ensures p.instrument != l.positions.data[last].instrument {
        var k :| k in init && l.positions.data[k] == p;
        KeyOfPosition(m, l, k);
        assert k != last;
      }
    }
  }

  lemma OpenListHasOnePerInstrument(m: Market, l: Ledger)
    requires Coherent(m, l)
    ensures OnePerInstrument(OpenList(l))
  {
    SelectedOnce(m, l, l.positions.keys);
  }

  lemma {:induction false} FindsIt(positions: seq<Position>, p: Position)
    requires OnePerInstrument(positions) && p in positions
    ensures FindInstrument(positions, p.instrument) == Some(p)
    ensures FindPosition(positions, p.instrument, p.exchange) == Some(p)
  {
    if positions[0] != p {
      assert p in positions[1..];
      FindsIt(positions[1..], p);
    }
  }

  lemma {:induction false} FindsNothing(positions: seq<Position>, instrument: string, exchange: string)
    requires forall p | p in positions :: p.instrument != instrument
    ensures FindInstrument(positions, instrument).None? && FindPosition(positions, instrument, exchange).None?
  {
    if |positions| > 0 {
      FindsNothing(positions[1..], instrument, exchange);
    }
  }

  /** Looking a position up by instrument finds exactly the held one. */
  lemma LookupFindsHeld(m: Market, l: Ledger, instrument: string)
    requires ValidMarket(m) && Coherent(m, l) && instrument in m
    ensures instrument in Holding(m, l) ==> KeyOf(m, instrument) in l.positions.data
    ensures FindPosition(OpenList(l), instrument, m[instrument]) == FindInstrument(OpenList(l), instrument)
    ensures FindInstrument(OpenList(l), instrument)
         == if instrument in Holding(m, l) then Some(l.positions.data[KeyOf(m, instrument)]) else None
  {
    hide PositionKey, OpenList, Holding, ValidMarket;
    if instrument in Holding(m, l) {
      HeldPositionIsOpen(m, l, instrument);
      PositionOf(m, l, instrument);
      OpenListHasOnePerInstrument(m, l);
      OpenPositionsAreHeld(m, l, l.positions.data[KeyOf(m, instrument)]);
      FindsIt(OpenList(l), l.positions.data[KeyOf(m, instrument)]);
    } else {
      forall p | p in OpenList(l) ensures p.instrument != instrument {
        OpenPositionsAreHeld(m, l, p);
      }
      FindsNothing(OpenList(l), instrument, m[instrument]);
    }
  }

  // ----- One order

  /** Only one key moves, and the order's id is new on the book. */
  ghost predicate OneOrder(l: Ledger, after: Ledger, id: OrderId, key: string, delta: int) {
    && after.rate == l.rate
    && id !in l.orders.data && id in after.orders.data
    && after.orders == l.orders.Put(id, after.orders.data[id])
    && after.Held(key) == l.Held(key) + delta
    && (forall k | k != key :: (k in after.positions.data <==> k in l.positions.data) &&
                               (k in l.positions.data ==> after.positions.data[k] == l.positions.data[k]))
  }

  lemma PutTwice<K, V>(d: Dict<K, V>, k: K, first: V, second: V)
    ensures d.Put(k, first).Put(k, second) == d.Put(k, second)
  {
    assert d.data[k := first][k := second] == d.data[k := second];
  }

  lemma DeltaMovesOneKey(positions: Dict<string, Position>, instrument: string, exchange: string, delta: int,
                         price: real)
    ensures var key, after := PositionKey(instrument, exchange),
            ApplyDelta(positions, instrument, exchange, delta, price);
            && key in after.data
            && after.data[key].instrument == instrument && after.data[key].exchange == exchange
            && after.data[key].quantity == (if key in positions.data then positions.data[key].quantity else 0) + delta
            && (forall k | k != key :: (k in after.data <==> k in positions.data) &&
                                       (k in positions.data ==> after.data[k] == positions.data[k]))
  {
    hide Notional, PositionKey, AveragedPrice;
  }

  lemma FillIsOneOrder(l: Ledger, order: Order, price: real, time: Timestamp, cash: real, delta: int)
    requires order.request.id !in l.orders.data && order.fills == []
    ensures var after := AfterFill(Recorded(l, order), order, price, time, cash, delta);
            && OneOrder(l, after, order.request.id, PositionKey(order.request.instrument, order.request.exchange),
                delta)
            && Settled(after, order.request, price, time)
  {
    hide Notional, Fee, PositionKey, ApplyDelta;
    var request := order.request;
    DeltaMovesOneKey(l.positions, request.instrument, request.exchange, delta, price);
    var after := AfterFill(Recorded(l, order), order, price, time, cash, delta);
    PutTwice(l.orders, request.id, order, after.orders.data[request.id]);
  }

  /** The order is on the book, filled at its price, and its position is the instrument's. */
  ghost predicate Settled(l: Ledger, request: OrderRequest, price: real, time: Timestamp) {
    && request.id in l.orders.data
    && var order, key := l.orders.data[request.id], PositionKey(request.instrument, request.exchange);
       && order.status.FILLED? && order.request == request && order.updatedAt == time
       && |order.fills| == 1 && order.fills[0].quantity == request.quantity && order.fills[0].price == price
       && key in l.positions.data
       && l.positions.data[key].instrument == request.instrument && l.positions.data[key].exchange == request.exchange
  }

  lemma SaleIsOneOrder(l: Ledger, request: OrderRequest, price: real, time: Timestamp)
    requires request.id !in l.orders.data && price > 0.0
    requires request.side.SELL? && request.quantity <= l.Held(PositionKey(request.instrument, request.exchange))
    ensures var r := AfterOrder(l, request, price, time);
            && r.Ok?
            && OneOrder(l, r.value, request.id, PositionKey(request.instrument, request.exchange), 0 - request.quantity)
            && Settled(r.value, request, price, time)
            && r.value.cash == l.cash + SaleProceeds(l, request, price)
  {
    hide Notional, Fee, PositionKey, AfterFill, OneOrder, Settled;
    FillIsOneOrder(l, NewOrder(request, time), price, time, l.cash + SaleProceeds(l, request, price),
        0 - request.quantity);
    hide ApplyDelta;
    SameHeld(l, NewOrder(request, time), PositionKey(request.instrument, request.exchange));
    FillCash(l, NewOrder(request, time), price, time, l.cash + SaleProceeds(l, request, price), 0 - request.quantity);
  }

  lemma SameHeld(l: Ledger, order: Order, key: string)
    ensures Recorded(l, order).Held(key) == l.Held(key)
  {}

  lemma FillCash(l: Ledger, order: Order, price: real, time: Timestamp, cash: real, delta: int)
    ensures AfterFill(Recorded(l, order), order, price, time, cash, delta).cash == cash
  {
    hide ApplyDelta, FillFor;
  }

  lemma PurchaseIsOneOrder(l: Ledger, request: OrderRequest, price: real, time: Timestamp)
    requires request.id !in l.orders.data && price > 0.0
    requires request.side.BUY? && BuyCost(l, request, price) <= l.cash
    ensures var r := AfterOrder(l, request, price, time);
            && r.Ok?
            && OneOrder(l, r.value, request.id, PositionKey(request.instrument, request.exchange), request.quantity)
            && Settled(r.value, request, price, time)
            && r.value.cash == l.cash - BuyCost(l, request, price)
  {
    hide Notional, Fee, PositionKey, AfterFill, OneOrder, Settled;
    FillIsOneOrder(l, NewOrder(request, time), price, time, l.cash - BuyCost(l, request, price), request.quantity);
    FillCash(l, NewOrder(request, time), price, time, l.cash - BuyCost(l, request, price), request.quantity);
  }

  /** What the shares held under a key cost. */
  function CostAt(l: Ledger, key: string): real { Notional(l.AveragePrice(key), l.Held(key)) }

  lemma DeltaAddsCost(positions: Dict<string, Position>, instrument: string, exchange: string, delta: int, price: real)
    requires delta > 0 && ValidPositions(positions)
    ensures var key, after := PositionKey(instrument, exchange),
            ApplyDelta(positions, instrument, exchange, delta, price);
            && key in after.data
            && Notional(after.data[key].averagePrice, after.data[key].quantity)
            == (if key in positions.data then Notional(positions.data[key].averagePrice, positions.data[key].quantity)
                else 0.0)
               + Notional(price, delta)
  {
    hide Notional, PositionKey, AveragedPrice;
    var key := PositionKey(instrument, exchange);
    if key in positions.data {
      AveragingAddsValue(positions.data[key].averagePrice, positions.data[key].quantity, price, delta);
    }
  }

  lemma NoSharesCostNothing(l: Ledger, key: string)
    ensures key !in l.positions.data ==> CostAt(l, key) == 0.0
    ensures l.Held(key) == 0 ==> CostAt(l, key) == 0.0
  {}

  /** A purchase adds what it paid to the cost of its position. */
  lemma PurchaseAddsCost(l: Ledger, request: OrderRequest, price: real, time: Timestamp)
    requires l.Valid() && request.id !in l.orders.data && price > 0.0
    requires request.side.BUY? && BuyCost(l, request, price) <= l.cash
    ensures var r, key := AfterOrder(l, request, price, time), PositionKey(request.instrument, request.exchange);
            r.Ok? && CostAt(r.value, key) == CostAt(l, key) + Notional(price, request.quantity)
  {
    hide Notional, Fee, PositionKey, ApplyDelta, CostAt;
    var key, after := PositionKey(request.instrument, request.exchange), AfterOrder(l, request, price, time).value;
    assert after.positions == ApplyDelta(l.positions, request.instrument, request.exchange, request.quantity, price);
    DeltaAddsCost(l.positions, request.instrument, request.exchange, request.quantity, price);
    NoSharesCostNothing(l, key);
    if key in l.positions.data {
      CostIsPositionCost(l, key);
    }
    CostIsPositionCost(after, key);
  }

  lemma CostIsPositionCost(l: Ledger, key: string)
    requires key in l.positions.data
    ensures CostAt(l, key) == Notional(l.positions.data[key].averagePrice, l.positions.data[key].quantity)
  {}

  lemma RejectedIsOneOrder(l: Ledger, request: OrderRequest, price: real, time: Timestamp)
    requires request.id !in l.orders.data && price > 0.0
    requires request.side.BUY? && BuyCost(l, request, price) > l.cash
    ensures var r := AfterOrder(l, request, price, time);
            && r.Ok?
            && OneOrder(l, r.value, request.id, PositionKey(request.instrument, request.exchange), 0)
            && r.value.positions == l.positions && r.value.cash == l.cash
            && r.value.orders.data[request.id].status.REJECTED?
  {
    hide Notional, Fee, PositionKey, ApplyDelta;
    var after := AfterOrder(l, request, price, time).value;
    PutTwice(l.orders, request.id, NewOrder(request, time), after.orders.data[request.id]);
  }

  lemma OneOrderKeepsCoherent(m: Market, l: Ledger, after: Ledger, id: OrderId, instrument: string, delta: int)
    requires ValidMarket(m) && Coherent(m, l) && after.Valid() && instrument in m
    requires OneOrder(l, after, id, KeyOf(m, instrument), delta)
    requires KeyOf(m, instrument) in after.positions.data ==>
               after.positions.data[KeyOf(m, instrument)].instrument == instrument &&
               after.positions.data[KeyOf(m, instrument)].exchange == m[instrument]
    ensures Coherent(m, after)
  {
    hide PositionKey;
  }

  /** The held instruments gain or lose the ordered one, depending on what is left of it. */
  lemma OneOrderMovesHolding(m: Market, l: Ledger, after: Ledger, id: OrderId, instrument: string, delta: int)
    requires ValidMarket(m) && instrument in m
    requires OneOrder(l, after, id, KeyOf(m, instrument), delta)
    ensures Holding(m, after) == if l.Held(KeyOf(m, instrument)) + delta == 0
                                 then Holding(m, l) - {instrument} else Holding(m, l) + {instrument}
  {
    hide PositionKey;
    forall i | i in m && i != instrument ensures after.Held(KeyOf(m, i)) == l.Held(KeyOf(m, i)) {
      assert KeyOf(m, i) != KeyOf(m, instrument);
    }
  }

  lemma HeldQuantity(m: Market, l: Ledger, instrument: string)
    requires Coherent(m, l) && instrument in Holding(m, l)
    ensures instrument in m && l.Held(KeyOf(m, instrument)) > 0
  {
    hide PositionKey;
  }

  lemma SaleIsPlaced(l: Ledger, a: SellArgs)
    requires AfterSellSubmission(l, a).Ok? && a.id !in l.orders.data
    ensures a.fillPrice > 0.0 && a.quantity > 0
    ensures var r := AfterOrder(l, OrderRequest(a.id, a.instrument, a.exchange, SELL, a.quantity), a.fillPrice, a.time);
            r.Ok? && a.id in r.value.orders.data && AfterSellSubmission(l, a)
                == Ok((r.value, Placed(r.value.orders.data[a.id])))
  {
    hide Notional, Fee, PositionKey, ApplyDelta, Blank;
    PlacedIsOnTheBook(l, OrderRequest(a.id, a.instrument, a.exchange, SELL, a.quantity), a.fillPrice, a.time);
  }

  /** One instrument's whole position was sold: nothing else moved, and the worth gained the realised profit. */
  ghost predicate Closed(m: Market, l: Ledger, after: Ledger, a: SellArgs)
    requires a.instrument in m && l.Valid()
  {
    && Coherent(m, after)
    && OneOrder(l, after, a.id, KeyOf(m, a.instrument), 0 - a.quantity)
    && Holding(m, after) == Holding(m, l) - {a.instrument}
    && after.orders.data[a.id].status.FILLED? && after.orders.data[a.id].request.side.SELL?
    && |after.orders.data[a.id].fills| == 1
    && after.orders.data[a.id].fills[0].price == a.fillPrice && after.orders.data[a.id].fills[0].quantity == a.quantity
    && Worth(after) == Worth(l) + Notional(a.fillPrice - l.AveragePrice(KeyOf(m, a.instrument)), a.quantity)
    && after.cash == l.cash + (Notional(a.fillPrice, a.quantity) - Fee(Notional(a.fillPrice, a.quantity), l.rate))
  }

  lemma SaleRealizes(l: Ledger, request: OrderRequest, price: real)
    requires request.side.SELL? && request.id !in l.orders.data && price > 0.0
    requires request.quantity <= l.Held(PositionKey(request.instrument, request.exchange))
    ensures RealizedBy(l, request, price)
         == Notional(price - l.AveragePrice(PositionKey(request.instrument, request.exchange)), request.quantity)
    ensures SaleProceeds(l, request, price)
         == Notional(price, request.quantity) - Fee(Notional(price, request.quantity), l.rate)
  {
    hide PositionKey, Notional, Fee;
  }

  /** The whole of one position sold is always filled. */
  lemma FullSale(m: Market, l: Ledger, a: SellArgs)
    requires ValidMarket(m) && Coherent(m, l) && a.instrument in Holding(m, l) && a.exchange == m[a.instrument]
    requires a.id !in l.orders.data && a.quantity == l.Held(KeyOf(m, a.instrument))
    requires AfterSellSubmission(l, a).Ok?
    ensures AfterSellSubmission(l, a).value.1.submitted
    ensures Closed(m, l, AfterSellSubmission(l, a).value.0, a)
    ensures a.fillPrice > 0.0
  {
    hide Notional, Fee, PositionKey, AfterOrder, Worth, Blank, OneOrder, Holding, Coherent, AfterSellSubmission;
    HeldQuantity(m, l, a.instrument);
    SaleIsPlaced(l, a);
    ValidWhenCoherent(m, l);
    var request := OrderRequest(a.id, a.instrument, a.exchange, SELL, a.quantity);
    OrderConserves(l, request, a.fillPrice, a.time);
    SaleRealizes(l, request, a.fillPrice);
    hide RealizedBy, SaleProceeds, Ledger.Held, Ledger.AveragePrice;
    var after := AfterOrder(l, request, a.fillPrice, a.time).value;
    SaleIsOneOrder(l, request, a.fillPrice, a.time);
    OneOrderKeepsCoherent(m, l, after, a.id, a.instrument, 0 - a.quantity);
    OneOrderMovesHolding(m, l, after, a.id, a.instrument, 0 - a.quantity);
  }

  lemma ValidWhenCoherent(m: Market, l: Ledger)
    requires Coherent(m, l)
    ensures l.Valid()
  {}

  /** What a submitted or refused purchase leaves behind. */
  ghost predicate Bought(m: Market, l: Ledger, after: Ledger, a: BuyArgs, outcome: Outcome)
    requires a.instrument in m && l.Valid()
  {
    && Coherent(m, after)
    && after.rate == l.rate
    && Worth(after) == Worth(l)
    && if outcome.submitted
       then
         && a.id in after.orders.data && outcome.order == Some(after.orders.data[a.id])
         && var order := after.orders.data[a.id];
            && order.status.FILLED? && order.request.side.BUY? && order.updatedAt == a.time
            && |order.fills| == 1 && order.fills[0].quantity > 0 && order.fills[0].price == a.fillPrice
            && OneOrder(l, after, a.id, KeyOf(m, a.instrument), order.fills[0].quantity)
            && Holding(m, after) == Holding(m, l) + {a.instrument}
            && CostAt(after, KeyOf(m, a.instrument)) == CostAt(l, KeyOf(m, a.instrument))
                + Notional(a.fillPrice, order.fills[0].quantity)
       else
         && after.positions == l.positions && after.cash == l.cash && Holding(m, after) == Holding(m, l)
         && (after == l || (OneOrder(l, after, a.id, KeyOf(m, a.instrument), 0)
             && !after.orders.data[a.id].status.FILLED?))
  }

  lemma PurchaseWhenPlaced(m: Market, l: Ledger, a: BuyArgs, request: OrderRequest)
    requires ValidMarket(m) && Coherent(m, l) && a.instrument in m && a.exchange == m[a.instrument]
    requires a.id !in l.orders.data
    requires request.id == a.id && request.instrument == a.instrument && request.exchange == a.exchange
             && request.side.BUY?
    requires AfterOrder(l, request, a.fillPrice, a.time).Ok?
    ensures var after := AfterOrder(l, request, a.fillPrice, a.time).value;
            a.id in after.orders.data && Bought(m, l, after, a, Placed(after.orders.data[a.id]))
  {
    hide Notional, Fee, PositionKey, AfterOrder, Worth, OneOrder, Holding, BuyCost, CostAt;
    OrderConserves(l, request, a.fillPrice, a.time);
    hide RealizedBy;
    var after := AfterOrder(l, request, a.fillPrice, a.time).value;
    PlacedIsOnTheBook(l, request, a.fillPrice, a.time);
    BuyRealizesNothing(l, request, a.fillPrice, a.time);
    if BuyCost(l, request, a.fillPrice) <= l.cash {
      PurchaseIsOneOrder(l, request, a.fillPrice, a.time);
      PurchaseAddsCost(l, request, a.fillPrice, a.time);
      OneOrderKeepsCoherent(m, l, after, a.id, a.instrument, request.quantity);
      OneOrderMovesHolding(m, l, after, a.id, a.instrument, request.quantity);
      HeldIsNonNegative(l, KeyOf(m, a.instrument));
      OneOrderKeepsRate(l, after, a.id, KeyOf(m, a.instrument), request.quantity);
    } else {
      RejectedIsOneOrder(l, request, a.fillPrice, a.time);
      SamePositionsSameHolding(m, l, after);
      OneOrderKeepsRate(l, after, a.id, KeyOf(m, a.instrument), 0);
    }
  }

  lemma HeldIsNonNegative(l: Ledger, key: string)
    requires l.Valid()
    ensures l.Held(key) >= 0
  {}

  lemma OneOrderKeepsRate(l: Ledger, after: Ledger, id: OrderId, key: string, delta: int)
    requires OneOrder(l, after, id, key, delta)
    ensures after.rate == l.rate
  {}

  lemma SamePositionsSameHolding(m: Market, l: Ledger, after: Ledger)
    requires after.positions == l.positions
    ensures Holding(m, after) == Holding(m, l)
    ensures Coherent(m, l) && after.Valid() ==> Coherent(m, after)
  {
    hide PositionKey;
  }

  lemma BuyRealizesNothing(l: Ledger, request: OrderRequest, price: real, time: Timestamp)
    requires request.side.BUY? && AfterOrder(l, request, price, time).Ok? && request.id !in l.orders.data
    ensures RealizedBy(l, request, price) == 0.0 && price > 0.0
  {
    hide PositionKey, Notional;
  }

  /** Whatever the gate and the sizing decide, a submitted purchase is filled and a refused one moves nothing. */
  lemma GatedPurchase(m: Market, limits: RiskLimits, l: Ledger, r: RiskState, a: BuyArgs)
    requires ValidMarket(m) && Coherent(m, l) && a.instrument in m && a.exchange == m[a.instrument]
    requires a.id !in l.orders.data
    requires AfterBuySubmission(limits, l, r, a).Ok?
    ensures Bought(m, l, AfterBuySubmission(limits, l, r, a).value.0, a, AfterBuySubmission(limits, l, r, a).value.1)
    ensures AfterBuySubmission(limits, l, r, a).value.1.submitted ==> !r.tripped
  {
    hide Notional, Fee, PositionKey, AfterOrder, Worth, OneOrder, Holding, Sized, OpenPositions, Blank, Bought;
    var (after, outcome) := AfterBuySubmission(limits, l, r, a).value;
    if outcome.order.None? {
      assert after == l && !outcome.submitted;
      RefusedPurchase(m, l, a, outcome);
    } else {
      var sized := Sized(limits, l.cash, a).value;
      var quantity := if a.maxQuantity.Some? then MinInt(sized, a.maxQuantity.value) else sized;
      PurchaseWhenPlaced(m, l, a, OrderRequest(a.id, a.instrument, a.exchange, BUY, quantity));
    }
  }

  lemma RefusedPurchase(m: Market, l: Ledger, a: BuyArgs, outcome: Outcome)
    requires Coherent(m, l) && a.instrument in m && !outcome.submitted
    ensures Bought(m, l, l, a, outcome)
  {
    hide PositionKey, Worth;
  }
}
