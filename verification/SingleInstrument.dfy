/** A broker that trades a single instrument, as the shadow session and the proposal executor use it. */
module SingleInstrument {
  import opened Prelude
  import opened OrderedDict
  import opened Models
  import opened Risk
  import opened PaperBroking
  import opened OrderManaging

  /** The first open position, if any. */
  function CurrentPosition(l: Ledger): Option<Position>
    requires forall k | k in l.positions.keys :: k in l.positions.data
  {
    var positions := Select(l.positions.keys, l.positions.data, IsOpen);
    if |positions| > 0 then Some(positions[0]) else None
  }

  function IdFor(bar: Bar, kind: OrderKind): OrderId { OrderId(bar.instrument, bar.time.instant, kind) }

  function EquityAt(l: Ledger, price: real): real
    requires forall k | k in l.positions.keys :: k in l.positions.data
  {
    var position := CurrentPosition(l);
    l.cash + if position.Some? then Notional(price, position.value.quantity) else 0.0
  }

  function SellAll(bar: Bar, position: Position, kind: OrderKind, price: real): SellArgs {
    SellArgs(IdFor(bar, kind), bar.instrument, bar.exchange, position.quantity, price, bar.time)
  }

  ghost predicate OnlyKey(l: Ledger, key: string) {
    l.Valid() && forall k | k in l.positions.data :: k == key
  }

  lemma SoleKey(keys: seq<string>, key: string)
    requires Distinct(keys) && forall k | k in keys :: k == key
    ensures keys == [] || keys == [key]
  {
    if |keys| > 0 {
      assert keys[0] in keys && keys[|keys| - 1] in keys;
    }
  }

  lemma SelectSole(keys: seq<string>, data: map<string, Position>, key: string)
    requires keys == [key] && key in data
    ensures Select(keys, data, IsOpen) == if data[key].quantity != 0 then [data[key]] else []
  {
    assert keys[..0] == [];
  }

  lemma CountSole(positions: seq<Position>, p: Position)
    requires positions == if p.quantity != 0 then [p] else []
    ensures LongCount(positions) == if p.quantity > 0 then 1 else 0
  {
    if p.quantity != 0 {
      assert positions[..0] == [];
    }
  }

  /** The position dict holds at most the one key. */
  lemma SolePosition(l: Ledger, key: string)
    requires OnlyKey(l, key)
    ensures l.positions.keys == if key in l.positions.data then [key] else []
  {
    hide PositionKey;
    SoleKey(l.positions.keys, key);
  }

  lemma OnlyPosition(l: Ledger, key: string)
    requires OnlyKey(l, key)
    ensures CurrentPosition(l) == if l.Held(key) != 0 then Some(l.positions.data[key]) else None
    ensures OpenPositions(l) == if l.Held(key) > 0 then 1 else 0
  {
    SolePosition(l, key);
    hide OnlyKey, Ledger.Valid, LongCount, Select;
    if key in l.positions.data {
      SelectSole(l.positions.keys, l.positions.data, key);
      CountSole(Select(l.positions.keys, l.positions.data, IsOpen), l.positions.data[key]);
    } else {
      SelectNone(l.positions.keys, l.positions.data);
    }
  }

  lemma SelectNone(keys: seq<string>, data: map<string, Position>)
    requires keys == []
    ensures Select(keys, data, IsOpen) == [] && LongCount(Select(keys, data, IsOpen)) == 0
  {}

  /** A full sale of the only position is filled, credits the proceeds and leaves nothing open. */
  lemma FullSaleCloses(l: Ledger, a: SellArgs, key: string)
    requires OnlyKey(l, key) && key == PositionKey(a.instrument, a.exchange)
    requires a.id !in l.orders.data && !Blank(a.instrument)
    requires a.fillPrice > 0.0 && a.quantity == l.Held(key) > 0
    ensures var r := AfterSellSubmission(l, a);
            && r.Ok? && r.value.1.submitted
            && OnlyKey(r.value.0, key)
            && r.value.0.Held(key) == 0
            && r.value.0.rate == l.rate
            && r.value.0.cash == l.cash + (Notional(a.fillPrice, a.quantity) - Fee(Notional(a.fillPrice, a.quantity),
                l.rate))
            && r.value.0.orders.data.Keys == l.orders.data.Keys + {a.id}
  {
    hide Notional, Fee, PositionKey, AveragedPrice, Blank;
    var request := OrderRequest(a.id, a.instrument, a.exchange, SELL, a.quantity);
    OrderKeepsValid(l, request, a.fillPrice, a.time);
  }

  lemma SharesBoughtFromFlat(average: real, price: real, bought: int)
    requires bought > 0
    ensures AveragedPrice(average, 0, price, bought) == price
  {
    assert Notional(average, 0) + Notional(price, bought) == price * bought as real;
    Quotient(price * bought as real, bought as real, price);
  }

  /** An affordable purchase from flat is filled at its own price. */
  lemma PurchaseOpens(l: Ledger, request: OrderRequest, price: real, time: Timestamp, key: string)
    requires OnlyKey(l, key) && key == PositionKey(request.instrument, request.exchange)
    requires request.id !in l.orders.data && request.side.BUY? && price > 0.0 && l.Held(key) == 0
    requires Notional(price, request.quantity) + Fee(Notional(price, request.quantity), l.rate) <= l.cash
    ensures var r := AfterOrder(l, request, price, time);
            && r.Ok?
            && OnlyKey(r.value, key)
            && r.value.Held(key) == request.quantity && r.value.AveragePrice(key) == price
            && r.value.rate == l.rate
            && r.value.cash == l.cash - (Notional(price, request.quantity)
                + Fee(Notional(price, request.quantity), l.rate))
            && r.value.orders.data.Keys == l.orders.data.Keys + {request.id}
            && r.value.orders.data[request.id].status.FILLED?
  {
    hide Notional, Fee, PositionKey, AveragedPrice;
    OrderKeepsValid(l, request, price, time);
    SharesBoughtFromFlat(l.AveragePrice(key), price, request.quantity);
  }
}
