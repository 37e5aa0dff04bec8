/** The simulated broker: a cash and position ledger with average-cost accounting (execution/paper_broker.py). */
module PaperBroking {
  import opened Prelude
  import opened OrderedDict
  import opened Models

  ghost predicate ValidPositions(positions: Dict<string, Position>) {
    && positions.Valid()
    && forall k | k in positions.data ::
         positions.data[k].quantity >= 0 &&
         k == PositionKey(positions.data[k].instrument, positions.data[k].exchange)
  }

  datatype Ledger = Ledger(cash: real, rate: real, orders: Dict<OrderId, Order>,
                           positions: Dict<string, Position>, nextFill: nat)
  {
    ghost predicate Valid() {
      && rate >= 0.0
      && orders.Valid() && ValidPositions(positions)
      && (forall id | id in orders.data :: orders.data[id].request.id == id && orders.data[id].status.IsTerminal())
    }

    /** The quantity held under a position key. */
    function Held(key: string): int {
      if key in positions.data then positions.data[key].quantity else 0
    }

    function AveragePrice(key: string): real {
      if key in positions.data then positions.data[key].averagePrice else 0.0
    }
  }

  function NewLedger(initialCash: real, rate: real): Ledger {
    Ledger(initialCash, rate, Empty(), Empty(), 1)
  }

  /** The average cost after buying more shares. */
  function AveragedPrice(average: real, held: int, price: real, bought: int): real
    requires held + bought != 0
  {
    (Notional(average, held) + Notional(price, bought)) / (held + bought) as real
  }

  /** Merge a fill into the position: buys average the price, sells keep it. */
  function ApplyDelta(positions: Dict<string, Position>, instrument: string, exchange: string,
                      delta: int, price: real): Dict<string, Position>
  {
    var key := PositionKey(instrument, exchange);
    if key !in positions.data then positions.Put(key, Position(instrument, exchange, delta, price))
    else
      var current := positions.data[key];
      var quantity := current.quantity + delta;
      var average :=
        if delta > 0 && current.quantity >= 0 && quantity != 0 then
          AveragedPrice(current.averagePrice, current.quantity, price, delta)
        else current.averagePrice;
      positions.Put(key, Position(instrument, exchange, quantity, average))
  }

  function NewOrder(request: OrderRequest, time: Timestamp): Order {
    Order(request, PENDING, None, [], None, time, time)
  }

  function FillFor(l: Ledger, request: OrderRequest, price: real, time: Timestamp): Fill {
    Fill(l.nextFill, request.quantity, price, time, Fee(Notional(price, request.quantity), l.rate))
  }

  function AfterFill(l: Ledger, order: Order, price: real, time: Timestamp, cash: real, delta: int): Ledger {
    var fill := FillFor(l, order.request, price, time);
    Ledger(cash, l.rate,
           l.orders.Put(order.request.id, order.(status := FILLED, fills := order.fills + [fill], updatedAt := time)),
           ApplyDelta(l.positions, order.request.instrument, order.request.exchange, delta, price),
           l.nextFill + 1)
  }

  function AfterRejection(l: Ledger, order: Order, time: Timestamp, why: Rejection): Ledger {
    l.(orders := l.orders.Put(order.request.id,
                              order.(status := REJECTED, rejection := Some(why), updatedAt := time)))
  }

  function BuyCost(l: Ledger, request: OrderRequest, price: real): real {
    Notional(price, request.quantity) + Fee(Notional(price, request.quantity), l.rate)
  }

  function SaleProceeds(l: Ledger, request: OrderRequest, price: real): real {
    Notional(price, request.quantity) - Fee(Notional(price, request.quantity), l.rate)
  }

  function AfterBuy(l: Ledger, order: Order, price: real, time: Timestamp): Ledger {
    var cost := BuyCost(l, order.request, price);
    if cost > l.cash then AfterRejection(l, order, time, InsufficientCash(cost, l.cash))
    else AfterFill(l, order, price, time, l.cash - cost, order.request.quantity)
  }

  function AfterSell(l: Ledger, order: Order, price: real, time: Timestamp): Ledger {
    var request := order.request;
    var held := l.Held(PositionKey(request.instrument, request.exchange));
    if request.quantity > held then
      AfterRejection(l, order, time, InsufficientPosition(request.quantity, held))
    else AfterFill(l, order, price, time, l.cash + SaleProceeds(l, request, price), 0 - request.quantity)
  }

  /** The ledger with a pending order on the book. */
  function Recorded(l: Ledger, order: Order): Ledger {
    l.(orders := l.orders.Put(order.request.id, order))
  }

  /** The ledger after place_order; raises only on a non-positive price for a new id. */
  function AfterOrder(l: Ledger, request: OrderRequest, price: real, time: Timestamp): Result<Ledger, Error> {
    if request.id in l.orders.data then Ok(l)
    else if price <= 0.0 then Err(ValueError)
    else
      var order := NewOrder(request, time);
      Ok(if request.side.BUY? then AfterBuy(Recorded(l, order), order, price, time)
         else AfterSell(Recorded(l, order), order, price, time))
  }

  /** Valid, except that one order on the book may still be pending. */
  ghost predicate ValidBut(l: Ledger, pending: OrderId) {
    && l.rate >= 0.0 && l.orders.Valid()
    && ValidPositions(l.positions)
    && (forall id | id in l.orders.data :: l.orders.data[id].request.id == id)
    && (forall id | id in l.orders.data && id != pending :: l.orders.data[id].status.IsTerminal())
  }

  lemma DeltaKeepsValid(positions: Dict<string, Position>, instrument: string, exchange: string, delta: int,
                        price: real)
    requires ValidPositions(positions)
    requires delta > 0 || PositionKey(instrument, exchange) in positions.data
    requires (if PositionKey(instrument, exchange) in positions.data
              then positions.data[PositionKey(instrument, exchange)].quantity else 0) + delta >= 0
    ensures ValidPositions(ApplyDelta(positions, instrument, exchange, delta, price))
  {}

  lemma FillKeepsValid(l: Ledger, order: Order, price: real, time: Timestamp, cash: real, delta: int)
    requires ValidBut(l, order.request.id)
    requires ValidPositions(ApplyDelta(l.positions, order.request.instrument, order.request.exchange, delta, price))
    ensures AfterFill(l, order, price, time, cash, delta).Valid()
  {}

  lemma RejectionKeepsValid(l: Ledger, order: Order, time: Timestamp, why: Rejection)
    requires ValidBut(l, order.request.id)
    ensures AfterRejection(l, order, time, why).Valid()
  {}

  lemma BuyKeepsValid(l: Ledger, order: Order, price: real, time: Timestamp)
    requires ValidBut(l, order.request.id)
    ensures AfterBuy(l, order, price, time).Valid()
  {
    var request, cost := order.request, BuyCost(l, order.request, price);
    if cost > l.cash {
      RejectionKeepsValid(l, order, time, InsufficientCash(cost, l.cash));
    } else {
      DeltaKeepsValid(l.positions, request.instrument, request.exchange, request.quantity, price);
      FillKeepsValid(l, order, price, time, l.cash - cost, request.quantity);
    }
  }

  lemma SellKeepsValid(l: Ledger, order: Order, price: real, time: Timestamp)
    requires ValidBut(l, order.request.id)
    ensures AfterSell(l, order, price, time).Valid()
  {
    var request := order.request;
    var held := l.Held(PositionKey(request.instrument, request.exchange));
    if request.quantity > held {
      RejectionKeepsValid(l, order, time, InsufficientPosition(request.quantity, held));
    } else {
      DeltaKeepsValid(l.positions, request.instrument, request.exchange, 0 - request.quantity, price);
      FillKeepsValid(l, order, price, time, l.cash + SaleProceeds(l, request, price), 0 - request.quantity);
    }
  }

  lemma OrderKeepsValid(l: Ledger, request: OrderRequest, price: real, time: Timestamp)
    requires l.Valid() && AfterOrder(l, request, price, time).Ok?
    ensures AfterOrder(l, request, price, time).value.Valid()
  {
    if request.id !in l.orders.data {
      var order := NewOrder(request, time);
      assert ValidBut(Recorded(l, order), request.id);
      BuyKeepsValid(Recorded(l, order), order, price, time);
      SellKeepsValid(Recorded(l, order), order, price, time);
    }
  }

  predicate IsOpen(p: Position) { p.quantity != 0 }

  class PaperBroker {
    const commissionRate: real
    var cash: real
    var orders: Dict<OrderId, Order>
    var positions: Dict<string, Position>
    var nextFillId: nat

    function View(): Ledger
      reads this
    {
      Ledger(cash, commissionRate, orders, positions, nextFillId)
    }

    ghost predicate Valid()
      reads this
    {
      View().Valid()
    }

    constructor (initialCash: real, commissionRate: real)
      requires initialCash >= 0.0 && commissionRate >= 0.0
      ensures View() == NewLedger(initialCash, commissionRate) && Valid()
    {
      this.commissionRate := commissionRate;
      cash, orders, positions, nextFillId := initialCash, Empty(), Empty(), 1;
    }

    /** The source's constructor: raises on a negative amount or rate. */
    static method Create(initialCash: real, commissionRate: real) returns (r: Result<PaperBroker, Error>)
      ensures r.Ok? <==> initialCash >= 0.0 && commissionRate >= 0.0
      ensures r.Ok? ==> fresh(r.value) && r.value.View() == NewLedger(initialCash, commissionRate) && r.value.Valid()
    {
      if initialCash < 0.0 || commissionRate < 0.0 {
        return Err(ValueError);
      }
      var broker := new PaperBroker(initialCash, commissionRate);
      return Ok(broker);
    }

    method PlaceOrder(request: OrderRequest, fillPrice: real, time: Timestamp) returns (r: Result<Order, Error>)
      requires Valid()
      modifies this
      ensures Valid()
      ensures r.Err? <==> AfterOrder(old(View()), request, fillPrice, time).Err?
      ensures r.Err? ==> AfterOrder(old(View()), request, fillPrice, time) == Err(r.error) && View() == old(View())
      ensures r.Ok? ==> AfterOrder(old(View()), request, fillPrice, time) == Ok(View())
      ensures r.Ok? ==> request.id in orders.data && r.value == orders.data[request.id]
    {
      if request.id in orders.data {
        return Ok(orders.data[request.id]);
      }
      if fillPrice <= 0.0 {
        return Err(ValueError);
      }
      var order := NewOrder(request, time);
      orders := orders.Put(request.id, order);
      if request.side.BUY? {
        order := FillBuy(order, fillPrice, time);
      } else {
        order := FillSell(order, fillPrice, time);
      }
      OrderKeepsValid(old(View()), request, fillPrice, time);
      return Ok(order);
    }

    method FillBuy(order: Order, fillPrice: real, time: Timestamp) returns (filled: Order)
      modifies `cash, `orders, `positions, `nextFillId
      ensures View() == AfterBuy(old(View()), order, fillPrice, time)
      ensures order.request.id in orders.data && filled == orders.data[order.request.id]
    {
      var quantity := order.request.quantity;
      var grossValue := Notional(fillPrice, quantity);
      var commission := Fee(grossValue, commissionRate);
      var totalCost := grossValue + commission;
      assert totalCost == BuyCost(old(View()), order.request, fillPrice);
      if totalCost > cash {
        filled := order.(status := REJECTED, rejection := Some(InsufficientCash(totalCost, cash)), updatedAt := time);
        orders := orders.Put(order.request.id, filled);
        return;
      }
      cash := cash - totalCost;
      var fill := Fill(nextFillId, quantity, fillPrice, time, commission);
      assert fill == FillFor(old(View()), order.request, fillPrice, time);
      filled := order.(fills := order.fills + [fill], status := FILLED, updatedAt := time);
      nextFillId := nextFillId + 1;
      orders := orders.Put(order.request.id, filled);
      ApplyPositionDelta(order.request, quantity, fillPrice);
      assert View() == AfterFill(old(View()), order, fillPrice, time, old(cash) - totalCost, quantity);
    }

    method FillSell(order: Order, fillPrice: real, time: Timestamp) returns (filled: Order)
      modifies `cash, `orders, `positions, `nextFillId
      ensures View() == AfterSell(old(View()), order, fillPrice, time)
      ensures order.request.id in orders.data && filled == orders.data[order.request.id]
    {
      var key := PositionKey(order.request.instrument, order.request.exchange);
      var available := if key in positions.data then positions.data[key].quantity else 0;
      var quantity := order.request.quantity;
      if quantity > available {
        filled := order.(status := REJECTED, rejection := Some(InsufficientPosition(quantity, available)),
                         updatedAt := time);
        orders := orders.Put(order.request.id, filled);
        return;
      }
      var grossValue := Notional(fillPrice, quantity);
      var commission := Fee(grossValue, commissionRate);
      cash := cash + (grossValue - commission);
      var fill := Fill(nextFillId, quantity, fillPrice, time, commission);
      assert fill == FillFor(old(View()), order.request, fillPrice, time);
      filled := order.(fills := order.fills + [fill], status := FILLED, updatedAt := time);
      nextFillId := nextFillId + 1;
      orders := orders.Put(order.request.id, filled);
      ApplyPositionDelta(order.request, 0 - quantity, fillPrice);
      assert View() == AfterFill(old(View()), order, fillPrice, time, old(cash) + (grossValue - commission),
             0 - quantity);
    }

    method ApplyPositionDelta(request: OrderRequest, delta: int, price: real)
      modifies `positions
      ensures positions == ApplyDelta(old(positions), request.instrument, request.exchange, delta, price)
    {
      var key := PositionKey(request.instrument, request.exchange);
      if key !in positions.data {
        positions := positions.Put(key, Position(request.instrument, request.exchange, delta, price));
        return;
      }
      var current := positions.data[key];
      var newQuantity := current.quantity + delta;
      var newAverage := current.averagePrice;
      if delta > 0 && current.quantity >= 0 {
        var totalCost := Notional(current.averagePrice, current.quantity) + Notional(price, delta);
        newAverage := if newQuantity != 0 then totalCost / newQuantity as real else current.averagePrice;
      }
      positions := positions.Put(key, Position(request.instrument, request.exchange, newQuantity, newAverage));
    }

    /** Every order here is settled when it is placed, so cancelling always raises. */
    method CancelOrder(id: OrderId, now: Timestamp) returns (r: Result<Order, Error>)
      requires Valid()
      modifies this
      ensures View() == old(View())
      ensures r == Err(if id in old(orders.data) then ValueError else KeyError)
    {
      if id !in orders.data {
        return Err(KeyError);
      }
      var order := orders.data[id];
      if order.status.IsTerminal() {
        return Err(ValueError);
      }
      assert false;
    }

    function GetOrder(id: OrderId): Option<Order>
      reads this
    {
      if id in orders.data then Some(orders.data[id]) else None
    }

    function ListPositions(): seq<Position>
      requires Valid()
      reads this
    {
      Select(positions.keys, positions.data, IsOpen)
    }
  }
}
