/** What every run of orders through the paper broker keeps: conservation, non-negative cash, average-cost bounds. */
module LedgerLaws {
  import opened Prelude
  import opened OrderedDict
  import opened Models
  import opened PaperBroking

  // ----- Conservation

  /** A position at its average cost. */
  function BookValue(p: Position): real { Notional(p.averagePrice, p.quantity) }

  function CommissionOn(fills: seq<Fill>): real {
    if |fills| == 0 then 0.0 else CommissionOn(fills[..|fills| - 1]) + fills[|fills| - 1].commission
  }

  function CommissionPaid(o: Order): real { CommissionOn(o.fills) }

  ghost function TotalBookValue(l: Ledger): real
    requires l.positions.Valid()
  {
    Total(l.positions, BookValue)
  }

  ghost function TotalCommission(l: Ledger): real
    requires l.orders.Valid()
  {
    Total(l.orders, CommissionPaid)
  }

  /** Cash, plus positions at cost, plus everything ever paid in commission. */
  ghost function Worth(l: Ledger): real
    requires l.Valid()
  {
    l.cash + TotalBookValue(l) + TotalCommission(l)
  }

  /** The profit an accepted sale realises against the average cost. */
  function RealizedBy(l: Ledger, request: OrderRequest, price: real): real {
    var key := PositionKey(request.instrument, request.exchange);
    if request.id !in l.orders.data && price > 0.0 && request.side.SELL? && request.quantity <= l.Held(key)
    then Notional(price - l.AveragePrice(key), request.quantity)
    else 0.0
  }

  lemma AveragingAddsValue(average: real, held: int, price: real, bought: int)
    requires held + bought != 0
    ensures Notional(AveragedPrice(average, held, price, bought), held + bought)
         == Notional(average, held) + Notional(price, bought)
  {}

  /** Averaging a purchase in adds exactly its gross value; a sale removes its shares at average cost. */
  lemma DeltaMovesBookValue(positions: Dict<string, Position>, instrument: string, exchange: string, delta: int,
                            price: real)
    requires ValidPositions(positions)
    requires delta > 0 || (delta < 0 && PositionKey(instrument, exchange) in positions.data)
    ensures Total(ApplyDelta(positions, instrument, exchange, delta, price), BookValue)
         == Total(positions, BookValue)
            + Notional(if delta > 0 then price else positions.data[PositionKey(instrument, exchange)].averagePrice,
                delta)
  {
    hide Notional, SumOf, PositionKey;
    var key := PositionKey(instrument, exchange);
    var after := ApplyDelta(positions, instrument, exchange, delta, price);
    TotalPut(positions, key, after.data[key], BookValue);
    if key in positions.data {
      var current := positions.data[key];
      NotionalSplits(current.averagePrice, current.quantity, delta);
      if delta > 0 {
        AveragingAddsValue(current.averagePrice, current.quantity, price, delta);
      }
    }
  }

  lemma OneFillCommission(fill: Fill)
    ensures CommissionOn([fill]) == fill.commission
  {
    assert [fill][..0] == [];
  }

  /** A fill pays its commission and moves the position; the cash is given. */
  lemma FillMovesWorth(l: Ledger, order: Order, price: real, time: Timestamp, cash: real, delta: int)
    requires ValidBut(l, order.request.id) && order.request.id in l.orders.data
    requires order.fills == [] && l.orders.data[order.request.id] == order
    requires ValidPositions(ApplyDelta(l.positions, order.request.instrument, order.request.exchange, delta, price))
    ensures AfterFill(l, order, price, time, cash, delta).Valid()
    ensures Worth(AfterFill(l, order, price, time, cash, delta))
         == cash + Total(ApplyDelta(l.positions, order.request.instrument, order.request.exchange, delta, price),
             BookValue)
            + TotalCommission(l) + Fee(Notional(price, order.request.quantity), l.rate)
  {
    hide Notional, Fee, SumOf, ApplyDelta;
    FillKeepsValid(l, order, price, time, cash, delta);
    var fill := FillFor(l, order.request, price, time);
    var settled := order.(status := FILLED, fills := order.fills + [fill], updatedAt := time);
    TotalPut(l.orders, order.request.id, settled, CommissionPaid);
    OneFillCommission(fill);
    assert settled.fills == [fill];
  }

  lemma RejectionMovesNoCommission(l: Ledger, order: Order, time: Timestamp, why: Rejection)
    requires ValidBut(l, order.request.id) && order.request.id in l.orders.data
    requires order.fills == [] && l.orders.data[order.request.id] == order
    ensures AfterRejection(l, order, time, why).orders.Valid()
    ensures TotalCommission(AfterRejection(l, order, time, why)) == TotalCommission(l)
  {
    TotalPut(l.orders, order.request.id, order.(status := REJECTED, rejection := Some(why), updatedAt := time),
        CommissionPaid);
  }

  lemma BuyConserves(l: Ledger, order: Order, price: real, time: Timestamp)
    requires ValidBut(l, order.request.id) && order.request.id in l.orders.data
    requires order.fills == [] && l.orders.data[order.request.id] == order
    ensures AfterBuy(l, order, price, time).Valid()
    ensures Worth(AfterBuy(l, order, price, time)) == l.cash + TotalBookValue(l) + TotalCommission(l)
  {
    hide Notional, Fee, SumOf, PositionKey, ApplyDelta, AfterFill;
    var request, cost := order.request, BuyCost(l, order.request, price);
    if cost > l.cash {
      RejectionKeepsValid(l, order, time, InsufficientCash(cost, l.cash));
      RejectionMovesNoCommission(l, order, time, InsufficientCash(cost, l.cash));
    } else {
      DeltaKeepsValid(l.positions, request.instrument, request.exchange, request.quantity, price);
      DeltaMovesBookValue(l.positions, request.instrument, request.exchange, request.quantity, price);
      FillMovesWorth(l, order, price, time, l.cash - cost, request.quantity);
    }
  }

  lemma SellConserves(l: Ledger, order: Order, price: real, time: Timestamp)
    requires ValidBut(l, order.request.id) && order.request.id in l.orders.data
    requires order.fills == [] && l.orders.data[order.request.id] == order
    ensures AfterSell(l, order, price, time).Valid()
    ensures var key := PositionKey(order.request.instrument, order.request.exchange);
            Worth(AfterSell(l, order, price, time)) == l.cash + TotalBookValue(l) + TotalCommission(l)
            + if order.request.quantity <= l.Held(key) then Notional(price - l.AveragePrice(key),
                order.request.quantity) else 0.0
  {
    hide Notional, Fee, SumOf, PositionKey, ApplyDelta, AfterFill;
    var request := order.request;
    var key := PositionKey(request.instrument, request.exchange);
    if request.quantity > l.Held(key) {
      RejectionKeepsValid(l, order, time, InsufficientPosition(request.quantity, l.Held(key)));
      RejectionMovesNoCommission(l, order, time, InsufficientPosition(request.quantity, l.Held(key)));
    } else {
      var average := l.AveragePrice(key);
      DeltaKeepsValid(l.positions, request.instrument, request.exchange, 0 - request.quantity, price);
      DeltaMovesBookValue(l.positions, request.instrument, request.exchange, 0 - request.quantity, price);
      FillMovesWorth(l, order, price, time, l.cash + SaleProceeds(l, request, price), 0 - request.quantity);
      NotionalSplits(average, request.quantity, request.quantity);
      NotionalDifference(price, average, request.quantity);
    }
  }

  lemma RecordingKeepsTotals(l: Ledger, order: Order)
    requires l.Valid() && order.request.id !in l.orders.data && order.fills == []
    ensures ValidBut(Recorded(l, order), order.request.id)
    ensures TotalCommission(Recorded(l, order)) == TotalCommission(l)
  {
    TotalPut(l.orders, order.request.id, order, CommissionPaid);
  }

  /** One order moves the worth by exactly the profit it realises. */
  lemma OrderConserves(l: Ledger, request: OrderRequest, price: real, time: Timestamp)
    requires l.Valid() && AfterOrder(l, request, price, time).Ok?
    ensures AfterOrder(l, request, price, time).value.Valid()
    ensures Worth(AfterOrder(l, request, price, time).value) == Worth(l) + RealizedBy(l, request, price)
  {
    hide Notional, Fee, SumOf, PositionKey, AfterBuy, AfterSell;
    if request.id !in l.orders.data {
      var order := NewOrder(request, time);
      RecordingKeepsTotals(l, order);
      if request.side.BUY? {
        BuyConserves(Recorded(l, order), order, price, time);
      } else {
        SellConserves(Recorded(l, order), order, price, time);
      }
    }
  }

  // ----- Runs

  datatype BrokerCall =
    | Place(request: OrderRequest, price: real, time: Timestamp)
    | Cancel(id: OrderId)

  /** A call that raises changes nothing; cancelling always raises, since every order is settled when placed. */
  function AfterCall(l: Ledger, call: BrokerCall): Ledger {
    match call
    case Place(request, price, time) => var r := AfterOrder(l, request, price, time); if r.Ok? then r.value else l
    case Cancel(_) => l
  }

  function AfterCalls(l: Ledger, calls: seq<BrokerCall>): Ledger {
    if |calls| == 0 then l else AfterCall(AfterCalls(l, calls[..|calls| - 1]), calls[|calls| - 1])
  }

  function RealizedOver(l: Ledger, calls: seq<BrokerCall>): real {
    if |calls| == 0 then 0.0
    else
      var init, last := calls[..|calls| - 1], calls[|calls| - 1];
      RealizedOver(l, init) + if last.Place? then RealizedBy(AfterCalls(l, init), last.request, last.price) else 0.0
  }

  lemma {:induction false} CallsKeepValid(l: Ledger, calls: seq<BrokerCall>)
    requires l.Valid()
    ensures AfterCalls(l, calls).Valid()
  {
    hide AfterOrder;
    if |calls| > 0 {
      CallsKeepValid(l, calls[..|calls| - 1]);
      var before, last := AfterCalls(l, calls[..|calls| - 1]), calls[|calls| - 1];
      if last.Place? && AfterOrder(before, last.request, last.price, last.time).Ok? {
        OrderKeepsValid(before, last.request, last.price, last.time);
      }
    }
  }

  lemma CallConserves(l: Ledger, call: BrokerCall)
    requires l.Valid() && AfterCall(l, call).Valid()
    ensures Worth(AfterCall(l, call)) == Worth(l) + if call.Place? then RealizedBy(l, call.request, call.price) else 0.0
  {
    hide Worth;
    if call.Place? && AfterOrder(l, call.request, call.price, call.time).Ok? {
      OrderConserves(l, call.request, call.price, call.time);
    }
  }

  lemma {:induction false} RunConserves(l: Ledger, calls: seq<BrokerCall>)
    requires l.Valid() && AfterCalls(l, calls).Valid()
    ensures Worth(AfterCalls(l, calls)) == Worth(l) + RealizedOver(l, calls)
  {
    hide Worth, AfterCall, RealizedBy;
    if |calls| > 0 {
      CallsKeepValid(l, calls[..|calls| - 1]);
      RunConserves(l, calls[..|calls| - 1]);
      CallConserves(AfterCalls(l, calls[..|calls| - 1]), calls[|calls| - 1]);
    }
  }

  /**
   * Conservation: after any run of purchases, partial or full sales, rejections, repeats and cancellations,
   * cash + positions at average cost + commissions paid = initial cash + profit realised over average cost.
   */
  lemma LedgerConservation(initialCash: real, rate: real, calls: seq<BrokerCall>)
    requires initialCash >= 0.0 && rate >= 0.0
    ensures var start := NewLedger(initialCash, rate);
            var l := AfterCalls(start, calls);
            && l.Valid()
            && l.cash + TotalBookValue(l) + TotalCommission(l) == initialCash + RealizedOver(start, calls)
  {
    hide AfterCalls, RealizedOver;
    var start := NewLedger(initialCash, rate);
    CallsKeepValid(start, calls);
    RunConserves(start, calls);
  }

  // ----- Cash is never negative

  /** The cash part of one order: a purchase that is accepted is affordable. */
  lemma OrderCash(l: Ledger, request: OrderRequest, price: real, time: Timestamp)
    requires AfterOrder(l, request, price, time).Ok?
    ensures AfterOrder(l, request, price, time).value.rate == l.rate
    ensures AfterOrder(l, request, price, time).value.cash >= l.cash
         || AfterOrder(l, request, price, time).value.cash >= 0.0
         || (request.side.SELL? && price > 0.0 && request.quantity <= l.Held(PositionKey(request.instrument,
             request.exchange))
             && AfterOrder(l, request, price, time).value.cash == l.cash + SaleProceeds(l, request, price))
  {
    hide Notional, Fee, PositionKey;
  }

  lemma ProceedsSign(l: Ledger, request: OrderRequest, price: real)
    requires price > 0.0 && l.rate >= 0.0
    ensures l.rate <= 1.0 <==> SaleProceeds(l, request, price) >= 0.0
    ensures BuyCost(l, request, price) > 0.0
  {
    var gross := Notional(price, request.quantity);
    assert gross > 0.0;
    assert SaleProceeds(l, request, price) == gross * (1.0 - l.rate);
    assert Fee(gross, l.rate) >= 0.0;
  }

  lemma {:induction false} CashStaysNonNegative(l: Ledger, calls: seq<BrokerCall>)
    requires l.cash >= 0.0 && 0.0 <= l.rate <= 1.0
    ensures AfterCalls(l, calls).cash >= 0.0 && AfterCalls(l, calls).rate == l.rate
  {
    hide AfterOrder, SaleProceeds, BuyCost;
    if |calls| > 0 {
      CashStaysNonNegative(l, calls[..|calls| - 1]);
      var before, last := AfterCalls(l, calls[..|calls| - 1]), calls[|calls| - 1];
      if last.Place? && AfterOrder(before, last.request, last.price, last.time).Ok? {
        OrderCash(before, last.request, last.price, last.time);
        if last.price > 0.0 {
          ProceedsSign(before, last.request, last.price);
        }
      }
    }
  }

  ghost predicate Broke(l: Ledger) {
    l.cash == 0.0 && l.rate >= 0.0 && forall key :: l.Held(key) == 0
  }

  lemma BrokeOrderIsRejected(l: Ledger, request: OrderRequest, price: real, time: Timestamp)
    requires Broke(l) && AfterOrder(l, request, price, time).Ok?
    ensures Broke(AfterOrder(l, request, price, time).value)
  {
    hide BuyCost, SaleProceeds, PositionKey;
    if request.id !in l.orders.data && price > 0.0 {
      ProceedsSign(Recorded(l, NewOrder(request, time)), request, price);
      assert l.Held(PositionKey(request.instrument, request.exchange)) == 0;
      var after := AfterOrder(l, request, price, time).value;
      assert after.positions == l.positions;
      assert forall key :: after.Held(key) == l.Held(key);
    }
  }

  lemma {:induction false} WithoutFundsNothingTrades(l: Ledger, calls: seq<BrokerCall>)
    requires Broke(l)
    ensures Broke(AfterCalls(l, calls))
  {
    hide AfterOrder;
    if |calls| > 0 {
      WithoutFundsNothingTrades(l, calls[..|calls| - 1]);
      var before, last := AfterCalls(l, calls[..|calls| - 1]), calls[|calls| - 1];
      if last.Place? && AfterOrder(before, last.request, last.price, last.time).Ok? {
        BrokeOrderIsRejected(before, last.request, last.price, last.time);
      }
    }
  }

  /** Spend everything on one share and sell it back: the sale costs more than it brings. */
  lemma OverdraftRun(initialCash: real, rate: real) returns (calls: seq<BrokerCall>)
    requires initialCash > 0.0 && rate > 1.0
    ensures AfterCalls(NewLedger(initialCash, rate), calls).cash < 0.0
  {
    var price, time := initialCash / (1.0 + rate), Timestamp(0, Date(2000, 1, 1));
    var buy := OrderRequest(OrderId("A", 0, KBuy), "A", "X", BUY, 1);
    var sell := OrderRequest(OrderId("A", 0, KSell), "A", "X", SELL, 1);
    calls := [Place(buy, price, time), Place(sell, price, time)];
    var l0 := NewLedger(initialCash, rate);
    assert price * (1.0 + rate) == initialCash && price > 0.0;
    assert Notional(price, 1) == price && Fee(price, rate) == price * rate;
    var l1 := AfterCall(l0, calls[0]);
    assert BuyCost(l0, buy, price) == initialCash;
    assert l1.cash == 0.0 && l1.Held(PositionKey("A", "X")) == 1;
    assert calls[..1] == [calls[0]] && calls[..1][..0] == [];
    assert AfterCalls(l0, calls[..1]) == l1;
    ProceedsSign(l1, sell, price);
  }

  /** Cash stays non-negative over every run exactly when the commission rate is at most 1, or there is no cash. */
  lemma CashSafetyExactly(initialCash: real, rate: real)
    requires initialCash >= 0.0 && rate >= 0.0
    ensures (forall calls :: AfterCalls(NewLedger(initialCash, rate), calls).cash >= 0.0)
            <==> rate <= 1.0 || initialCash == 0.0
  {
    var start := NewLedger(initialCash, rate);
    if rate > 1.0 && initialCash > 0.0 {
      var calls := OverdraftRun(initialCash, rate);
    } else {
      forall calls ensures AfterCalls(start, calls).cash >= 0.0 {
        if rate <= 1.0 {
          CashStaysNonNegative(start, calls);
        } else {
          WithoutFundsNothingTrades(start, calls);
        }
      }
    }
  }

  // ----- The average cost lies between the prices paid since the position was last flat

  /** What the shares now held under a key were bought for, one price per purchase since it was last flat. */
  function PricesSinceFlat(l: Ledger, calls: seq<BrokerCall>, key: string): seq<real> {
    if |calls| == 0 then []
    else
      var init, last := calls[..|calls| - 1], calls[|calls| - 1];
      var before, after := AfterCalls(l, init).Held(key), AfterCalls(l, calls).Held(key);
      if after == 0 then []
      else if after > before && last.Place? then PricesSinceFlat(l, init, key) + [last.price]
      else PricesSinceFlat(l, init, key)
  }

  ghost predicate Between(lo: real, prices: seq<real>, hi: real) {
    forall p | p in prices :: lo <= p <= hi
  }

  lemma NotionalIsMonotone(low: real, high: real, quantity: int)
    requires low <= high && quantity >= 0
    ensures Notional(low, quantity) <= Notional(high, quantity)
  {}

  lemma AveragePerShare(total: real, shares: int, price: real)
    requires shares > 0
    ensures total / shares as real >= price <==> total >= Notional(price, shares)
    ensures total / shares as real <= price <==> total <= Notional(price, shares)
  {
    QuotientBound(total, shares as real, price);
  }

  lemma AverageLiesBetween(average: real, held: int, price: real, bought: int, lo: real, hi: real)
    requires held >= 0 && bought > 0
    requires lo <= price <= hi && (held > 0 ==> lo <= average <= hi)
    ensures lo <= AveragedPrice(average, held, price, bought) <= hi
  {
    NotionalIsMonotone(lo, price, bought);
    NotionalIsMonotone(price, hi, bought);
    if held > 0 {
      NotionalIsMonotone(lo, average, held);
      NotionalIsMonotone(average, hi, held);
    } else {
      NoShares(average, lo, hi);
    }
    hide Notional;
    NotionalSplits(lo, held, bought);
    NotionalSplits(hi, held, bought);
    AveragePerShare(Notional(average, held) + Notional(price, bought), held + bought, lo);
    AveragePerShare(Notional(average, held) + Notional(price, bought), held + bought, hi);
  }

  lemma NoShares(a: real, b: real, c: real)
    ensures Notional(a, 0) == Notional(b, 0) == Notional(c, 0) == 0.0
  {}

  /** A position kept or sold down at the same average, or bought up at the averaged price. */
  ghost predicate PositionMoves(before: Ledger, after: Ledger, key: string, price: real) {
    var held := before.Held(key);
    || (after.Held(key) <= held && (held > 0 ==> after.AveragePrice(key) == before.AveragePrice(key)))
    || (after.Held(key) > held >= 0 &&
        after.AveragePrice(key) == if key in before.positions.data
                                   then AveragedPrice(before.AveragePrice(key), held, price, after.Held(key) - held)
                                   else price)
  }

  lemma DeltaMovesPosition(l: Ledger, instrument: string, exchange: string, delta: int, price: real, after: Ledger,
                           key: string)
    requires ValidPositions(l.positions) && delta != 0
    requires delta > 0 || PositionKey(instrument, exchange) in l.positions.data
    requires after.positions == ApplyDelta(l.positions, instrument, exchange, delta, price)
    ensures PositionMoves(l, after, key, price)
  {
    hide PositionKey, Notional;
    if key == PositionKey(instrument, exchange) {
      var held := l.Held(key);
      assert after.Held(key) == held + delta;
      if delta > 0 && key in l.positions.data {
        assert after.AveragePrice(key) == AveragedPrice(l.AveragePrice(key), held, price, delta);
      }
    } else {
      assert after.Held(key) == l.Held(key) && after.AveragePrice(key) == l.AveragePrice(key);
    }
  }

  lemma OrderMovesPosition(l: Ledger, request: OrderRequest, price: real, time: Timestamp, key: string)
    requires l.Valid() && AfterOrder(l, request, price, time).Ok?
    ensures PositionMoves(l, AfterOrder(l, request, price, time).value, key, price)
  {
    hide Notional, Fee, PositionKey, AveragedPrice, ApplyDelta, PositionMoves;
    var after := AfterOrder(l, request, price, time).value;
    if after.positions == l.positions {
      SamePositionsDoNotMove(l, after, key, price);
    } else {
      var delta := if request.side.BUY? then request.quantity else 0 - request.quantity;
      DeltaMovesPosition(l, request.instrument, request.exchange, delta, price, after, key);
    }
  }

  lemma SamePositionsDoNotMove(l: Ledger, after: Ledger, key: string, price: real)
    requires after.positions == l.positions
    ensures PositionMoves(l, after, key, price)
  {}

  lemma {:induction false} AverageIsBetweenPricesPaid(l: Ledger, calls: seq<BrokerCall>, key: string, lo: real,
                                                      hi: real)
    requires l.Valid() && l.Held(key) == 0
    requires Between(lo, PricesSinceFlat(l, calls, key), hi)
    ensures AfterCalls(l, calls).Held(key) >= 0
    ensures AfterCalls(l, calls).Held(key) == 0 <==> PricesSinceFlat(l, calls, key) == []
    ensures AfterCalls(l, calls).Held(key) > 0 ==> lo <= AfterCalls(l, calls).AveragePrice(key) <= hi
  {
    hide AfterOrder, AveragedPrice;
    if |calls| > 0 {
      var init, last := calls[..|calls| - 1], calls[|calls| - 1];
      var before := AfterCalls(l, init);
      CallsKeepValid(l, init);
      CallsKeepValid(l, calls);
      var prices := PricesSinceFlat(l, init, key);
      if AfterCalls(l, calls).Held(key) == 0 {
      } else {
        assert forall p | p in prices :: p in PricesSinceFlat(l, calls, key);
        AverageIsBetweenPricesPaid(l, init, key, lo, hi);
        if last.Place? && AfterOrder(before, last.request, last.price, last.time).Ok? {
          OrderMovesPosition(before, last.request, last.price, last.time, key);
          var after := AfterCalls(l, calls);
          if after.Held(key) > before.Held(key) {
            assert last.price in PricesSinceFlat(l, calls, key);
            AverageLiesBetween(before.AveragePrice(key), before.Held(key), last.price,
                               after.Held(key) - before.Held(key), lo, hi);
          }
        }
      }
    }
  }
}
