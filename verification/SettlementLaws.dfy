/** What one order does, told in the order's own price and quantity: cash, commission, average price, book entry. */
module SettlementLaws {
  import opened Prelude
  import opened OrderedDict
  import opened Models
  import opened Risk
  import opened PaperBroking
  import opened OrderManaging

  // ----- The broker

  /** The book shows the order filled, once and at once, with its own shares, price and commission. */
  ghost predicate ShowsFill(l: Ledger, after: Ledger, request: OrderRequest, price: real, time: Timestamp) {
    && after.orders.data.Keys == l.orders.data.Keys + {request.id}
    && (forall id | id in l.orders.data && id != request.id :: after.orders.data[id] == l.orders.data[id])
    && var o := after.orders.data[request.id];
       && o.request == request && o.status == FILLED && o.brokerId.None? && o.rejection.None?
       && o.createdAt == time && o.updatedAt == time && |o.fills| == 1
       && o.fills[0].quantity == request.quantity && o.fills[0].price == price && o.fills[0].time == time
       && o.fills[0].commission == price * request.quantity as real * l.rate
       && o.fills[0].fillId == l.nextFill && after.nextFill == l.nextFill + 1
  }

  /** The book shows the order rejected, and nothing else moved. */
  ghost predicate ShowsRejection(l: Ledger, after: Ledger, request: OrderRequest, time: Timestamp, why: Rejection) {
    && after == l.(orders := after.orders)
    && after.orders.data.Keys == l.orders.data.Keys + {request.id}
    && (forall id | id in l.orders.data && id != request.id :: after.orders.data[id] == l.orders.data[id])
    && after.orders.data[request.id] == Order(request, REJECTED, None, [], Some(why), time, time)
  }

  /** Only one position moved. */
  ghost predicate OtherPositionsStay(l: Ledger, after: Ledger, key: string) {
    && after.rate == l.rate
    && after.positions.data.Keys == l.positions.data.Keys + {key}
    && forall k | k in l.positions.data && k != key :: after.positions.data[k] == l.positions.data[k]
  }

  lemma FillIsShown(l: Ledger, order: Order, price: real, time: Timestamp, cash: real, delta: int)
    requires order == NewOrder(order.request, time) && order.request.id !in l.orders.data
    ensures var after := AfterFill(Recorded(l, order), order, price, time, cash, delta);
            ShowsFill(l, after, order.request, price, time) && after.cash == cash
  {
    hide ApplyDelta, PositionKey;
    var fill := FillFor(Recorded(l, order), order.request, price, time);
    assert fill.commission == price * order.request.quantity as real * l.rate;
  }

  /** The average price afterwards, times the shares then held, is what they cost. */
  ghost predicate MeanCost(after: real, average: real, held: int, price: real, bought: int) {
    after * (held + bought) as real == average * held as real + price * bought as real
  }

  lemma BuyMovesPosition(positions: Dict<string, Position>, instrument: string, exchange: string, bought: int,
                         price: real)
    requires ValidPositions(positions) && bought > 0
    ensures var key := PositionKey(instrument, exchange);
            var p := ApplyDelta(positions, instrument, exchange, bought, price).data[key];
            var held := if key in positions.data then positions.data[key].quantity else 0;
            var average := if key in positions.data then positions.data[key].averagePrice else 0.0;
            && p.quantity == held + bought
            && MeanCost(p.averagePrice, average, held, price, bought)
  {
    hide PositionKey;
    var key := PositionKey(instrument, exchange);
    if key in positions.data {
      var held, average := positions.data[key].quantity, positions.data[key].averagePrice;
      var total := Notional(average, held) + Notional(price, bought);
      assert total / (held + bought) as real * (held + bought) as real == total;
    }
  }

  lemma SaleMovesPosition(positions: Dict<string, Position>, instrument: string, exchange: string, sold: int,
                          price: real)
    requires sold > 0 && PositionKey(instrument, exchange) in positions.data
    ensures var key := PositionKey(instrument, exchange);
            var p := ApplyDelta(positions, instrument, exchange, 0 - sold, price).data[key];
            p.quantity == positions.data[key].quantity - sold && p.averagePrice == positions.data[key].averagePrice
  {
    hide PositionKey, AveragedPrice;
  }

  lemma DeltaMovesOnlyItsKey(positions: Dict<string, Position>, instrument: string, exchange: string, delta: int,
                             price: real)
    ensures var after, key := ApplyDelta(positions, instrument, exchange, delta, price),
                              PositionKey(instrument, exchange);
            && after.data.Keys == positions.data.Keys + {key}
            && forall k | k in positions.data && k != key :: after.data[k] == positions.data[k]
  {
    hide PositionKey, AveragedPrice;
  }

  lemma FillMovesPositions(l: Ledger, order: Order, price: real, time: Timestamp, cash: real, delta: int)
    ensures var after := AfterFill(Recorded(l, order), order, price, time, cash, delta);
            && after.positions
               == ApplyDelta(l.positions, order.request.instrument, order.request.exchange, delta, price)
            && after.rate == l.rate
  {
    hide ApplyDelta;
  }

  lemma RejectionIsShown(l: Ledger, order: Order, time: Timestamp, why: Rejection)
    requires order == NewOrder(order.request, time) && order.request.id !in l.orders.data
    ensures ShowsRejection(l, AfterRejection(Recorded(l, order), order, time, why), order.request, time, why)
  {}

  lemma PurchaseBranches(l: Ledger, request: OrderRequest, price: real, time: Timestamp, cost: real)
    requires request.side.BUY? && request.id !in l.orders.data && price > 0.0
    requires cost == price * request.quantity as real + price * request.quantity as real * l.rate
    ensures var order := NewOrder(request, time);
            AfterOrder(l, request, price, time)
            == Ok(if cost <= l.cash
                  then AfterFill(Recorded(l, order), order, price, time, l.cash - cost, request.quantity)
                  else AfterRejection(Recorded(l, order), order, time, InsufficientCash(cost, l.cash)))
  {
    hide AfterFill, AfterRejection;
    assert BuyCost(Recorded(l, NewOrder(request, time)), request, price)
        == price * request.quantity as real + price * request.quantity as real * l.rate;
  }

  lemma SaleBranches(l: Ledger, request: OrderRequest, price: real, time: Timestamp)
    requires request.side.SELL? && request.id !in l.orders.data && price > 0.0
    ensures var order, value := NewOrder(request, time), price * request.quantity as real;
            var held := l.Held(PositionKey(request.instrument, request.exchange));
            AfterOrder(l, request, price, time)
            == Ok(if request.quantity <= held
                  then AfterFill(Recorded(l, order), order, price, time, l.cash + (value - value * l.rate),
                                 0 - request.quantity)
                  else AfterRejection(Recorded(l, order), order, time, InsufficientPosition(request.quantity, held)))
  {
    hide AfterFill, AfterRejection, PositionKey;
    assert SaleProceeds(Recorded(l, NewOrder(request, time)), request, price)
        == price * request.quantity as real - price * request.quantity as real * l.rate;
  }

  /** The shares bought join the position at their cost. */
  ghost predicate Joins(l: Ledger, after: Ledger, key: string, bought: int, price: real) {
    && OtherPositionsStay(l, after, key)
    && after.Held(key) == l.Held(key) + bought
    && MeanCost(after.AveragePrice(key), l.AveragePrice(key), l.Held(key), price, bought)
  }

  lemma BoughtSharesJoin(l: Ledger, order: Order, price: real, time: Timestamp, cash: real)
    requires l.Valid()
    ensures Joins(l, AfterFill(Recorded(l, order), order, price, time, cash, order.request.quantity),
                  PositionKey(order.request.instrument, order.request.exchange), order.request.quantity, price)
  {
    hide PositionKey, ApplyDelta, AfterFill, MeanCost;
    var request := order.request;
    FillMovesPositions(l, order, price, time, cash, request.quantity);
    BuyMovesPosition(l.positions, request.instrument, request.exchange, request.quantity, price);
    DeltaMovesOnlyItsKey(l.positions, request.instrument, request.exchange, request.quantity, price);
  }

  /** The shares sold leave the position; what the others cost stays. */
  ghost predicate Leaves(l: Ledger, after: Ledger, key: string, sold: int) {
    && OtherPositionsStay(l, after, key)
    && after.Held(key) == l.Held(key) - sold
    && after.AveragePrice(key) == l.AveragePrice(key)
  }

  lemma SoldSharesLeave(l: Ledger, order: Order, price: real, time: Timestamp, cash: real)
    requires order.request.quantity <= l.Held(PositionKey(order.request.instrument, order.request.exchange))
    ensures Leaves(l, AfterFill(Recorded(l, order), order, price, time, cash, 0 - order.request.quantity),
                   PositionKey(order.request.instrument, order.request.exchange), order.request.quantity)
  {
    hide PositionKey, ApplyDelta, AfterFill;
    var request := order.request;
    FillMovesPositions(l, order, price, time, cash, 0 - request.quantity);
    SaleMovesPosition(l.positions, request.instrument, request.exchange, request.quantity, price);
    DeltaMovesOnlyItsKey(l.positions, request.instrument, request.exchange, 0 - request.quantity, price);
  }

  /**
   * A purchase under a new id pays price times quantity and the commission on it, and is filled, when the cash covers
   * both; otherwise it is rejected and only the book grows. The average price is the mean cost of the shares held.
   */
  lemma PurchaseSettles(l: Ledger, request: OrderRequest, price: real, time: Timestamp)
    requires l.Valid() && request.side.BUY? && request.id !in l.orders.data && price > 0.0
    ensures var r := AfterOrder(l, request, price, time);
            var cost := price * request.quantity as real + price * request.quantity as real * l.rate;
            && r.Ok?
            && if cost <= l.cash then
                 && ShowsFill(l, r.value, request, price, time)
                 && Joins(l, r.value, PositionKey(request.instrument, request.exchange), request.quantity, price)
                 && r.value.cash == l.cash - cost
               else
                 ShowsRejection(l, r.value, request, time, InsufficientCash(cost, l.cash))
  {
    hide AfterOrder, PositionKey, Joins, ShowsFill, ShowsRejection, AfterFill, AfterRejection, Recorded, Ledger.Valid;
    var order := NewOrder(request, time);
    var cost := price * request.quantity as real + price * request.quantity as real * l.rate;
    PurchaseBranches(l, request, price, time, cost);
    if cost <= l.cash {
      FillIsShown(l, order, price, time, l.cash - cost, request.quantity);
      BoughtSharesJoin(l, order, price, time, l.cash - cost);
    } else {
      RejectionIsShown(l, order, time, InsufficientCash(cost, l.cash));
    }
  }

  /**
   * A sale under a new id is filled when that many shares are held, and earns price times quantity less the commission;
   * otherwise it is rejected. It never moves the average price.
   */
  lemma SaleSettles(l: Ledger, request: OrderRequest, price: real, time: Timestamp)
    requires request.side.SELL? && request.id !in l.orders.data && price > 0.0
    ensures var r, value := AfterOrder(l, request, price, time), price * request.quantity as real;
            var held := l.Held(PositionKey(request.instrument, request.exchange));
            && r.Ok?
            && if request.quantity <= held then
                 && ShowsFill(l, r.value, request, price, time)
                 && Leaves(l, r.value, PositionKey(request.instrument, request.exchange), request.quantity)
                 && r.value.cash == l.cash + (value - value * l.rate)
               else
                 ShowsRejection(l, r.value, request, time, InsufficientPosition(request.quantity, held))
  {
    hide AfterOrder, PositionKey, Leaves, ShowsFill, ShowsRejection, AfterFill, AfterRejection, Recorded;
    var order, value := NewOrder(request, time), price * request.quantity as real;
    var held := l.Held(PositionKey(request.instrument, request.exchange));
    SaleBranches(l, request, price, time);
    if request.quantity <= held {
      FillIsShown(l, order, price, time, l.cash + (value - value * l.rate), 0 - request.quantity);
      SoldSharesLeave(l, order, price, time, l.cash + (value - value * l.rate));
    } else {
      RejectionIsShown(l, order, time, InsufficientPosition(request.quantity, held));
    }
  }

  // ----- Submissions

  /** What a filled purchase did: the shares, what they cost with commission, and the book entry. */
  ghost predicate Buys(l: Ledger, after: Ledger, request: OrderRequest, price: real, time: Timestamp) {
    && ShowsFill(l, after, request, price, time)
    && Joins(l, after, PositionKey(request.instrument, request.exchange), request.quantity, price)
    && after.cash == l.cash - (price * request.quantity as real + price * request.quantity as real * l.rate)
  }

  ghost predicate Sells(l: Ledger, after: Ledger, request: OrderRequest, price: real, time: Timestamp) {
    && ShowsFill(l, after, request, price, time)
    && Leaves(l, after, PositionKey(request.instrument, request.exchange), request.quantity)
    && after.cash == l.cash + (price * request.quantity as real - price * request.quantity as real * l.rate)
  }

  /** So many shares fit the capital bounds, the risk budget unless sized by weight, and the cap, if any. */
  predicate Allowed(limits: RiskLimits, cash: real, a: BuyArgs, n: int) {
    && FitsCapital(limits, cash, a.fillPrice, a.initialCapital, a.commissionRate, n)
    && (!a.sizeByWeight ==> FitsRisk(limits, a.fillPrice, a.stopFraction, n))
    && (a.maxQuantity.Some? ==> n <= a.maxQuantity.value)
  }

  ghost predicate GreatestAllowed(limits: RiskLimits, cash: real, a: BuyArgs, quantity: int) {
    forall n | n > 0 :: n <= quantity <==> Allowed(limits, cash, a, n)
  }

  /** The capped size of a submission, before it is known to be positive. */
  function CappedSize(limits: RiskLimits, cash: real, a: BuyArgs): int {
    var sized := Sized(limits, cash, a);
    if sized.Err? then 0 else if a.maxQuantity.Some? then MinInt(sized.value, a.maxQuantity.value) else sized.value
  }

  lemma CappedSizeIsGreatest(limits: RiskLimits, cash: real, a: BuyArgs)
    requires a.fillPrice > 0.0 && a.commissionRate >= 0.0 && (a.sizeByWeight || a.stopFraction > 0.0)
    ensures Sized(limits, cash, a).Ok? && GreatestAllowed(limits, cash, a, CappedSize(limits, cash, a))
    ensures CappedSize(limits, cash, a) > 0 <==> Allowed(limits, cash, a, 1)
  {
    hide SizeByWeight, SizeNewPosition, FitsCapital, FitsRisk;
    if a.sizeByWeight {
      SizeByWeightIsMaximal(limits, cash, a.fillPrice, a.initialCapital, a.commissionRate);
    } else {
      SizeNewPositionIsMaximal(limits, cash, a.fillPrice, a.stopFraction, a.initialCapital, a.commissionRate);
    }
  }

  lemma AllowedIsAffordable(limits: RiskLimits, cash: real, a: BuyArgs, n: int)
    requires a.fillPrice > 0.0 && Allowed(limits, cash, a, n)
    ensures a.fillPrice * n as real + a.fillPrice * n as real * a.commissionRate <= cash
  {
    CostWithFee(a.fillPrice, n, a.commissionRate);
  }

  lemma GateOpens(limits: RiskLimits, r: RiskState, equity: real, count: int)
    ensures BlockReasons(limits, r, equity, count) == [] <==> MayOpen(limits, r, equity, count)
  {}

  /**
   * A purchase under a new id is filled exactly when the gate is open and one share is allowed; it then buys the
   * greatest allowed number of shares. Otherwise nothing moves, and reasons are given.
   */
  lemma GatedBuySettles(limits: RiskLimits, l: Ledger, r: RiskState, a: BuyArgs)
    requires l.Valid() && a.id !in l.orders.data && !Blank(a.instrument)
    requires a.fillPrice > 0.0 && a.commissionRate == l.rate && (a.sizeByWeight || a.stopFraction > 0.0)
    ensures var s := AfterBuySubmission(limits, l, r, a);
            && s.Ok?
            && if MayOpen(limits, r, a.equity, OpenPositions(l)) && Allowed(limits, l.cash, a, 1) then
                 && s.value.1.submitted && s.value.1.reasons == []
                 && a.id in s.value.0.orders.data && s.value.1.order == Some(s.value.0.orders.data[a.id])
                 && var quantity := s.value.0.orders.data[a.id].request.quantity;
                    GreatestAllowed(limits, l.cash, a, quantity) &&
                    Buys(l, s.value.0, OrderRequest(a.id, a.instrument, a.exchange, BUY, quantity), a.fillPrice, a.time)
               else
                 && s.value.0 == l && !s.value.1.submitted && s.value.1.order.None? && s.value.1.reasons != []
                 && s.value.1.reasons ==
                    if !MayOpen(limits, r, a.equity, OpenPositions(l))
                    then BlockReasons(limits, r, a.equity, OpenPositions(l))
                    else if a.maxQuantity.Some? && a.maxQuantity.value < 1 then [MaxQuantityNotPositive]
                    else [QuantityIsZero]
  {
    hide AfterOrder, Blank, BlockReasons, MayOpen, Sized, Allowed, GreatestAllowed, Joins, OpenPositions, PositionKey;
    GateOpens(limits, r, a.equity, OpenPositions(l));
    RateIsNonNegative(l);
    CappedSizeIsGreatest(limits, l.cash, a);
    CapAllowsOne(limits, l.cash, a);
    var quantity := CappedSize(limits, l.cash, a);
    if MayOpen(limits, r, a.equity, OpenPositions(l)) && Allowed(limits, l.cash, a, 1) {
      assert Allowed(limits, l.cash, a, quantity) by { GreatestIsAllowed(limits, l.cash, a, quantity); }
      AllowedIsAffordable(limits, l.cash, a, quantity);
      PurchaseSettles(l, OrderRequest(a.id, a.instrument, a.exchange, BUY, quantity), a.fillPrice, a.time);
    }
  }

  lemma RateIsNonNegative(l: Ledger)
    requires l.Valid()
    ensures l.rate >= 0.0
  {}

  lemma GreatestIsAllowed(limits: RiskLimits, cash: real, a: BuyArgs, quantity: int)
    requires GreatestAllowed(limits, cash, a, quantity) && quantity > 0
    ensures Allowed(limits, cash, a, quantity)
  {}

  lemma CapAllowsOne(limits: RiskLimits, cash: real, a: BuyArgs)
    ensures Allowed(limits, cash, a, 1) && a.maxQuantity.Some? ==> a.maxQuantity.value >= 1
  {}

  /** A sale under a new id needs no approval: it is filled when the shares are held, and rejected otherwise. */
  lemma SaleSubmissionSettles(l: Ledger, a: SellArgs)
    requires a.id !in l.orders.data && !Blank(a.instrument) && a.fillPrice > 0.0 && a.quantity > 0
    ensures var s, request := AfterSellSubmission(l, a), OrderRequest(a.id, a.instrument, a.exchange, SELL, a.quantity);
            && s.Ok? && a.id in s.value.0.orders.data && s.value.1.order == Some(s.value.0.orders.data[a.id])
            && if a.quantity <= l.Held(PositionKey(a.instrument, a.exchange)) then
                 s.value.1.submitted && s.value.1.reasons == [] && Sells(l, s.value.0, request, a.fillPrice, a.time)
               else
                 var why := InsufficientPosition(a.quantity, l.Held(PositionKey(a.instrument, a.exchange)));
                 && !s.value.1.submitted && s.value.1.reasons == [BrokerRejected(why)]
                 && ShowsRejection(l, s.value.0, request, a.time, why)
  {
    hide AfterOrder, Blank, Leaves, PositionKey;
    SaleSettles(l, OrderRequest(a.id, a.instrument, a.exchange, SELL, a.quantity), a.fillPrice, a.time);
  }

  /** Orders that raise: a known id never does, a new one does for a blank name or a price that is not positive. */
  lemma SaleRaisesExactly(l: Ledger, a: SellArgs)
    ensures AfterSellSubmission(l, a).Err? <==>
            a.id !in l.orders.data && (Blank(a.instrument) || a.quantity <= 0 || a.fillPrice <= 0.0)
  {
    hide Blank, AfterBuy, AfterSell;
  }

  // ----- Names

  lemma {:induction false} UpperIsCharByChar(s: string)
    ensures |Upper(s)| == |s|
    ensures forall i | 0 <= i < |s| ::
              Upper(s)[i] == if 'a' <= s[i] <= 'z' then s[i] - 'a' + 'A' else s[i]
  {
    if s != "" {
      UpperIsCharByChar(s[1..]);
    }
  }

  /** Two names differ at most in the case of their letters. */
  ghost predicate SameButCase(s: string, t: string) {
    |s| == |t| && forall i | 0 <= i < |s| ::
      (if 'a' <= s[i] <= 'z' then s[i] - 'a' + 'A' else s[i]) == (if 'a' <= t[i] <= 'z' then t[i] - 'a' + 'A' else t[i])
  }

  /** On one exchange, two instruments share a position exactly when their names differ at most in case. */
  lemma PositionsAreKeptByName(exchange: string, instrument: string, other: string)
    ensures PositionKey(instrument, exchange) == PositionKey(other, exchange) <==> SameButCase(instrument, other)
  {
    UpperIsCharByChar(instrument);
    UpperIsCharByChar(other);
    hide Upper;
    var head := Upper(exchange) + ":";
    assert PositionKey(instrument, exchange)[|head|..] == Upper(instrument);
    assert PositionKey(other, exchange)[|head|..] == Upper(other);
  }

  /** Only white space around what is kept, which starts and ends with something else. */
  ghost predicate Trims(s: string, before: string, kept: string, after: string) {
    && s == before + kept + after
    && (forall c | c in before :: IsSpace(c)) && (forall c | c in after :: IsSpace(c))
    && (kept != "" ==> !IsSpace(kept[0]) && !IsSpace(kept[|kept| - 1]))
  }

  /** Stripping removes white space at both ends, and only that. */
  lemma {:induction false} StripTrims(s: string) returns (before: string, after: string)
    ensures Trims(s, before, Strip(s), after)
  {
    before, after := "", "";
    if |s| > 0 && IsSpace(s[0]) {
      before, after := StripTrims(s[1..]);
      assert s == ([s[0]] + before) + Strip(s) + after;
      before := [s[0]] + before;
    } else if |s| > 0 && IsSpace(s[|s| - 1]) {
      before, after := StripTrims(s[..|s| - 1]);
      assert s == before + Strip(s) + (after + [s[|s| - 1]]);
      after := after + [s[|s| - 1]];
    }
  }

  /** A string is blank exactly when it holds nothing but white space. */
  lemma BlankIsAllSpace(s: string)
    ensures Blank(s) <==> forall c | c in s :: c == ' ' || c == '\t' || c == '\n' || c == '\r'
  {
    var before, after := StripTrims(s);
    if Strip(s) != "" {
      assert Strip(s)[0] in s;
    }
  }
}
