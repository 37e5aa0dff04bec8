/** Risk-gated orders: the only path to the broker (execution/order_manager.py). */
module OrderManaging {
  import opened Prelude
  import opened OrderedDict
  import opened Models
  import opened Risk
  import opened PaperBroking

  datatype Outcome = Outcome(submitted: bool, order: Option<Order>, reasons: seq<BlockReason>)

  function Blocked(reasons: seq<BlockReason>): Outcome { Outcome(false, None, reasons) }

  datatype BuyArgs = BuyArgs(id: OrderId, instrument: string, exchange: string, equity: real, fillPrice: real,
                             stopFraction: real, initialCapital: real, commissionRate: real, time: Timestamp,
                             maxQuantity: Option<int>, sizeByWeight: bool)

  datatype SellArgs = SellArgs(id: OrderId, instrument: string, exchange: string, quantity: int,
                               fillPrice: real, time: Timestamp)

  /** How many positions hold shares. */
  function LongCount(positions: seq<Position>): nat {
    if |positions| == 0 then 0
    else LongCount(positions[..|positions| - 1]) + if positions[|positions| - 1].quantity > 0 then 1 else 0
  }

  function OpenPositions(l: Ledger): nat
    requires forall k | k in l.positions.keys :: k in l.positions.data
  {
    LongCount(Select(l.positions.keys, l.positions.data, IsOpen))
  }

  function Sized(limits: RiskLimits, cash: real, a: BuyArgs): Result<nat, Error> {
    if a.sizeByWeight then SizeByWeight(limits, cash, a.fillPrice, a.initialCapital, a.commissionRate)
    else SizeNewPosition(limits, cash, a.fillPrice, a.stopFraction, a.initialCapital, a.commissionRate)
  }

  function RejectionReasons(order: Order): seq<BlockReason> {
    if order.status.REJECTED? && order.rejection.Some? then [BrokerRejected(order.rejection.value)] else []
  }

  function Placed(order: Order): Outcome {
    Outcome(!order.status.REJECTED?, Some(order), RejectionReasons(order))
  }

  /** The id an order was placed under is on the book afterwards. */
  lemma PlacedIsOnTheBook(l: Ledger, request: OrderRequest, price: real, time: Timestamp)
    requires AfterOrder(l, request, price, time).Ok?
    ensures request.id in AfterOrder(l, request, price, time).value.orders.data
  {
    hide Notional, Fee, ApplyDelta, PositionKey;
  }

  /** Build the request and place it. */
  function AfterPlacing(l: Ledger, id: OrderId, instrument: string, exchange: string, side: OrderSide,
                        quantity: int, price: real, time: Timestamp): Result<(Ledger, Outcome), Error>
  {
    match MakeRequest(id, instrument, exchange, side, quantity)
    case Err(e) => Err(e)
    case Ok(request) =>
      match AfterOrder(l, request, price, time)
      case Err(e) => Err(e)
      case Ok(after) => PlacedIsOnTheBook(l, request, price, time); Ok((after, Placed(after.orders.data[id])))
  }

  /** submit_buy: a known id returns its order, a blocked or zero-sized order returns reasons, the rest is placed. */
  function AfterBuySubmission(limits: RiskLimits, l: Ledger, r: RiskState, a: BuyArgs): Result<(Ledger, Outcome), Error>
    requires l.Valid()
  {
    if a.id in l.orders.data then Ok((l, Outcome(true, Some(l.orders.data[a.id]), [])))
    else
      var reasons := BlockReasons(limits, r, a.equity, OpenPositions(l));
      if reasons != [] then Ok((l, Blocked(reasons)))
      else
        var sized := Sized(limits, l.cash, a);
        if sized.Err? then Err(sized.error)
        else if a.maxQuantity.Some? && a.maxQuantity.value < 1 then Ok((l, Blocked([MaxQuantityNotPositive])))
        else
          var quantity := if a.maxQuantity.Some? then MinInt(sized.value, a.maxQuantity.value) else sized.value;
          if quantity <= 0 then Ok((l, Blocked([QuantityIsZero])))
          else AfterPlacing(l, a.id, a.instrument, a.exchange, BUY, quantity, a.fillPrice, a.time)
  }

  /** submit_sell: closing is never gated. */
  function AfterSellSubmission(l: Ledger, a: SellArgs): Result<(Ledger, Outcome), Error> {
    if a.id in l.orders.data then Ok((l, Outcome(true, Some(l.orders.data[a.id]), [])))
    else AfterPlacing(l, a.id, a.instrument, a.exchange, SELL, a.quantity, a.fillPrice, a.time)
  }

  lemma PlacingKeepsValid(l: Ledger, id: OrderId, instrument: string, exchange: string, side: OrderSide,
                          quantity: int, price: real, time: Timestamp)
    requires l.Valid()
    ensures var r := AfterPlacing(l, id, instrument, exchange, side, quantity, price, time); r.Ok? ==> r.value.0.Valid()
  {
    hide AfterOrder, Blank;
    var made := MakeRequest(id, instrument, exchange, side, quantity);
    if made.Ok? && AfterOrder(l, made.value, price, time).Ok? {
      OrderKeepsValid(l, made.value, price, time);
    }
  }

  lemma BuySubmissionKeepsValid(limits: RiskLimits, l: Ledger, r: RiskState, a: BuyArgs)
    requires l.Valid()
    ensures AfterBuySubmission(limits, l, r, a).Ok? ==> AfterBuySubmission(limits, l, r, a).value.0.Valid()
  {
    hide AfterPlacing, Sized, BlockReasons;
    var sized := Sized(limits, l.cash, a);
    if sized.Ok? {
      var quantity := if a.maxQuantity.Some? then MinInt(sized.value, a.maxQuantity.value) else sized.value;
      PlacingKeepsValid(l, a.id, a.instrument, a.exchange, BUY, quantity, a.fillPrice, a.time);
    }
  }

  lemma SellSubmissionKeepsValid(l: Ledger, a: SellArgs)
    requires l.Valid()
    ensures AfterSellSubmission(l, a).Ok? ==> AfterSellSubmission(l, a).value.0.Valid()
  {
    PlacingKeepsValid(l, a.id, a.instrument, a.exchange, SELL, a.quantity, a.fillPrice, a.time);
  }

  class OrderManager {
    const broker: PaperBroker
    const riskEngine: RiskEngine

    constructor (broker: PaperBroker, riskEngine: RiskEngine)
      ensures this.broker == broker && this.riskEngine == riskEngine
    {
      this.broker, this.riskEngine := broker, riskEngine;
    }

    method SubmitBuy(a: BuyArgs) returns (r: Result<Outcome, Error>)
      requires broker.Valid()
      modifies broker
      ensures broker.Valid()
      ensures var spec := AfterBuySubmission(riskEngine.limits, old(broker.View()), old(riskEngine.View()), a);
              if spec.Err? then r == Err(spec.error) && broker.View() == old(broker.View())
              else r == Ok(spec.value.1) && broker.View() == spec.value.0
    {
      hide AfterOrder, SizeNewPosition, SizeByWeight, BlockReasons, MayOpen;
      var existing := broker.GetOrder(a.id);
      if existing.Some? {
        return Ok(Outcome(true, existing, []));
      }
      var openPositionCount := LongCount(broker.ListPositions());
      var reasons := riskEngine.EvaluateNewPosition(a.equity, openPositionCount);
      if reasons != [] {
        return Ok(Blocked(reasons));
      }
      var cash := broker.cash;
      var sized: Result<nat, Error>;
      if a.sizeByWeight {
        sized := SizeByWeight(riskEngine.limits, cash, a.fillPrice, a.initialCapital, a.commissionRate);
      } else {
        sized := SizeNewPosition(riskEngine.limits, cash, a.fillPrice, a.stopFraction, a.initialCapital,
            a.commissionRate);
      }
      if sized.Err? {
        return Err(sized.error);
      }
      var quantity := sized.value;
      if a.maxQuantity.Some? {
        if a.maxQuantity.value < 1 {
          return Ok(Blocked([MaxQuantityNotPositive]));
        }
        quantity := MinInt(quantity, a.maxQuantity.value);
      }
      if quantity <= 0 {
        return Ok(Blocked([QuantityIsZero]));
      }
      var request := MakeRequest(a.id, a.instrument, a.exchange, BUY, quantity);
      if request.Err? {
        return Err(request.error);
      }
      var order := broker.PlaceOrder(request.value, a.fillPrice, a.time);
      if order.Err? {
        return Err(order.error);
      }
      return Ok(Placed(order.value));
    }

    /** Closing a position is always permitted, whatever the kill switch and the losses say. */
    method SubmitSell(a: SellArgs) returns (r: Result<Outcome, Error>)
      requires broker.Valid()
      modifies broker
      ensures broker.Valid()
      ensures var spec := AfterSellSubmission(old(broker.View()), a);
              if spec.Err? then r == Err(spec.error) && broker.View() == old(broker.View())
              else r == Ok(spec.value.1) && broker.View() == spec.value.0
    {
      hide AfterOrder;
      var existing := broker.GetOrder(a.id);
      if existing.Some? {
        return Ok(Outcome(true, existing, []));
      }
      var request := MakeRequest(a.id, a.instrument, a.exchange, SELL, a.quantity);
      if request.Err? {
        return Err(request.error);
      }
      var order := broker.PlaceOrder(request.value, a.fillPrice, a.time);
      if order.Err? {
        return Err(order.error);
      }
      return Ok(Placed(order.value));
    }

    /** The ids of orders that should have settled but have not; in paper mode there are none. */
    method Reconcile() returns (issues: seq<OrderId>)
      requires broker.Valid()
      ensures issues == []
    {
      issues := [];
      for i := 0 to |broker.orders.keys|
        invariant issues == []
      {
        var order := broker.orders.data[broker.orders.keys[i]];
        if !order.status.IsTerminal() {
          issues := issues + [order.request.id];
        }
      }
    }
  }

  // ----- Runs of gated orders, marks and resets

  datatype Desk = Desk(ledger: Ledger, risk: RiskState)

  datatype DeskEvent = BuyEvent(buy: BuyArgs) | SellEvent(sell: SellArgs) | RiskUpdate(event: RiskEvent)

  /** A call that raises changes nothing. */
  function AfterEvent(limits: RiskLimits, d: Desk, e: DeskEvent): Desk
    requires d.ledger.Valid()
  {
    match e
    case BuyEvent(a) =>
      var r := AfterBuySubmission(limits, d.ledger, d.risk, a); if r.Ok? then d.(ledger := r.value.0) else d
    case SellEvent(a) =>
      var r := AfterSellSubmission(d.ledger, a); if r.Ok? then d.(ledger := r.value.0) else d
    case RiskUpdate(event) => d.(risk := Apply(limits, d.risk, event))
  }

  lemma EventKeepsValid(limits: RiskLimits, d: Desk, e: DeskEvent)
    requires d.ledger.Valid()
    ensures AfterEvent(limits, d, e).ledger.Valid()
  {
    hide AfterBuySubmission, AfterSellSubmission, Apply;
    match e
    case BuyEvent(a) => BuySubmissionKeepsValid(limits, d.ledger, d.risk, a);
    case SellEvent(a) => SellSubmissionKeepsValid(d.ledger, a);
    case RiskUpdate(_) =>
  }

  /** The state after a run, from a fresh desk. */
  function RunDesk(limits: RiskLimits, start: Ledger, events: seq<DeskEvent>): (d: Desk)
    requires start.Valid()
    ensures d.ledger.Valid()
  {
    if |events| == 0 then Desk(start, FRESH)
    else
      var d := RunDesk(limits, start, events[..|events| - 1]);
      EventKeepsValid(limits, d, events[|events| - 1]);
      AfterEvent(limits, d, events[|events| - 1])
  }

  // ----- The number of open positions is bounded

  predicate IsLong(p: Position) { p.quantity > 0 }

  lemma {:induction false} LongCountIsCount(keys: seq<string>, data: map<string, Position>)
    requires forall k | k in keys :: k in data
    ensures LongCount(Select(keys, data, IsOpen)) == |Select(keys, data, IsLong)|
  {
    if |keys| > 0 {
      LongCountIsCount(keys[..|keys| - 1], data);
      var before, p := Select(keys[..|keys| - 1], data, IsOpen), data[keys[|keys| - 1]];
      assert (before + [p])[..|before|] == before;
    }
  }

  lemma DeltaMovesCount(l: Ledger, instrument: string, exchange: string, delta: int, price: real)
    requires ValidPositions(l.positions)
    requires delta > 0 || (delta < 0 && PositionKey(instrument, exchange) in l.positions.data)
    ensures Count(ApplyDelta(l.positions, instrument, exchange, delta, price), IsLong)
         <= Count(l.positions, IsLong) + if delta > 0 then 1 else 0
  {
    hide PositionKey, Notional, AveragedPrice;
    var key := PositionKey(instrument, exchange);
    CountPut(l.positions, key, ApplyDelta(l.positions, instrument, exchange, delta, price).data[key], IsLong);
  }

  /** An order leaves the positions alone or moves them by its own shares. */
  lemma OrderMovesPositions(l: Ledger, request: OrderRequest, price: real, time: Timestamp)
    requires AfterOrder(l, request, price, time).Ok?
    ensures var after := AfterOrder(l, request, price, time).value;
            var key := PositionKey(request.instrument, request.exchange);
            var delta := if request.side.BUY? then request.quantity else 0 - request.quantity;
            after.positions == l.positions ||
            (after.positions == ApplyDelta(l.positions, request.instrument, request.exchange, delta, price) &&
             (delta > 0 || key in l.positions.data))
  {
    hide PositionKey, Notional, Fee, ApplyDelta;
  }

  lemma PositionsAreValid(l: Ledger)
    requires l.Valid()
    ensures ValidPositions(l.positions) && l.positions.Valid()
  {}

  lemma OrderMovesCount(l: Ledger, request: OrderRequest, price: real, time: Timestamp)
    requires l.Valid() && AfterOrder(l, request, price, time).Ok?
    ensures AfterOrder(l, request, price, time).value.Valid()
    ensures OpenPositions(AfterOrder(l, request, price, time).value)
         <= OpenPositions(l) + if request.side.BUY? then 1 else 0
  {
    hide PositionKey, AfterOrder, ApplyDelta, Select, LongCount, Ledger.Valid, ValidPositions;
    OrderKeepsValid(l, request, price, time);
    OrderMovesPositions(l, request, price, time);
    var after := AfterOrder(l, request, price, time).value;
    PositionsAreValid(l);
    PositionsAreValid(after);
    LongCountIsCount(l.positions.keys, l.positions.data);
    LongCountIsCount(after.positions.keys, after.positions.data);
    if after.positions != l.positions {
      var delta := if request.side.BUY? then request.quantity else 0 - request.quantity;
      DeltaMovesCount(l, request.instrument, request.exchange, delta, price);
    }
  }

  /** A purchase is sent to the broker only when the gate allows it. */
  lemma OnlyApprovedBuysArePlaced(limits: RiskLimits, l: Ledger, r: RiskState, a: BuyArgs)
    requires l.Valid()
    ensures var spec := AfterBuySubmission(limits, l, r, a);
            spec.Ok? && spec.value.0 != l ==>
              && a.id !in l.orders.data
              && MayOpen(limits, r, a.equity, OpenPositions(l))
              && exists request: OrderRequest :: request.id == a.id && request.side.BUY? &&
                   AfterOrder(l, request, a.fillPrice, a.time) == Ok(spec.value.0)
  {
    hide AfterOrder, Sized, OpenPositions;
  }

  lemma EventKeepsPositionsBound(limits: RiskLimits, d: Desk, e: DeskEvent)
    requires d.ledger.Valid() && OpenPositions(d.ledger) <= limits.maxPositions
    ensures AfterEvent(limits, d, e).ledger.Valid()
    ensures OpenPositions(AfterEvent(limits, d, e).ledger) <= limits.maxPositions
  {
    hide AfterOrder, Apply, OpenPositions, AfterBuySubmission;
    EventKeepsValid(limits, d, e);
    match e
    case BuyEvent(a) =>
      OnlyApprovedBuysArePlaced(limits, d.ledger, d.risk, a);
      var spec := AfterBuySubmission(limits, d.ledger, d.risk, a);
      if spec.Ok? && spec.value.0 != d.ledger {
        var request: OrderRequest :| request.id == a.id && request.side.BUY? &&
                                     AfterOrder(d.ledger, request, a.fillPrice, a.time) == Ok(spec.value.0);
        OrderMovesCount(d.ledger, request, a.fillPrice, a.time);
      }
    case SellEvent(a) =>
      var made := MakeRequest(a.id, a.instrument, a.exchange, SELL, a.quantity);
      if made.Ok? && AfterOrder(d.ledger, made.value, a.fillPrice, a.time).Ok? {
        OrderMovesCount(d.ledger, made.value, a.fillPrice, a.time);
      }
    case RiskUpdate(_) =>
  }

  /** Over every run of gated purchases, sales, marks and resets, at most max_positions positions are open. */
  lemma {:induction false} PositionsNeverExceedLimit(limits: RiskLimits, start: Ledger, events: seq<DeskEvent>)
    requires start.Valid() && OpenPositions(start) <= limits.maxPositions
    ensures OpenPositions(RunDesk(limits, start, events).ledger) <= limits.maxPositions
  {
    hide AfterEvent, OpenPositions;
    if |events| > 0 {
      PositionsNeverExceedLimit(limits, start, events[..|events| - 1]);
      EventKeepsPositionsBound(limits, RunDesk(limits, start, events[..|events| - 1]), events[|events| - 1]);
    }
  }

  // ----- Every filled purchase was approved

  ghost predicate IsFilledBuy(l: Ledger, id: OrderId) {
    id in l.orders.data && l.orders.data[id].status.FILLED? && l.orders.data[id].request.side.BUY?
  }

  lemma OrderTouchesOneId(l: Ledger, request: OrderRequest, price: real, time: Timestamp, id: OrderId)
    requires AfterOrder(l, request, price, time).Ok?
    ensures var after := AfterOrder(l, request, price, time).value;
            && (id != request.id || id in l.orders.data ==>
                  (id in after.orders.data <==> id in l.orders.data) &&
                  (id in l.orders.data ==> after.orders.data[id] == l.orders.data[id]))
            && (request.id !in l.orders.data ==>
                  request.id in after.orders.data && after.orders.data[request.id].request == request)
  {
    hide PositionKey, Notional, Fee, ApplyDelta;
  }

  /** Between two ledgers no purchase was filled. */
  ghost predicate NothingBought(l: Ledger, after: Ledger) {
    forall id | IsFilledBuy(after, id) :: IsFilledBuy(l, id)
  }

  lemma SalesBuyNothing(l: Ledger, a: SellArgs)
    requires AfterSellSubmission(l, a).Ok?
    ensures NothingBought(l, AfterSellSubmission(l, a).value.0)
  {
    hide AfterOrder, Blank;
    var made := MakeRequest(a.id, a.instrument, a.exchange, SELL, a.quantity);
    var after := AfterSellSubmission(l, a).value.0;
    if made.Ok? && AfterOrder(l, made.value, a.fillPrice, a.time).Ok? {
      forall id | IsFilledBuy(after, id) ensures IsFilledBuy(l, id) {
        OrderTouchesOneId(l, made.value, a.fillPrice, a.time, id);
      }
    }
  }

  lemma NewFilledBuyWasApproved(limits: RiskLimits, d: Desk, e: DeskEvent, id: OrderId)
    requires d.ledger.Valid() && AfterEvent(limits, d, e).ledger.Valid()
    requires IsFilledBuy(AfterEvent(limits, d, e).ledger, id) && !IsFilledBuy(d.ledger, id)
    ensures e.BuyEvent? && e.buy.id == id && MayOpen(limits, d.risk, e.buy.equity, OpenPositions(d.ledger))
  {
    hide AfterOrder, Apply, OpenPositions, AfterBuySubmission, MayOpen;
    match e
    case BuyEvent(a) =>
      OnlyApprovedBuysArePlaced(limits, d.ledger, d.risk, a);
      var spec := AfterBuySubmission(limits, d.ledger, d.risk, a);
      var request: OrderRequest :| request.id == a.id && request.side.BUY? &&
                                   AfterOrder(d.ledger, request, a.fillPrice, a.time) == Ok(spec.value.0);
      OrderTouchesOneId(d.ledger, request, a.fillPrice, a.time, id);
    case SellEvent(a) =>
      var made := MakeRequest(a.id, a.instrument, a.exchange, SELL, a.quantity);
      if made.Ok? && AfterOrder(d.ledger, made.value, a.fillPrice, a.time).Ok? {
        OrderTouchesOneId(d.ledger, made.value, a.fillPrice, a.time, id);
      }
    case RiskUpdate(_) =>
  }

  /** The step of a run at which a purchase was submitted with the switch clear and both losses under their limits. */
  ghost predicate ApprovedAt(limits: RiskLimits, start: Ledger, events: seq<DeskEvent>, k: int, id: OrderId)
    requires start.Valid()
  {
    && 0 <= k < |events|
    && events[k].BuyEvent? && events[k].buy.id == id
    && var d := RunDesk(limits, start, events[..k]);
       MayOpen(limits, d.risk, events[k].buy.equity, OpenPositions(d.ledger))
  }

  lemma {:induction false} EveryFilledBuyWasApproved(limits: RiskLimits, start: Ledger, events: seq<DeskEvent>,
                                                     id: OrderId)
    requires start.Valid() && !IsFilledBuy(start, id)
    requires IsFilledBuy(RunDesk(limits, start, events).ledger, id)
    ensures exists k :: ApprovedAt(limits, start, events, k, id)
  {
    hide AfterEvent, OpenPositions, MayOpen;
    if |events| > 0 {
      var init := events[..|events| - 1];
      var d := RunDesk(limits, start, init);
      if IsFilledBuy(d.ledger, id) {
        EveryFilledBuyWasApproved(limits, start, init, id);
        var k :| ApprovedAt(limits, start, init, k, id);
        assert init[..k] == events[..k];
        assert ApprovedAt(limits, start, events, k, id);
      } else {
        NewFilledBuyWasApproved(limits, d, events[|events| - 1], id);
        assert ApprovedAt(limits, start, events, |events| - 1, id);
      }
    }
  }

  // ----- Idempotence, and orders sized with the broker's own commission rate

  lemma EventKeepsOrders(limits: RiskLimits, d: Desk, e: DeskEvent, id: OrderId)
    requires d.ledger.Valid() && id in d.ledger.orders.data
    ensures var after := AfterEvent(limits, d, e).ledger;
            id in after.orders.data && after.orders.data[id] == d.ledger.orders.data[id]
  {
    hide AfterOrder, Apply, OpenPositions, AfterBuySubmission, MayOpen, Blank;
    match e
    case BuyEvent(a) =>
      OnlyApprovedBuysArePlaced(limits, d.ledger, d.risk, a);
      var spec := AfterBuySubmission(limits, d.ledger, d.risk, a);
      if spec.Ok? && spec.value.0 != d.ledger {
        var request: OrderRequest :| request.id == a.id && request.side.BUY? &&
                                     AfterOrder(d.ledger, request, a.fillPrice, a.time) == Ok(spec.value.0);
        OrderTouchesOneId(d.ledger, request, a.fillPrice, a.time, id);
      }
    case SellEvent(a) =>
      var made := MakeRequest(a.id, a.instrument, a.exchange, SELL, a.quantity);
      if made.Ok? && AfterOrder(d.ledger, made.value, a.fillPrice, a.time).Ok? {
        OrderTouchesOneId(d.ledger, made.value, a.fillPrice, a.time, id);
      }
    case RiskUpdate(_) =>
  }

  /** An order on the book after the first k events of a run is the same after every later one. */
  lemma {:induction false} OrdersAreSettledForGood(limits: RiskLimits, start: Ledger, events: seq<DeskEvent>, k: nat,
                                                   id: OrderId)
    requires start.Valid() && k <= |events| && id in RunDesk(limits, start, events[..k]).ledger.orders.data
    ensures var settled, now := RunDesk(limits, start, events[..k]).ledger.orders.data,
            RunDesk(limits, start, events).ledger.orders.data;
            id in now && now[id] == settled[id]
  {
    hide AfterEvent;
    if k == |events| {
      assert events[..k] == events;
    } else {
      var init := events[..|events| - 1];
      assert init[..k] == events[..k];
      OrdersAreSettledForGood(limits, start, init, k, id);
      EventKeepsOrders(limits, RunDesk(limits, start, init), events[|events| - 1], id);
    }
  }

  function IdOf(e: DeskEvent): OrderId
    requires !e.RiskUpdate?
  {
    if e.BuyEvent? then e.buy.id else e.sell.id
  }

  /**
   * Once an id is on the book, submitting it again at any later point of any run changes no cash, position, order or
   * risk state, whatever the repeated arguments say, and returns the order as it was first settled.
   */
  lemma ResubmissionChangesNothing(limits: RiskLimits, start: Ledger, events: seq<DeskEvent>, k: nat, e: DeskEvent)
    requires start.Valid() && k <= |events| && !e.RiskUpdate?
    requires IdOf(e) in RunDesk(limits, start, events[..k]).ledger.orders.data
    ensures RunDesk(limits, start, events + [e]) == RunDesk(limits, start, events)
    ensures var d := RunDesk(limits, start, events);
            var settled := RunDesk(limits, start, events[..k]).ledger.orders.data[IdOf(e)];
            var spec := if e.BuyEvent? then AfterBuySubmission(limits, d.ledger, d.risk, e.buy)
                else AfterSellSubmission(d.ledger, e.sell);
            spec.Ok? && spec.value.1 == Outcome(true, Some(settled), [])
  {
    hide RunDesk, AfterEvent, AfterBuySubmission, AfterSellSubmission, Ledger.Valid;
    OrdersAreSettledForGood(limits, start, events, k, IdOf(e));
    KnownIdIsReturned(limits, RunDesk(limits, start, events), e);
    RunDeskExtends(limits, start, events, e);
  }

  lemma RunDeskExtends(limits: RiskLimits, start: Ledger, events: seq<DeskEvent>, e: DeskEvent)
    requires start.Valid()
    ensures RunDesk(limits, start, events + [e]) == AfterEvent(limits, RunDesk(limits, start, events), e)
  {
    hide AfterEvent;
    assert (events + [e])[..|events|] == events;
  }

  lemma KnownIdIsReturned(limits: RiskLimits, d: Desk, e: DeskEvent)
    requires d.ledger.Valid() && !e.RiskUpdate? && IdOf(e) in d.ledger.orders.data
    ensures AfterEvent(limits, d, e) == d
    ensures (if e.BuyEvent? then AfterBuySubmission(limits, d.ledger, d.risk, e.buy)
            else AfterSellSubmission(d.ledger, e.sell))
         == Ok((d.ledger, Outcome(true, Some(d.ledger.orders.data[IdOf(e)]), [])))
  {
    hide Ledger.Valid, BlockReasons, Sized, AfterPlacing, OpenPositions;
  }

  /** A purchase the manager sends with the broker's own commission rate is filled, never rejected for cash. */
  lemma SizedBuyIsFilled(limits: RiskLimits, l: Ledger, r: RiskState, a: BuyArgs)
    requires l.Valid() && a.id !in l.orders.data
    requires a.commissionRate == l.rate && (a.sizeByWeight || a.stopFraction > 0.0)
    ensures var spec := AfterBuySubmission(limits, l, r, a);
            spec.Ok? && spec.value.1.order.Some? ==> spec.value.1.order.value.status.FILLED? && spec.value.1.submitted
  {
    hide Notional, Fee, ApplyDelta, PositionKey, SizeByWeight, SizeNewPosition, BlockReasons, OpenPositions;
    var spec := AfterBuySubmission(limits, l, r, a);
    if spec.Ok? && spec.value.1.order.Some? {
      var sized := Sized(limits, l.cash, a).value;
      var quantity := if a.maxQuantity.Some? then MinInt(sized, a.maxQuantity.value) else sized;
      SizeIsAffordable(limits, l.cash, a.fillPrice, if a.sizeByWeight then None else Some(a.stopFraction),
                       a.initialCapital, a.commissionRate, quantity);
    }
  }
}
