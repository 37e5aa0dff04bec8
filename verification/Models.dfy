/** Market data, orders, fills and positions, as the platform's data classes declare them. */
module Models {
  import opened Prelude

  datatype Date = Date(year: int, month: int, day: int)

  /** A datetime: its instant in seconds, and the calendar date it falls on. */
  datatype Timestamp = Timestamp(instant: int, date: Date)

  const SECONDS_PER_DAY: int := 86400

  datatype Bar = Bar(instrument: string, exchange: string, timeframe: string,
                     time: Timestamp, availableAt: int,
                     open: real, high: real, low: real, close: real, volume: int)

  datatype OrderSide = BUY | SELL

  datatype OrderStatus = PENDING | SUBMITTED | FILLED | PARTIALLY_FILLED | REJECTED | CANCELLED {
    predicate IsTerminal() { FILLED? || REJECTED? || CANCELLED? }
  }

  /** What an order was placed for; the last part of every order id the platform builds. */
  datatype OrderKind = KBuy | KSell | KStopLoss | KTarget | KPyramid | KStop | KTrend | KFinal

  /** A client order id: instrument, bar time and purpose, which the platform joins into one string. */
  datatype OrderId = OrderId(instrument: string, instant: int, kind: OrderKind)

  type Quantity = n: int | 0 < n witness 1

  datatype OrderRequest = OrderRequest(id: OrderId, instrument: string, exchange: string,
                                       side: OrderSide, quantity: Quantity)

  predicate IsSpace(c: char) { c == ' ' || c == '\t' || c == '\n' || c == '\r' }

  /** A string without the white space around it. */
  function Strip(s: string): string {
    if |s| > 0 && IsSpace(s[0]) then Strip(s[1..])
    else if |s| > 0 && IsSpace(s[|s| - 1]) then Strip(s[..|s| - 1])
    else s
  }

  predicate Blank(s: string) { Strip(s) == "" }

  /** Building an OrderRequest validates it: a blank instrument or a non-positive quantity raises. */
  function MakeRequest(id: OrderId, instrument: string, exchange: string, side: OrderSide, quantity: int)
    : Result<OrderRequest, Error>
  {
    if Blank(instrument) || quantity <= 0 then Err(ValueError)
    else Ok(OrderRequest(id, instrument, exchange, side, quantity))
  }

  datatype Fill = Fill(fillId: nat, quantity: int, price: real, time: Timestamp, commission: real)

  datatype Rejection =
    | InsufficientCash(required: real, available: real)
    | InsufficientPosition(requested: int, held: int)
    | ByBroker(message: string)

  datatype Order = Order(request: OrderRequest, status: OrderStatus, brokerId: Option<string>,
                         fills: seq<Fill>, rejection: Option<Rejection>,
                         createdAt: Timestamp, updatedAt: Timestamp)

  function FilledQuantity(fills: seq<Fill>): int {
    if |fills| == 0 then 0 else FilledQuantity(fills[..|fills| - 1]) + fills[|fills| - 1].quantity
  }

  datatype Position = Position(instrument: string, exchange: string, quantity: int, averagePrice: real)

  /** The money value of some shares at a price. */
  function Notional(price: real, quantity: int): real { price * quantity as real }

  /** A proportional cost on a money value. */
  function Fee(value: real, rate: real): real { value * rate }

  lemma NotionalSplits(price: real, a: int, b: int)
    ensures Notional(price, a + b) == Notional(price, a) + Notional(price, b)
    ensures Notional(price, 0 - a) == -Notional(price, a)
  {}

  lemma NotionalDifference(high: real, low: real, quantity: int)
    ensures Notional(high - low, quantity) == Notional(high, quantity) - Notional(low, quantity)
  {}

  function UpperChar(c: char): char {
    if 'a' <= c <= 'z' then (c as int - 32) as char else c
  }

  function Upper(s: string): string {
    if s == "" then "" else [UpperChar(s[0])] + Upper(s[1..])
  }

  function PositionKey(instrument: string, exchange: string): string {
    Upper(exchange) + ":" + Upper(instrument)
  }
}
