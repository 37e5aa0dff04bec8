/** The next-bar-open backtester: an inline cash loop (backtesting/engine.py). */
module Backtesting {
  import opened Prelude
  import opened Models
  import opened Metrics
  import opened Risk
  import opened Strategies

  datatype Config = Config(initialCapital: real, commissionRate: real, slippageRate: real,
                           stopDistanceFraction: real, stopLossDistanceFraction: real, periodsPerYear: int,
                           enableStopLoss: bool, enableTargetExit: bool)
  {
    predicate Valid() {
      && initialCapital > 0.0
      && commissionRate >= 0.0 && slippageRate >= 0.0
      && 0.0 < stopDistanceFraction < 1.0
      && 0.0 < stopLossDistanceFraction < 1.0
      && periodsPerYear >= 1
    }

    function BuyPrice(price: real): real { price * (1.0 + slippageRate) }
    function SellPrice(price: real): real { price * (1.0 - slippageRate) }
    function StopPrice(entry: real): real { entry * (1.0 - stopLossDistanceFraction) }
    function TargetPrice(entry: real, rewardRisk: real): real { entry * (1.0 + stopLossDistanceFraction * rewardRisk) }
  }

  const DEFAULT_CONFIG: Config := Config(100000.0, 0.0003, 0.0005, 0.05, 0.20, 252, true, true)

  type BacktestConfig = c: Config | c.Valid() witness DEFAULT_CONFIG

  datatype ExitReason = SignalExit | StopLossExit | TargetExit | ForcedLiquidation

  datatype Trade = Trade(instrument: string, entryTime: Timestamp, exitTime: Timestamp, quantity: int,
                         entryPrice: real, exitPrice: real, grossPnl: real, totalCost: real, netPnl: real,
                         exitReason: ExitReason)

  /** The held position; a target of None is the source's infinite target. */
  datatype OpenPosition = OpenPosition(instrument: string, entryTime: Timestamp, quantity: int,
                                       entryPrice: real, entryCost: real, stopPrice: real, targetPrice: Option<real>)

  datatype State = State(risk: RiskState, cash: real, position: Option<OpenPosition>,
                         trades: seq<Trade>, curve: seq<real>)

  datatype BacktestResult = BacktestResult(initialCapital: real, finalCapital: real, curve: seq<real>,
                                           trades: seq<Trade>, maxDrawdown: real,
                                           killSwitchTriggered: bool, killSwitchReason: Option<Breach>)

  // ----- One bar

  function MarkedEquity(cash: real, position: Option<OpenPosition>, price: real): real {
    cash + if position.Some? then Notional(price, position.value.quantity) else 0.0
  }

  function TradeFor(c: BacktestConfig, p: OpenPosition, exitTime: Timestamp, exitPrice: real,
                    reason: ExitReason): Trade {
    var exitCost := Fee(Notional(exitPrice, p.quantity), c.commissionRate);
    var gross := Notional(exitPrice - p.entryPrice, p.quantity);
    Trade(p.instrument, p.entryTime, exitTime, p.quantity, p.entryPrice, exitPrice,
          gross, p.entryCost + exitCost, gross - (p.entryCost + exitCost), reason)
  }

  function CashAfterClose(c: BacktestConfig, p: OpenPosition, cash: real, exitPrice: real): real {
    var value := Notional(exitPrice, p.quantity);
    cash + (value - Fee(value, c.commissionRate))
  }

  function Closed(c: BacktestConfig, st: State, exitTime: Timestamp, exitPrice: real, reason: ExitReason): State
    requires st.position.Some?
  {
    st.(trades := st.trades + [TradeFor(c, st.position.value, exitTime, exitPrice, reason)],
        cash := CashAfterClose(c, st.position.value, st.cash, exitPrice),
        position := None)
  }

  function Opened(c: BacktestConfig, limits: RiskLimits, bar: Bar, quantity: int): OpenPosition {
    var price := c.BuyPrice(bar.open);
    OpenPosition(bar.instrument, bar.time, quantity, price, Fee(Notional(price, quantity), c.commissionRate),
                 if c.enableStopLoss then c.StopPrice(price) else 0.0,
                 if c.enableTargetExit then Some(c.TargetPrice(price, limits.minimumRewardRisk)) else None)
  }

  /** Mark to market at the open. */
  function AfterOpen(limits: RiskLimits, st: State, bar: Bar): Result<State, Error> {
    match AfterMark(limits, st.risk, MarkedEquity(st.cash, st.position, bar.open), bar.time)
    case Err(e) => Err(e)
    case Ok(risk) => Ok(st.(risk := risk))
  }

  /** Act on a purchase signal at the open, if flat, approved and affordable. */
  function AfterEntry(c: BacktestConfig, limits: RiskLimits, st: State, signal: Option<Signal>,
                      bar: Bar): Result<State, Error> {
    var equity := MarkedEquity(st.cash, st.position, bar.open);
    if !(signal.Some? && signal.value.action.BUY? && st.position.None?) then Ok(st)
    else if BlockReasons(limits, st.risk, equity, 0) != [] then Ok(st)
    else
      var price := c.BuyPrice(bar.open);
      match SizeNewPosition(limits, st.cash, price, c.stopDistanceFraction, c.initialCapital, c.commissionRate)
      case Err(e) => Err(e)
      case Ok(quantity) =>
        if quantity == 0 then Ok(st)
        else
          var entry := Opened(c, limits, bar, quantity);
          Ok(st.(position := Some(entry), cash := st.cash - (Notional(price, quantity) + entry.entryCost)))
  }

  predicate StopHit(c: BacktestConfig, p: OpenPosition, bar: Bar) {
    c.enableStopLoss && bar.low <= p.stopPrice
  }

  predicate TargetHit(c: BacktestConfig, p: OpenPosition, bar: Bar) {
    c.enableTargetExit && p.targetPrice.Some? && bar.high >= p.targetPrice.value
  }

  /** Stop before target before sale signal. */
  function AfterExit(c: BacktestConfig, st: State, signal: Option<Signal>, bar: Bar): State {
    if st.position.None? then st
    else
      var p := st.position.value;
      if StopHit(c, p, bar) then
        Closed(c, st, bar.time, c.SellPrice(Min(bar.open, p.stopPrice)), StopLossExit)
      else if TargetHit(c, p, bar) then
        Closed(c, st, bar.time, c.SellPrice(Max(bar.open, p.targetPrice.value)), TargetExit)
      else if signal.Some? && signal.value.action.SELL? then
        Closed(c, st, bar.time, c.SellPrice(bar.open), SignalExit)
      else st
  }

  function AfterClose(st: State, bar: Bar): State {
    st.(curve := st.curve + [MarkedEquity(st.cash, st.position, bar.close)])
  }

  /** Everything up to and including a possible entry on the bar. */
  function ThroughEntry(c: BacktestConfig, limits: RiskLimits, st: State, signal: Option<Signal>,
                        bar: Bar): Result<State, Error> {
    match AfterOpen(limits, st, bar)
    case Err(e) => Err(e)
    case Ok(marked) => AfterEntry(c, limits, marked, signal, bar)
  }

  function AfterBar(c: BacktestConfig, limits: RiskLimits, st: State, signal: Option<Signal>,
                    bar: Bar): Result<State, Error> {
    match ThroughEntry(c, limits, st, signal, bar)
    case Err(e) => Err(e)
    case Ok(entered) => Ok(AfterClose(AfterExit(c, entered, signal, bar), bar))
  }

  // ----- The whole run

  /** The decision made on the previous bar with the position held now. */
  function PendingSignal(s: Strategy, bars: seq<Bar>, index: nat, holding: bool): Option<Signal>
    requires index <= |bars|
  {
    if index > 0 then SignalAt(s, bars, index - 1, holding) else None
  }

  /** The state before bar number end, starting flat at bar number start. */
  function StateAt(c: BacktestConfig, limits: RiskLimits, s: Strategy, bars: seq<Bar>, start: nat,
                   end: nat): Result<State, Error>
    requires start <= end <= |bars|
  {
    if end == start then Ok(State(FRESH, c.initialCapital, None, [], [c.initialCapital]))
    else
      match StateAt(c, limits, s, bars, start, end - 1)
      case Err(e) => Err(e)
      case Ok(st) => AfterBar(c, limits, st, PendingSignal(s, bars, end - 1, st.position.Some?), bars[end - 1])
  }

  predicate ValidPrices(bar: Bar) {
    && bar.open > 0.0 && bar.high > 0.0 && bar.low > 0.0 && bar.close > 0.0
    && bar.high >= Max(bar.open, bar.close) && bar.low <= Min(bar.open, bar.close)
  }

  predicate ValidBar(first: Bar, bar: Bar) {
    && bar.instrument == first.instrument && bar.exchange == first.exchange && bar.timeframe == first.timeframe
    && bar.availableAt >= bar.time.instant
    && ValidPrices(bar)
  }

  predicate ValidBars(bars: seq<Bar>) {
    && (forall i :: 0 <= i < |bars| ==> ValidBar(bars[0], bars[i]))
    && (forall i :: 0 < i < |bars| ==> bars[i - 1].time.instant < bars[i].time.instant)
  }

  /** A position still open at the end is closed at the last close; its curve point becomes the cash. */
  function Liquidated(c: BacktestConfig, st: State, last: Bar): State
    requires |st.curve| > 0
  {
    if st.position.None? then st
    else
      var closed := Closed(c, st, last.time, c.SellPrice(last.close), ForcedLiquidation);
      closed.(curve := st.curve[|st.curve| - 1 := closed.cash])
  }

  function Reported(c: BacktestConfig, st: State): BacktestResult {
    BacktestResult(c.initialCapital, st.cash, st.curve, st.trades, MaxDrawdown(st.curve), st.risk.tripped,
        st.risk.reason)
  }

  lemma {:induction false} CurveIsNotEmpty(c: BacktestConfig, limits: RiskLimits, s: Strategy, bars: seq<Bar>,
                                           start: nat, end: nat)
    requires start <= end <= |bars|
    ensures var st := StateAt(c, limits, s, bars, start, end);
            st.Ok? ==> |st.value.curve| == end - start + 1
  {
    hide AfterMark, BlockReasons, SizeNewPosition, SignalAt;
    if end > start {
      CurveIsNotEmpty(c, limits, s, bars, start, end - 1);
    }
  }

  function RunResult(c: BacktestConfig, limits: RiskLimits, s: Strategy, bars: seq<Bar>,
                     start: int): Result<BacktestResult, Error> {
    if |bars| == 0 || start < 0 || start >= |bars| || !ValidBars(bars) then Err(ValueError)
    else
      match StateAt(c, limits, s, bars, start, |bars|)
      case Err(e) => Err(e)
      case Ok(st) =>
        CurveIsNotEmpty(c, limits, s, bars, start, |bars|);
        var final := Liquidated(c, st, bars[|bars| - 1]);
        if Accepted(final.curve) then Ok(Reported(c, final)) else Err(ValueError)
  }

  class Backtester {
    const config: BacktestConfig
    const riskLimits: RiskLimits

    constructor (config: BacktestConfig, riskLimits: RiskLimits)
      requires riskLimits.accountCapital == config.initialCapital
      ensures this.config == config && this.riskLimits == riskLimits
    {
      this.config, this.riskLimits := config, riskLimits;
    }

    /** The source's constructor: raises when the limits are for another capital. */
    static method Create(config: BacktestConfig, riskLimits: RiskLimits) returns (r: Result<Backtester, Error>)
      ensures r.Ok? <==> riskLimits.accountCapital == config.initialCapital
      ensures r.Ok? ==> fresh(r.value) && r.value.config == config && r.value.riskLimits == riskLimits
    {
      if riskLimits.accountCapital != config.initialCapital {
        return Err(ValueError);
      }
      var backtester := new Backtester(config, riskLimits);
      return Ok(backtester);
    }

    method ValidateInput(bars: seq<Bar>) returns (r: Result<(), Error>)
      requires |bars| > 0
      ensures r.Ok? <==> ValidBars(bars)
      ensures r.Err? ==> r.error == ValueError
    {
      hide ValidPrices;
      var previous: Option<int> := None;
      for k := 0 to |bars|
        invariant previous == if k == 0 then None else Some(bars[k - 1].time.instant)
        invariant forall i :: 0 <= i < k ==> ValidBar(bars[0], bars[i])
        invariant forall i :: 0 < i < k ==> bars[i - 1].time.instant < bars[i].time.instant
      {
        var bar := bars[k];
        if bar.instrument != bars[0].instrument || bar.exchange != bars[0].exchange
            || bar.timeframe != bars[0].timeframe {
          return Err(ValueError);
        }
        if bar.availableAt < bar.time.instant {
          return Err(ValueError);
        }
        if previous.Some? && bar.time.instant <= previous.value {
          return Err(ValueError);
        }
        previous := Some(bar.time.instant);
        if !ValidPrices(bar) {
          return Err(ValueError);
        }
      }
      return Ok(());
    }

    /** _close_position: the realised trade and the cash after it. */
    method ClosePosition(position: OpenPosition, bar: Bar, cash: real, atOpen: bool,
                         exitPriceOverride: Option<real>, reason: ExitReason) returns (trade: Trade, cashAfter: real)
      ensures var exitPrice := if exitPriceOverride.Some? then exitPriceOverride.value
                               else config.SellPrice(if atOpen then bar.open else bar.close);
              && trade == TradeFor(config, position, bar.time, exitPrice, reason)
              && cashAfter == CashAfterClose(config, position, cash, exitPrice)
    {
      var exitPrice := if exitPriceOverride.Some? then exitPriceOverride.value
                       else config.SellPrice(if atOpen then bar.open else bar.close);
      var exitValue := Notional(exitPrice, position.quantity);
      var exitCost := Fee(exitValue, config.commissionRate);
      var grossPnl := Notional(exitPrice - position.entryPrice, position.quantity);
      var totalCost := position.entryCost + exitCost;
      trade := Trade(position.instrument, position.entryTime, bar.time, position.quantity, position.entryPrice,
                     exitPrice, grossPnl, totalCost, grossPnl - totalCost, reason);
      cashAfter := cash + (exitValue - exitCost);
    }

    /** The entry part of the loop body. */
    method TryEntry(riskEngine: RiskEngine, cash: real, position: Option<OpenPosition>, signal: Option<Signal>,
                    bar: Bar, equityBeforeBar: real, ghost st: State)
      returns (r: Result<(real, Option<OpenPosition>), Error>)
      requires riskEngine.limits == riskLimits
      requires st.risk == riskEngine.View() && st.cash == cash && st.position == position
      requires equityBeforeBar == MarkedEquity(cash, position, bar.open)
      ensures var spec := AfterEntry(config, riskLimits, st, signal, bar);
              if spec.Err? then r == Err(spec.error)
              else r.Ok? && spec.value == st.(cash := r.value.0, position := r.value.1)
    {
      hide Notional, Fee, MayOpen, BlockReasons, SizeNewPosition;
      if signal.Some? && signal.value.action.BUY? && position.None? {
        var reasons := riskEngine.EvaluateNewPosition(equityBeforeBar, 0);
        if reasons == [] {
          var fillPrice := config.BuyPrice(bar.open);
          var sized := SizeNewPosition(riskLimits, cash, fillPrice, config.stopDistanceFraction,
                                       config.initialCapital, config.commissionRate);
          if sized.Err? {
            return Err(sized.error);
          }
          var quantity := sized.value;
          if quantity > 0 {
            var entryValue := Notional(fillPrice, quantity);
            var entryCost := Fee(entryValue, config.commissionRate);
            var stopPrice := if config.enableStopLoss then config.StopPrice(fillPrice) else 0.0;
            var targetPrice := if config.enableTargetExit
                               then Some(config.TargetPrice(fillPrice, riskLimits.minimumRewardRisk)) else None;
            return Ok((cash - (entryValue + entryCost),
                       Some(OpenPosition(bar.instrument, bar.time, quantity, fillPrice, entryCost, stopPrice,
                           targetPrice))));
          }
        }
      }
      return Ok((cash, position));
    }

    /** The exit part of the loop body: stop, then target, then sale signal. */
    method TryExit(cash: real, position: Option<OpenPosition>, trades: seq<Trade>, signal: Option<Signal>, bar: Bar,
                   ghost st: State)
      returns (cashAfter: real, positionAfter: Option<OpenPosition>, tradesAfter: seq<Trade>)
      requires st.cash == cash && st.position == position && st.trades == trades
      ensures AfterExit(config, st, signal, bar)
           == st.(cash := cashAfter, position := positionAfter, trades := tradesAfter)
    {
      hide Notional, Fee;
      cashAfter, positionAfter, tradesAfter := cash, position, trades;
      var closedByStopOrTarget := false;
      if position.Some? && (config.enableStopLoss || config.enableTargetExit) {
        var stopHit := config.enableStopLoss && bar.low <= position.value.stopPrice;
        var targetHit := config.enableTargetExit && position.value.targetPrice.Some? &&
                         bar.high >= position.value.targetPrice.value;
        if stopHit {
          var exitPrice := config.SellPrice(Min(bar.open, position.value.stopPrice));
          var trade;
          trade, cashAfter := ClosePosition(position.value, bar, cash, true, Some(exitPrice), StopLossExit);
          tradesAfter, positionAfter, closedByStopOrTarget := trades + [trade], None, true;
        } else if targetHit {
          var exitPrice := config.SellPrice(Max(bar.open, position.value.targetPrice.value));
          var trade;
          trade, cashAfter := ClosePosition(position.value, bar, cash, true, Some(exitPrice), TargetExit);
          tradesAfter, positionAfter, closedByStopOrTarget := trades + [trade], None, true;
        }
      }
      if !closedByStopOrTarget && signal.Some? && signal.value.action.SELL? && position.Some? {
        var trade;
        trade, cashAfter := ClosePosition(position.value, bar, cash, true, None, SignalExit);
        tradesAfter, positionAfter := trades + [trade], None;
      }
    }

    method Run(bars: seq<Bar>, strategy: Strategy, startIndex: int) returns (r: Result<BacktestResult, Error>)
      ensures r == RunResult(config, riskLimits, strategy, bars, startIndex)
    {
      hide Notional, Fee, AfterMark, AfterEntry, AfterExit, SignalAt, ValidBars, Liquidated, Accepted, Reported;
      if |bars| == 0 {
        return Err(ValueError);
      }
      if startIndex < 0 || startIndex >= |bars| {
        return Err(ValueError);
      }
      var valid := ValidateInput(bars);
      if valid.Err? {
        return Err(ValueError);
      }
      var riskEngine := new RiskEngine(riskLimits);
      var cash := config.initialCapital;
      var equityCurve := [cash];
      var position: Option<OpenPosition> := None;
      var trades: seq<Trade> := [];
      for index := startIndex to |bars|
        invariant riskEngine.limits == riskLimits
        invariant StateAt(config, riskLimits, strategy, bars, startIndex, index)
               == Ok(State(riskEngine.View(), cash, position, trades, equityCurve))
      {
        var bar := bars[index];
        ghost var st := State(riskEngine.View(), cash, position, trades, equityCurve);
        var equityBeforeBar := cash + if position.Some? then Notional(bar.open, position.value.quantity) else 0.0;
        var marked := riskEngine.MarkToMarket(equityBeforeBar, bar.time);
        if marked.Err? {
          assert AfterOpen(riskLimits, st, bar) == Err(marked.error);
          StateAtStaysRaised(config, riskLimits, strategy, bars, startIndex, index + 1, |bars|);
          return Err(marked.error);
        }
        ghost var atOpen := st.(risk := riskEngine.View());
        assert AfterOpen(riskLimits, st, bar) == Ok(atOpen);
        var signal := if index > 0 then SignalAt(strategy, bars, index - 1, position.Some?) else None;
        var entry := TryEntry(riskEngine, cash, position, signal, bar, equityBeforeBar, atOpen);
        if entry.Err? {
          StateAtStaysRaised(config, riskLimits, strategy, bars, startIndex, index + 1, |bars|);
          return Err(entry.error);
        }
        cash, position := entry.value.0, entry.value.1;
        cash, position, trades := TryExit(cash, position, trades, signal, bar,
            atOpen.(cash := cash, position := position));
        var markedEquity := cash;
        if position.Some? {
          markedEquity := markedEquity + Notional(bar.close, position.value.quantity);
        }
        equityCurve := equityCurve + [markedEquity];
      }
      CurveIsNotEmpty(config, riskLimits, strategy, bars, startIndex, |bars|);
      r := Report(riskEngine, cash, position, trades, equityCurve, bars[|bars| - 1]);
    }

    /** The end of a run: sell what is still held at the last close, and measure the equity curve. */
    method Report(riskEngine: RiskEngine, cashLeft: real, position: Option<OpenPosition>, closed: seq<Trade>,
                  curve: seq<real>, lastBar: Bar)
      returns (r: Result<BacktestResult, Error>)
      requires |curve| > 0
      ensures var final := Liquidated(config, State(riskEngine.View(), cashLeft, position, closed, curve), lastBar);
              r == if Accepted(final.curve) then Ok(Reported(config, final)) else Err(ValueError)
    {
      hide Notional, Fee;
      var cash, trades, equityCurve := cashLeft, closed, curve;
      if position.Some? {
        var trade;
        trade, cash := ClosePosition(position.value, lastBar, cash, false, None, ForcedLiquidation);
        trades := trades + [trade];
        equityCurve := equityCurve[|equityCurve| - 1 := cash];
      }
      var changes := CheckedReturns(equityCurve);
      if changes.Err? {
        return Err(changes.error);
      }
      var drawdown := ComputeMaxDrawdown(equityCurve);
      return Ok(BacktestResult(config.initialCapital, cash, equityCurve, trades, drawdown,
                               riskEngine.killSwitchTriggered, riskEngine.killSwitchReason));
    }
  }

  /** Once a bar has raised, the run has raised. */
  lemma {:induction false} StateAtStaysRaised(c: BacktestConfig, limits: RiskLimits, s: Strategy, bars: seq<Bar>,
                                              start: nat, k: nat, end: nat)
    requires start <= k <= end <= |bars| && StateAt(c, limits, s, bars, start, k).Err?
    ensures StateAt(c, limits, s, bars, start, end) == StateAt(c, limits, s, bars, start, k)
  {
    if end > k {
      StateAtStaysRaised(c, limits, s, bars, start, k, end - 1);
    }
  }
}
