/** The event-driven shadow session over the full broker stack (shadow/session.py). */
module ShadowTrading {
  import opened Prelude
  import opened OrderedDict
  import opened Models
  import opened Risk
  import opened PaperBroking
  import opened OrderManaging
  import opened SingleInstrument
  import opened Strategies
  import Backtesting

  /** The backtester's cost and exit settings, and the longest tolerated gap between bars, in seconds. */
  datatype SessionSettings = SessionSettings(trading: Backtesting.BacktestConfig, maxBarGap: int)

  type SessionConfig = c: SessionSettings | c.maxBarGap > 0
    witness SessionSettings(Backtesting.DEFAULT_CONFIG, 4 * SECONDS_PER_DAY)

  datatype IncidentKind = DataGap | OrderBlocked | ManualStale | StopLossHit | TargetReached

  datatype Incident = Incident(time: int, kind: IncidentKind)

  datatype BarAction = Signalled(side: OrderSide) | StoppedOut | TargetExited

  datatype BarEvent = BarEvent(time: Timestamp, action: Option<BarAction>, outcome: Option<Outcome>,
      suppressedByGap: bool)

  datatype Session = Session(ledger: Ledger, risk: RiskState, history: seq<Bar>, lastBarTime: Option<int>,
                             explicitStale: bool, stopPrice: Option<real>, targetPrice: Option<real>,
                             incidents: seq<Incident>, events: seq<BarEvent>)

  function NewSession(c: SessionConfig): Session {
    Session(NewLedger(c.trading.initialCapital, c.trading.commissionRate), FRESH, [], None, false, None, None, [], [])
  }

  // ----- One bar

  predicate IsGap(c: SessionConfig, s: Session, bar: Bar) {
    s.lastBarTime.Some? && bar.time.instant - s.lastBarTime.value > c.maxBarGap
  }

  /** Entries are suppressed by a gap before this bar or an explicit stale flag. */
  predicate Suppresses(c: SessionConfig, s: Session, bar: Bar) { IsGap(c, s, bar) || s.explicitStale }

  predicate WrongInstrument(s: Session, bar: Bar) {
    |s.history| > 0 && (bar.instrument != s.history[0].instrument || bar.exchange != s.history[0].exchange)
  }

  function Received(c: SessionConfig, s: Session, bar: Bar): Session {
    s.(incidents := if IsGap(c, s, bar) then s.incidents + [Incident(bar.time.instant, DataGap)] else s.incidents,
       explicitStale := false, history := s.history + [bar], lastBarTime := Some(bar.time.instant))
  }

  /** What a phase of a bar did to the session, and what it reports. */
  datatype Phase = Phase(session: Session, action: Option<BarAction>, outcome: Option<Outcome>)

  function ExitAt(s: Session, bar: Bar, position: Position, kind: OrderKind, price: real,
                  action: BarAction, incident: IncidentKind): Result<Phase, Error>
  {
    match AfterSellSubmission(s.ledger, SellAll(bar, position, kind, price))
    case Err(e) => Err(e)
    case Ok((after, outcome)) =>
      Ok(Phase(s.(ledger := after, stopPrice := None, targetPrice := None,
                  incidents := s.incidents + [Incident(bar.time.instant, incident)]),
               Some(action), Some(outcome)))
  }

  predicate StopTouched(s: Session, bar: Bar) { s.stopPrice.Some? && bar.low <= s.stopPrice.value }

  predicate TargetTouched(s: Session, bar: Bar) { s.targetPrice.Some? && bar.high >= s.targetPrice.value }

  /** Stop before target, whatever the feed's staleness. */
  function ExitPhase(c: SessionConfig, s: Session, bar: Bar): Result<Phase, Error>
    requires forall k | k in s.ledger.positions.keys :: k in s.ledger.positions.data
  {
    var position := CurrentPosition(s.ledger);
    if position.Some? && StopTouched(s, bar) then
      ExitAt(s, bar, position.value, KStopLoss, c.trading.SellPrice(Min(bar.open, s.stopPrice.value)), StoppedOut,
          StopLossHit)
    else if position.Some? && TargetTouched(s, bar) then
      ExitAt(s, bar, position.value, KTarget, c.trading.SellPrice(Max(bar.open, s.targetPrice.value)), TargetExited,
          TargetReached)
    else Ok(Phase(s, None, None))
  }

  function EntryArgs(c: SessionConfig, bar: Bar, equity: real): BuyArgs {
    BuyArgs(IdFor(bar, KBuy), bar.instrument, bar.exchange, equity, c.trading.BuyPrice(bar.open),
            c.trading.stopDistanceFraction, c.trading.initialCapital, c.trading.commissionRate, bar.time, None, false)
  }

  function EntryPhase(c: SessionConfig, limits: RiskLimits, s: Session, bar: Bar, equity: real,
                      suppress: bool): Result<Phase, Error>
    requires s.ledger.Valid()
  {
    if suppress then
      Ok(Phase(s.(incidents := s.incidents + [Incident(bar.time.instant, OrderBlocked)]), Some(Signalled(BUY)), None))
    else
      match AfterBuySubmission(limits, s.ledger, s.risk, EntryArgs(c, bar, equity))
      case Err(e) => Err(e)
      case Ok((after, outcome)) =>
        var price := c.trading.BuyPrice(bar.open);
        Ok(Phase(
          if outcome.submitted then
            s.(ledger := after,
               stopPrice := if c.trading.enableStopLoss then Some(c.trading.StopPrice(price)) else None,
               targetPrice := if c.trading.enableTargetExit
                              then Some(c.trading.TargetPrice(price, limits.minimumRewardRisk)) else None)
          else s.(ledger := after, incidents := s.incidents + [Incident(bar.time.instant, OrderBlocked)]),
          Some(Signalled(BUY)), Some(outcome)))
  }

  function SalePhase(c: SessionConfig, s: Session, bar: Bar, position: Position): Result<Phase, Error> {
    match AfterSellSubmission(s.ledger, SellAll(bar, position, KSell, c.trading.SellPrice(bar.open)))
    case Err(e) => Err(e)
    case Ok((after, outcome)) =>
      Ok(Phase(s.(ledger := after, stopPrice := None, targetPrice := None), Some(Signalled(SELL)), Some(outcome)))
  }

  /** The decision on the last closed bar, given the position held now. */
  function SignalFor(strategy: Strategy, history: seq<Bar>, holding: bool): Option<Signal> {
    if |history| < 2 then None else SignalAt(strategy, history, |history| - 2, holding)
  }

  /** Unless an exit fired, act on the pending signal; exits are never suppressed. */
  function SignalPhase(c: SessionConfig, limits: RiskLimits, strategy: Strategy, exited: Phase, bar: Bar,
                       equity: real, suppress: bool): Result<Phase, Error>
    requires exited.session.ledger.Valid()
  {
    var s := exited.session;
    var position := CurrentPosition(s.ledger);
    var signal := if exited.action.None? then SignalFor(strategy, s.history, position.Some?) else None;
    if signal.None? then Ok(exited)
    else if signal.value.action.BUY? && position.None? then EntryPhase(c, limits, s, bar, equity, suppress)
    else if signal.value.action.SELL? && position.Some? then SalePhase(c, s, bar, position.value)
    else Ok(Phase(s, Some(Signalled(signal.value.action)), None))
  }

  function Logged(p: Phase, bar: Bar, suppress: bool): Session {
    p.session.(events := p.session.events +
      [BarEvent(bar.time, p.action, p.outcome, suppress && p.action == Some(Signalled(BUY)))])
  }

  lemma ExitKeepsValid(c: SessionConfig, s: Session, bar: Bar)
    requires s.ledger.Valid() && ExitPhase(c, s, bar).Ok?
    ensures ExitPhase(c, s, bar).value.session.ledger.Valid()
  {
    hide AfterSellSubmission, CurrentPosition;
    var position := CurrentPosition(s.ledger);
    if position.Some? && s.stopPrice.Some? {
      SellSubmissionKeepsValid(s.ledger,
        SellAll(bar, position.value, KStopLoss, c.trading.SellPrice(Min(bar.open, s.stopPrice.value))));
    }
    if position.Some? && s.targetPrice.Some? {
      SellSubmissionKeepsValid(s.ledger,
        SellAll(bar, position.value, KTarget, c.trading.SellPrice(Max(bar.open, s.targetPrice.value))));
    }
  }

  lemma SignalKeepsValid(c: SessionConfig, limits: RiskLimits, strategy: Strategy, exited: Phase, bar: Bar,
                         equity: real, suppress: bool)
    requires exited.session.ledger.Valid()
    requires SignalPhase(c, limits, strategy, exited, bar, equity, suppress).Ok?
    ensures SignalPhase(c, limits, strategy, exited, bar, equity, suppress).value.session.ledger.Valid()
  {
    hide AfterSellSubmission, AfterBuySubmission, CurrentPosition, SignalFor;
    var s := exited.session;
    var position := CurrentPosition(s.ledger);
    var held := if position.Some? then position.value else Position("", "", 0, 0.0);
    BuySubmissionKeepsValid(limits, s.ledger, s.risk, EntryArgs(c, bar, equity));
    SellSubmissionKeepsValid(s.ledger, SellAll(bar, held, KSell, c.trading.SellPrice(bar.open)));
  }

  /** A call's effect: the state it left, and the exception, if it raised part of the way. */
  datatype Effect = Effect(session: Session, error: Option<Error>)

  /** The rest of a bar, once it is in the history: mark, exits, signal. */
  function AfterReceipt(c: SessionConfig, limits: RiskLimits, strategy: Strategy, received: Session, bar: Bar,
                        equity: real, suppress: bool): Effect
    requires received.ledger.Valid()
  {
    match AfterMark(limits, received.risk, equity, bar.time)
    case Err(e) => Effect(received, Some(e))
    case Ok(risk) =>
      var marked := received.(risk := risk);
      match ExitPhase(c, marked, bar)
      case Err(e) => Effect(marked, Some(e))
      case Ok(exited) =>
        ExitKeepsValid(c, marked, bar);
        match SignalPhase(c, limits, strategy, exited, bar, equity, suppress)
        case Err(e) => Effect(exited.session, Some(e))
        case Ok(acted) => Effect(Logged(acted, bar, suppress), None)
  }

  /** on_bar */
  function AfterBar(c: SessionConfig, limits: RiskLimits, strategy: Strategy, s: Session, bar: Bar): Effect
    requires s.ledger.Valid()
  {
    if WrongInstrument(s, bar) then Effect(s, Some(ValueError))
    else AfterReceipt(c, limits, strategy, Received(c, s, bar), bar, EquityAt(s.ledger, bar.open),
        Suppresses(c, s, bar))
  }

  lemma BarKeepsValid(c: SessionConfig, limits: RiskLimits, strategy: Strategy, s: Session, bar: Bar)
    requires s.ledger.Valid()
    ensures AfterBar(c, limits, strategy, s, bar).session.ledger.Valid()
  {
    hide ExitPhase, SignalPhase, EquityAt, AfterMark;
    var equity := EquityAt(s.ledger, bar.open);
    var risk := AfterMark(limits, s.risk, equity, bar.time);
    if !WrongInstrument(s, bar) && risk.Ok? {
      var marked := Received(c, s, bar).(risk := risk.value);
      var exited := ExitPhase(c, marked, bar);
      if exited.Ok? {
        ExitKeepsValid(c, marked, bar);
        if SignalPhase(c, limits, strategy, exited.value, bar, equity, Suppresses(c, s, bar)).Ok? {
          SignalKeepsValid(c, limits, strategy, exited.value, bar, equity, Suppresses(c, s, bar));
        }
      }
    }
  }

  // ----- What a stale or gapped feed suppresses

  lemma ExitsBuyNothing(c: SessionConfig, s: Session, bar: Bar)
    requires s.ledger.Valid() && ExitPhase(c, s, bar).Ok?
    ensures NothingBought(s.ledger, ExitPhase(c, s, bar).value.session.ledger)
  {
    hide AfterSellSubmission, CurrentPosition, NothingBought;
    var position := CurrentPosition(s.ledger);
    if position.Some? && StopTouched(s, bar) {
      SalesBuyNothing(s.ledger, SellAll(bar, position.value, KStopLoss,
          c.trading.SellPrice(Min(bar.open, s.stopPrice.value))));
    } else if position.Some? && TargetTouched(s, bar) {
      SalesBuyNothing(s.ledger, SellAll(bar, position.value, KTarget,
          c.trading.SellPrice(Max(bar.open, s.targetPrice.value))));
    }
    NothingChangedNothingBought(s.ledger);
  }

  lemma NothingChangedNothingBought(l: Ledger)
    ensures NothingBought(l, l)
  {}

  lemma SuppressedSignalBuysNothing(c: SessionConfig, limits: RiskLimits, strategy: Strategy, exited: Phase, bar: Bar,
                                    equity: real)
    requires exited.session.ledger.Valid()
    requires SignalPhase(c, limits, strategy, exited, bar, equity, true).Ok?
    ensures NothingBought(exited.session.ledger, SignalPhase(c, limits, strategy, exited, bar, equity,
            true).value.session.ledger)
  {
    hide AfterSellSubmission, CurrentPosition, SignalFor, NothingBought;
    var s := exited.session;
    var position := CurrentPosition(s.ledger);
    if position.Some? {
      var sale := SellAll(bar, position.value, KSell, c.trading.SellPrice(bar.open));
      if AfterSellSubmission(s.ledger, sale).Ok? {
        SalesBuyNothing(s.ledger, sale);
      }
    }
    NothingChangedNothingBought(s.ledger);
  }

  /** A bar after a gap or an explicit stale mark fills no purchase, whatever the strategy says. */
  lemma StaleBarBuysNothing(c: SessionConfig, limits: RiskLimits, strategy: Strategy, s: Session, bar: Bar)
    requires s.ledger.Valid()
    requires s.explicitStale ||
             (s.lastBarTime.Some? && bar.time.instant - s.lastBarTime.value > c.maxBarGap)
    ensures NothingBought(s.ledger, AfterBar(c, limits, strategy, s, bar).session.ledger)
  {
    hide ExitPhase, SignalPhase, EquityAt, AfterMark, IsFilledBuy;
    var equity := EquityAt(s.ledger, bar.open);
    var risk := AfterMark(limits, s.risk, equity, bar.time);
    if !WrongInstrument(s, bar) && risk.Ok? {
      var marked := Received(c, s, bar).(risk := risk.value);
      var exited := ExitPhase(c, marked, bar);
      if exited.Ok? {
        ExitsBuyNothing(c, marked, bar);
        ExitKeepsValid(c, marked, bar);
        if SignalPhase(c, limits, strategy, exited.value, bar, equity, true).Ok? {
          SuppressedSignalBuysNothing(c, limits, strategy, exited.value, bar, equity);
        }
      }
    }
  }

  lemma HoldingSignalIgnoresStaleness(c: SessionConfig, limits: RiskLimits, strategy: Strategy, exited: Phase,
                                      bar: Bar, equity: real)
    requires exited.session.ledger.Valid()
    requires exited.action.None? ==> CurrentPosition(exited.session.ledger).Some?
    requires exited.action != Some(Signalled(BUY))
    ensures SignalPhase(c, limits, strategy, exited, bar, equity, true)
            == SignalPhase(c, limits, strategy, exited, bar, equity, false)
    ensures SignalPhase(c, limits, strategy, exited, bar, equity, true).Ok? ==>
              SignalPhase(c, limits, strategy, exited, bar, equity, true).value.action != Some(Signalled(BUY))
  {
    hide AfterSellSubmission, AfterBuySubmission, CurrentPosition, SignalAt;
    if |exited.session.history| >= 2 {
      SignalFitsHolding(strategy, exited.session.history, |exited.session.history| - 2, true);
    }
  }

  /**
   * A session that holds a position handles a stale bar exactly as it would a fresh one: exits are never suppressed.
   */
  lemma StalenessSparesPositions(c: SessionConfig, limits: RiskLimits, strategy: Strategy, received: Session, bar: Bar,
                                 equity: real)
    requires received.ledger.Valid() && CurrentPosition(received.ledger).Some?
    ensures AfterReceipt(c, limits, strategy, received, bar, equity, true)
         == AfterReceipt(c, limits, strategy, received, bar, equity, false)
  {
    hide SignalPhase, AfterMark, AfterSellSubmission, CurrentPosition;
    var risk := AfterMark(limits, received.risk, equity, bar.time);
    if risk.Ok? {
      var marked := received.(risk := risk.value);
      var exited := ExitPhase(c, marked, bar);
      if exited.Ok? {
        ExitKeepsValid(c, marked, bar);
        HoldingSignalIgnoresStaleness(c, limits, strategy, exited.value, bar, equity);
      }
    }
  }

  class ShadowTradingSession {
    const config: SessionConfig
    const riskLimits: RiskLimits
    const strategy: Strategy
    const broker: PaperBroker
    const riskEngine: RiskEngine
    const orderManager: OrderManager
    var history: seq<Bar>
    var lastBarTime: Option<int>
    var explicitStale: bool
    var events: seq<BarEvent>
    var incidents: seq<Incident>
    var stopPrice: Option<real>
    var targetPrice: Option<real>

    ghost predicate Valid()
      reads this, broker
    {
      && broker.Valid()
      && orderManager.broker == broker && orderManager.riskEngine == riskEngine
      && riskEngine.limits == riskLimits
    }

    function View(): Session
      reads this, broker, riskEngine
    {
      Session(broker.View(), riskEngine.View(), history, lastBarTime, explicitStale, stopPrice, targetPrice, incidents,
          events)
    }

    constructor (strategy: Strategy, config: SessionConfig, riskLimits: RiskLimits)
      requires riskLimits.accountCapital == config.trading.initialCapital
      ensures Valid() && fresh(broker) && fresh(riskEngine)
      ensures this.strategy == strategy && this.config == config && this.riskLimits == riskLimits
      ensures View() == NewSession(config)
    {
      this.strategy, this.config, this.riskLimits := strategy, config, riskLimits;
      var b := new PaperBroker(config.trading.initialCapital, config.trading.commissionRate);
      var e := new RiskEngine(riskLimits);
      var m := new OrderManager(b, e);
      broker, riskEngine, orderManager := b, e, m;
      history, lastBarTime, explicitStale := [], None, false;
      events, incidents, stopPrice, targetPrice := [], [], None, None;
    }

    /** The source's constructor: raises when the limits are for another capital. */
    static method Create(strategy: Strategy, config: SessionConfig, riskLimits: RiskLimits)
      returns (r: Result<ShadowTradingSession, Error>)
      ensures r.Ok? <==> riskLimits.accountCapital == config.trading.initialCapital
      ensures r.Ok? ==> fresh(r.value) && r.value.Valid() && r.value.View() == NewSession(config)
    {
      if riskLimits.accountCapital != config.trading.initialCapital {
        return Err(ValueError);
      }
      var session := new ShadowTradingSession(strategy, config, riskLimits);
      return Ok(session);
    }

    /** Suppress entries until the next bar. */
    method MarkStale(reason: string, now: int) returns (r: Result<(), Error>)
      requires Valid()
      modifies this
      ensures Valid()
      ensures r == if Blank(reason) then Err(ValueError) else Ok(())
      ensures View() == if Blank(reason) then old(View())
                        else old(View()).(explicitStale := true,
                            incidents := old(incidents) + [Incident(now, ManualStale)])
    {
      if Blank(reason) {
        return Err(ValueError);
      }
      explicitStale := true;
      incidents := incidents + [Incident(now, ManualStale)];
      return Ok(());
    }

    method SubmitExit(bar: Bar, position: Position, kind: OrderKind, price: real, action: BarAction,
                      incident: IncidentKind)
      returns (r: Result<Outcome, Error>)
      requires Valid()
      modifies broker, `stopPrice, `targetPrice, `incidents
      ensures Valid()
      ensures var spec := ExitAt(old(View()), bar, position, kind, price, action, incident);
              if spec.Err? then r == Err(spec.error) && View() == old(View())
              else r.Ok? && spec.value == Phase(View(), Some(action), Some(r.value))
    {
      hide AfterSellSubmission;
      r := orderManager.SubmitSell(SellArgs(OrderId(bar.instrument, bar.time.instant, kind), bar.instrument,
          bar.exchange,
                                            position.quantity, price, bar.time));
      if r.Err? {
        return;
      }
      incidents := incidents + [Incident(bar.time.instant, incident)];
      stopPrice := None;
      targetPrice := None;
    }

    /** The stop-loss and target checks of on_bar. */
    method CheckExits(bar: Bar) returns (r: Result<(Option<BarAction>, Option<Outcome>), Error>)
      requires Valid()
      modifies broker, `stopPrice, `targetPrice, `incidents
      ensures Valid()
      ensures var spec := ExitPhase(config, old(View()), bar);
              if spec.Err? then r == Err(spec.error) && View() == old(View())
              else r.Ok? && spec.value == Phase(View(), r.value.0, r.value.1)
    {
      hide ExitAt, Select;
      var positions := broker.ListPositions();
      if |positions| > 0 && stopPrice.Some? && bar.low <= stopPrice.value {
        var fillPrice := config.trading.SellPrice(Min(bar.open, stopPrice.value));
        var outcome := SubmitExit(bar, positions[0], KStopLoss, fillPrice, StoppedOut, StopLossHit);
        return if outcome.Err? then Err(outcome.error) else Ok((Some(StoppedOut), Some(outcome.value)));
      } else if |positions| > 0 && targetPrice.Some? && bar.high >= targetPrice.value {
        var fillPrice := config.trading.SellPrice(Max(bar.open, targetPrice.value));
        var outcome := SubmitExit(bar, positions[0], KTarget, fillPrice, TargetExited, TargetReached);
        return if outcome.Err? then Err(outcome.error) else Ok((Some(TargetExited), Some(outcome.value)));
      }
      return Ok((None, None));
    }

    method EnterOnSignal(bar: Bar, equity: real, suppress: bool) returns (r: Result<Option<Outcome>, Error>)
      requires Valid()
      modifies broker, `stopPrice, `targetPrice, `incidents
      ensures Valid()
      ensures var spec := EntryPhase(config, riskLimits, old(View()), bar, equity, suppress);
              if spec.Err? then r == Err(spec.error) && View() == old(View())
              else r.Ok? && spec.value == Phase(View(), Some(Signalled(BUY)), r.value)
    {
      hide AfterBuySubmission;
      if suppress {
        incidents := incidents + [Incident(bar.time.instant, OrderBlocked)];
        return Ok(None);
      }
      var fillPrice := config.trading.BuyPrice(bar.open);
      var outcome := orderManager.SubmitBuy(
        BuyArgs(OrderId(bar.instrument, bar.time.instant, KBuy), bar.instrument, bar.exchange, equity, fillPrice,
                config.trading.stopDistanceFraction, config.trading.initialCapital, config.trading.commissionRate,
                bar.time, None, false));
      if outcome.Err? {
        return Err(outcome.error);
      }
      if outcome.value.submitted {
        stopPrice := if config.trading.enableStopLoss then Some(config.trading.StopPrice(fillPrice)) else None;
        targetPrice := if config.trading.enableTargetExit
                       then Some(config.trading.TargetPrice(fillPrice, riskLimits.minimumRewardRisk)) else None;
      } else {
        incidents := incidents + [Incident(bar.time.instant, OrderBlocked)];
      }
      return Ok(Some(outcome.value));
    }

    /** The signal part of on_bar, after the exits. */
    method ActOnSignal(bar: Bar, equity: real, suppress: bool, exitAction: Option<BarAction>,
                       exitOutcome: Option<Outcome>)
      returns (r: Result<(Option<BarAction>, Option<Outcome>), Error>)
      requires Valid()
      modifies broker, `stopPrice, `targetPrice, `incidents
      ensures Valid()
      ensures var spec := SignalPhase(config, riskLimits, strategy, Phase(old(View()), exitAction, exitOutcome), bar,
              equity, suppress);
              if spec.Err? then r == Err(spec.error) && View() == old(View())
              else r.Ok? && spec.value == Phase(View(), r.value.0, r.value.1)
    {
      hide EntryPhase, Select, AfterSellSubmission, SignalAt;
      var positions := broker.ListPositions();
      var holding := |positions| > 0;
      var signal: Option<Signal> := None;
      if exitAction.None? && |history| >= 2 {
        signal := SignalAt(strategy, history, |history| - 2, holding);
      }
      if signal.None? {
        return Ok((exitAction, exitOutcome));
      }
      if signal.value.action.BUY? && !holding {
        var outcome := EnterOnSignal(bar, equity, suppress);
        return if outcome.Err? then Err(outcome.error) else Ok((Some(Signalled(BUY)), outcome.value));
      } else if signal.value.action.SELL? && holding {
        var fillPrice := config.trading.SellPrice(bar.open);
        var outcome := orderManager.SubmitSell(
          SellArgs(OrderId(bar.instrument, bar.time.instant, KSell), bar.instrument, bar.exchange,
                   positions[0].quantity, fillPrice, bar.time));
        if outcome.Err? {
          return Err(outcome.error);
        }
        stopPrice := None;
        targetPrice := None;
        return Ok((Some(Signalled(SELL)), Some(outcome.value)));
      }
      return Ok((Some(Signalled(signal.value.action)), None));
    }

    /** The rest of on_bar, once the bar is in the history. */
    method ProcessBar(bar: Bar, equityBeforeBar: real, suppressNewEntries: bool) returns (r: Result<(), Error>)
      requires Valid()
      modifies broker, riskEngine, `stopPrice, `targetPrice, `incidents, `events
      ensures Valid()
      ensures AfterReceipt(config, riskLimits, strategy, old(View()), bar, equityBeforeBar, suppressNewEntries)
           == Effect(View(), if r.Err? then Some(r.error) else None)
    {
      hide ExitPhase, SignalPhase, AfterMark;
      var marked := riskEngine.MarkToMarket(equityBeforeBar, bar.time);
      if marked.Err? {
        return Err(marked.error);
      }
      var exited := CheckExits(bar);
      if exited.Err? {
        return Err(exited.error);
      }
      var acted := ActOnSignal(bar, equityBeforeBar, suppressNewEntries, exited.value.0, exited.value.1);
      if acted.Err? {
        return Err(acted.error);
      }
      events := events + [BarEvent(bar.time, acted.value.0, acted.value.1,
                                   suppressNewEntries && acted.value.0 == Some(Signalled(BUY)))];
      return Ok(());
    }

    /** Process one bar; an exception leaves the session part of the way through it. */
    method OnBar(bar: Bar) returns (r: Result<(), Error>)
      requires Valid()
      modifies this, broker, riskEngine
      ensures Valid()
      ensures AfterBar(config, riskLimits, strategy, old(View()), bar)
              == Effect(View(), if r.Err? then Some(r.error) else None)
    {
      hide AfterReceipt, Select, Notional;
      if |history| > 0 && (bar.instrument != history[0].instrument || bar.exchange != history[0].exchange) {
        return Err(ValueError);
      }
      var gapDetected := false;
      if lastBarTime.Some? {
        var gap := bar.time.instant - lastBarTime.value;
        if gap > config.maxBarGap {
          gapDetected := true;
          incidents := incidents + [Incident(bar.time.instant, DataGap)];
        }
      }
      var suppressNewEntries := gapDetected || explicitStale;
      explicitStale := false;
      history := history + [bar];
      lastBarTime := Some(bar.time.instant);
      var positions := broker.ListPositions();
      var equityBeforeBar := broker.cash + if |positions| > 0 then Notional(bar.open, positions[0].quantity) else 0.0;
      assert View() == Received(config, old(View()), bar);
      r := ProcessBar(bar, equityBeforeBar, suppressNewEntries);
    }
  }
}
