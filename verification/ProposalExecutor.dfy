/** Risk-gated execution of agent proposals, with stop and target enforced by code (agent/executor.py). */
module ProposalExecuting {
  import opened Prelude
  import opened OrderedDict
  import opened Models
  import opened Risk
  import opened PaperBroking
  import opened OrderManaging
  import opened SingleInstrument
  import opened LedgerLaws
  import Backtesting

  datatype ProposalAction = ProposeBuy | ProposeSell | Hold

  datatype Proposal = Proposal(instrument: string, exchange: string, action: ProposalAction,
                               targetPrice: Option<real>, stopPrice: Option<real>)

  /** Proposals are validated when built: a purchase's levels are positive. */
  type TradeProposal = p: Proposal |
    p.action.ProposeBuy? ==>
      (p.targetPrice.Some? ==> p.targetPrice.value > 0.0) && (p.stopPrice.Some? ==> p.stopPrice.value > 0.0)
    witness Proposal("A", "X", Hold, None, None)

  datatype ProposalReason = AlreadyHolding | NothingToSell | FromOrder(reason: BlockReason)

  datatype ProposalResult = ProposalResult(outcome: Option<Outcome>, approved: bool, reasons: seq<ProposalReason>)

  datatype ExecutorConfig = ExecutorConfig(instrument: string, exchange: string, trading: Backtesting.BacktestConfig)

  datatype Executor = Executor(ledger: Ledger, risk: RiskState, stopPrice: Option<real>, targetPrice: Option<real>)

  /** A call's effect: the state it left, and what it returned or raised. */
  datatype Effect<T> = Effect(executor: Executor, result: Result<T, Error>)

  /** Orders carry the executor's own instrument and exchange. */
  function OwnBar(c: ExecutorConfig, bar: Bar): Bar { bar.(instrument := c.instrument, exchange := c.exchange) }

  function OrderReasons(reasons: seq<BlockReason>): (r: seq<ProposalReason>)
    ensures |r| == |reasons|
  {
    seq(|reasons|, i requires 0 <= i < |reasons| => FromOrder(reasons[i]))
  }

  function Exited(s: Executor, bar: Bar, position: Position, kind: OrderKind, price: real): Effect<Outcome> {
    match AfterSellSubmission(s.ledger, SellAll(bar, position, kind, price))
    case Err(e) => Effect(s, Err(e))
    case Ok((after, outcome)) => Effect(s.(ledger := after, stopPrice := None, targetPrice := None), Ok(outcome))
  }

  predicate StopHit(c: ExecutorConfig, s: Executor, bar: Bar) {
    c.trading.enableStopLoss && s.stopPrice.Some? && bar.low <= s.stopPrice.value
  }

  predicate TargetHit(c: ExecutorConfig, s: Executor, bar: Bar) {
    c.trading.enableTargetExit && s.targetPrice.Some? && bar.high >= s.targetPrice.value
  }

  /** The stop and target checks of mark_to_market. */
  function AfterLevels(c: ExecutorConfig, s: Executor, bar: Bar): Effect<()>
    requires s.ledger.Valid()
  {
    var position := CurrentPosition(s.ledger);
    if position.None? || !(StopHit(c, s, bar) || TargetHit(c, s, bar)) then Effect(s, Ok(()))
    else
      var kind := if StopHit(c, s, bar) then KStopLoss else KTarget;
      var trigger := if StopHit(c, s, bar) then Min(bar.open, s.stopPrice.value)
          else Max(bar.open, s.targetPrice.value);
      var exited := Exited(s, OwnBar(c, bar), position.value, kind, c.trading.SellPrice(trigger));
      Effect(exited.executor, if exited.result.Err? then Err(exited.result.error) else Ok(()))
  }

  /** mark_to_market */
  function AfterMarking(c: ExecutorConfig, limits: RiskLimits, s: Executor, bar: Bar): Effect<()>
    requires s.ledger.Valid()
  {
    if bar.instrument != c.instrument || bar.exchange != c.exchange then Effect(s, Err(ValueError))
    else
      match AfterMark(limits, s.risk, EquityAt(s.ledger, bar.open), bar.time)
      case Err(e) => Effect(s, Err(e))
      case Ok(risk) => AfterLevels(c, s.(risk := risk), bar)
  }

  function DefaultStop(c: ExecutorConfig, entry: real): real { c.trading.StopPrice(entry) }

  function DefaultTarget(c: ExecutorConfig, limits: RiskLimits, entry: real): real {
    c.trading.TargetPrice(entry, limits.minimumRewardRisk)
  }

  /** The agent's levels count only on the safe side of the defaults. */
  function TrackedStop(c: ExecutorConfig, proposal: TradeProposal, entry: real): Option<real> {
    if !c.trading.enableStopLoss then None
    else Some(if proposal.stopPrice.Some? then Max(proposal.stopPrice.value, DefaultStop(c, entry))
        else DefaultStop(c, entry))
  }

  function TrackedTarget(c: ExecutorConfig, limits: RiskLimits, proposal: TradeProposal, entry: real): Option<real> {
    if !c.trading.enableTargetExit then None
    else Some(if proposal.targetPrice.Some? then Min(proposal.targetPrice.value, DefaultTarget(c, limits, entry))
              else DefaultTarget(c, limits, entry))
  }

  function EntryArgs(c: ExecutorConfig, l: Ledger, bar: Bar): BuyArgs {
    BuyArgs(IdFor(OwnBar(c, bar), KBuy), c.instrument, c.exchange, l.cash, c.trading.BuyPrice(bar.open),
            c.trading.stopDistanceFraction, c.trading.initialCapital, c.trading.commissionRate, bar.time, None, false)
  }

  function AfterBuying(c: ExecutorConfig, limits: RiskLimits, s: Executor, proposal: TradeProposal,
                       bar: Bar): Effect<ProposalResult>
    requires s.ledger.Valid()
  {
    match AfterBuySubmission(limits, s.ledger, s.risk, EntryArgs(c, s.ledger, bar))
    case Err(e) => Effect(s, Err(e))
    case Ok((after, outcome)) =>
      var entry := c.trading.BuyPrice(bar.open);
      Effect(
        if outcome.submitted then
          s.(ledger := after, stopPrice := TrackedStop(c, proposal, entry),
              targetPrice := TrackedTarget(c, limits, proposal, entry))
        else s.(ledger := after),
        Ok(ProposalResult(Some(outcome), outcome.submitted, OrderReasons(outcome.reasons))))
  }

  /** execute */
  function AfterProposal(c: ExecutorConfig, limits: RiskLimits, s: Executor, proposal: TradeProposal,
                         bar: Bar): Effect<ProposalResult>
    requires s.ledger.Valid()
  {
    if proposal.instrument != c.instrument || proposal.exchange != c.exchange then Effect(s, Err(ValueError))
    else
      var position := CurrentPosition(s.ledger);
      match proposal.action
      case Hold => Effect(s, Ok(ProposalResult(None, true, [])))
      case ProposeBuy =>
        if position.Some? then Effect(s, Ok(ProposalResult(None, false, [AlreadyHolding])))
        else AfterBuying(c, limits, s, proposal, bar)
      case ProposeSell =>
        if position.None? then Effect(s, Ok(ProposalResult(None, false, [NothingToSell])))
        else
          var sale := Exited(s, OwnBar(c, bar), position.value, KSell, c.trading.SellPrice(bar.open));
          Effect(sale.executor,
                 if sale.result.Err? then Err(sale.result.error)
                 else Ok(ProposalResult(Some(sale.result.value), sale.result.value.submitted,
                     OrderReasons(sale.result.value.reasons))))
  }

  class ProposalExecutor {
    const config: ExecutorConfig
    const riskLimits: RiskLimits
    const broker: PaperBroker
    const riskEngine: RiskEngine
    const orderManager: OrderManager
    var stopPrice: Option<real>
    var targetPrice: Option<real>

    ghost predicate Valid()
      reads this, broker
    {
      && broker.Valid()
      && orderManager.broker == broker && orderManager.riskEngine == riskEngine
      && riskEngine.limits == riskLimits
    }

    function View(): Executor
      reads this, broker, riskEngine
    {
      Executor(broker.View(), riskEngine.View(), stopPrice, targetPrice)
    }

    constructor (config: ExecutorConfig, riskLimits: RiskLimits)
      requires riskLimits.accountCapital == config.trading.initialCapital
      ensures Valid() && fresh(broker) && fresh(riskEngine)
      ensures this.config == config && this.riskLimits == riskLimits
      ensures View() == Executor(NewLedger(config.trading.initialCapital, config.trading.commissionRate), FRESH, None,
              None)
    {
      this.config, this.riskLimits := config, riskLimits;
      var b := new PaperBroker(config.trading.initialCapital, config.trading.commissionRate);
      var e := new RiskEngine(riskLimits);
      var m := new OrderManager(b, e);
      broker, riskEngine, orderManager, stopPrice, targetPrice := b, e, m, None, None;
    }

    /** The source's constructor: raises when the limits are for another capital. */
    static method Create(config: ExecutorConfig, riskLimits: RiskLimits) returns (r: Result<ProposalExecutor, Error>)
      ensures r.Ok? <==> riskLimits.accountCapital == config.trading.initialCapital
      ensures r.Ok? ==> && fresh(r.value) && r.value.Valid()
                        && r.value.View() == Executor(NewLedger(config.trading.initialCapital,
                            config.trading.commissionRate), FRESH, None, None)
    {
      if riskLimits.accountCapital != config.trading.initialCapital {
        return Err(ValueError);
      }
      var executor := new ProposalExecutor(config, riskLimits);
      return Ok(executor);
    }

    method SubmitExit(id: OrderId, quantity: int, price: real, time: Timestamp) returns (r: Result<Outcome, Error>)
      requires Valid()
      modifies this, broker
      ensures Valid()
      ensures var sold := AfterSellSubmission(old(View()).ledger,
              SellArgs(id, config.instrument, config.exchange, quantity, price, time));
              if sold.Err? then r == Err(sold.error) && View() == old(View())
              else r == Ok(sold.value.1) && View() == old(View()).(ledger := sold.value.0, stopPrice := None,
                  targetPrice := None)
    {
      hide AfterSellSubmission;
      r := orderManager.SubmitSell(SellArgs(id, config.instrument, config.exchange, quantity, price, time));
      if r.Ok? {
        stopPrice := None;
        targetPrice := None;
      }
    }

    /** Mark to market, then enforce the active levels, before any proposal is considered. */
    method MarkToMarket(bar: Bar) returns (r: Result<(), Error>)
      requires Valid()
      modifies this, broker, riskEngine
      ensures Valid()
      ensures AfterMarking(config, riskLimits, old(View()), bar) == Effect(View(), r)
    {
      hide AfterSellSubmission, AfterMark, Select, Notional;
      if bar.instrument != config.instrument || bar.exchange != config.exchange {
        return Err(ValueError);
      }
      var positions := broker.ListPositions();
      var equity := broker.cash + if |positions| > 0 then Notional(bar.open, positions[0].quantity) else 0.0;
      assert equity == EquityAt(View().ledger, bar.open);
      var marked := riskEngine.MarkToMarket(equity, bar.time);
      if marked.Err? {
        return Err(marked.error);
      }
      if |positions| == 0 {
        return Ok(());
      }
      var stopHit := config.trading.enableStopLoss && stopPrice.Some? && bar.low <= stopPrice.value;
      var targetHit := config.trading.enableTargetExit && targetPrice.Some? && bar.high >= targetPrice.value;
      if stopHit {
        var fillPrice := config.trading.SellPrice(Min(bar.open, stopPrice.value));
        var outcome := SubmitExit(OrderId(config.instrument, bar.time.instant, KStopLoss), positions[0].quantity,
            fillPrice, bar.time);
        return if outcome.Err? then Err(outcome.error) else Ok(());
      } else if targetHit {
        var fillPrice := config.trading.SellPrice(Max(bar.open, targetPrice.value));
        var outcome := SubmitExit(OrderId(config.instrument, bar.time.instant, KTarget), positions[0].quantity,
            fillPrice, bar.time);
        return if outcome.Err? then Err(outcome.error) else Ok(());
      }
      return Ok(());
    }

    /** Risk-gate one proposal and, if approved, execute it at the bar's open. */
    method Execute(proposal: TradeProposal, bar: Bar) returns (r: Result<ProposalResult, Error>)
      requires Valid()
      modifies this, broker
      ensures Valid()
      ensures AfterProposal(config, riskLimits, old(View()), proposal, bar) == Effect(View(), r)
    {
      hide AfterSellSubmission, AfterBuySubmission, Select;
      if proposal.instrument != config.instrument || proposal.exchange != config.exchange {
        return Err(ValueError);
      }
      var positions := broker.ListPositions();
      match proposal.action
      case Hold =>
        return Ok(ProposalResult(None, true, []));
      case ProposeBuy =>
        if |positions| > 0 {
          return Ok(ProposalResult(None, false, [AlreadyHolding]));
        }
        var equity := broker.cash;
        var fillPrice := config.trading.BuyPrice(bar.open);
        var outcome := orderManager.SubmitBuy(
          BuyArgs(OrderId(config.instrument, bar.time.instant, KBuy), config.instrument, config.exchange, equity,
              fillPrice,
                  config.trading.stopDistanceFraction, config.trading.initialCapital, config.trading.commissionRate,
                  bar.time, None, false));
        if outcome.Err? {
          return Err(outcome.error);
        }
        if outcome.value.submitted {
          stopPrice := TrackedStop(config, proposal, fillPrice);
          targetPrice := TrackedTarget(config, riskLimits, proposal, fillPrice);
        }
        return Ok(ProposalResult(Some(outcome.value), outcome.value.submitted, OrderReasons(outcome.value.reasons)));
      case ProposeSell =>
        if |positions| == 0 {
          return Ok(ProposalResult(None, false, [NothingToSell]));
        }
        var fillPrice := config.trading.SellPrice(bar.open);
        var outcome := SubmitExit(OrderId(config.instrument, bar.time.instant, KSell), positions[0].quantity,
            fillPrice, bar.time);
        if outcome.Err? {
          return Err(outcome.error);
        }
        return Ok(ProposalResult(Some(outcome.value), outcome.value.submitted, OrderReasons(outcome.value.reasons)));
    }
  }

  // ----- Runs: strictly increasing bars, at most one proposal a bar

  datatype Step = Step(bar: Bar, proposal: Option<TradeProposal>)

  lemma MarkingKeepsValid(c: ExecutorConfig, limits: RiskLimits, s: Executor, bar: Bar)
    requires s.ledger.Valid()
    ensures AfterMarking(c, limits, s, bar).executor.ledger.Valid()
  {
    hide AfterSellSubmission, CurrentPosition, AfterMark, EquityAt;
    ExitsKeepValid(s.ledger);
  }

  lemma ExitsKeepValid(l: Ledger)
    requires l.Valid()
    ensures forall a: SellArgs :: AfterSellSubmission(l, a).Ok? ==> AfterSellSubmission(l, a).value.0.Valid()
  {
    hide AfterSellSubmission, AfterBuySubmission;
    forall a: SellArgs ensures AfterSellSubmission(l, a).Ok? ==> AfterSellSubmission(l, a).value.0.Valid() {
      SellSubmissionKeepsValid(l, a);
    }
  }

  lemma ProposalKeepsValid(c: ExecutorConfig, limits: RiskLimits, s: Executor, proposal: TradeProposal, bar: Bar)
    requires s.ledger.Valid()
    ensures AfterProposal(c, limits, s, proposal, bar).executor.ledger.Valid()
  {
    hide AfterSellSubmission, AfterBuySubmission, CurrentPosition;
    ExitsKeepValid(s.ledger);
    BuySubmissionKeepsValid(limits, s.ledger, s.risk, EntryArgs(c, s.ledger, bar));
  }

  /** A bar is marked; its proposal is executed only if marking did not raise. */
  function AfterStep(c: ExecutorConfig, limits: RiskLimits, s: Executor, step: Step): (after: Executor)
    requires s.ledger.Valid()
    ensures after.ledger.Valid()
  {
    MarkingKeepsValid(c, limits, s, step.bar);
    var marked := AfterMarking(c, limits, s, step.bar);
    if marked.result.Err? || step.proposal.None? then marked.executor
    else
      ProposalKeepsValid(c, limits, marked.executor, step.proposal.value, step.bar);
      AfterProposal(c, limits, marked.executor, step.proposal.value, step.bar).executor
  }

  function NewExecutor(c: ExecutorConfig): Executor {
    Executor(NewLedger(c.trading.initialCapital, c.trading.commissionRate), FRESH, None, None)
  }

  function RunSteps(c: ExecutorConfig, limits: RiskLimits, steps: seq<Step>): (s: Executor)
    ensures s.ledger.Valid()
  {
    if |steps| == 0 then NewExecutor(c)
    else AfterStep(c, limits, RunSteps(c, limits, steps[..|steps| - 1]), steps[|steps| - 1])
  }

  predicate Increasing(steps: seq<Step>) {
    forall i, j :: 0 <= i < j < |steps| ==> steps[i].bar.time.instant < steps[j].bar.time.instant
  }

  function KeyOf(c: ExecutorConfig): string { PositionKey(c.instrument, c.exchange) }

  /** Enabled levels are tracked, and are at least as near to the entry price as the configured distances. */
  predicate NoWider(c: ExecutorConfig, limits: RiskLimits, s: Executor, entry: real) {
    && (s.stopPrice.Some? <==> c.trading.enableStopLoss)
    && (s.targetPrice.Some? <==> c.trading.enableTargetExit)
    && (s.stopPrice.Some? ==> s.stopPrice.value >= entry * (1.0 - c.trading.stopLossDistanceFraction))
    && (s.targetPrice.Some? ==>
          s.targetPrice.value <= entry * (1.0 + c.trading.stopLossDistanceFraction * limits.minimumRewardRisk))
  }

  /**
   * Levels are tracked exactly while a position is open (when enabled), and are never wider than the configured
   * distance from the entry.
   */
  ghost predicate Guarded(c: ExecutorConfig, limits: RiskLimits, s: Executor) {
    var key := KeyOf(c);
    && OnlyKey(s.ledger, key) && s.ledger.rate == c.trading.commissionRate
    && (s.ledger.Held(key) == 0 ==> s.stopPrice.None? && s.targetPrice.None?)
    && (s.ledger.Held(key) > 0 ==> NoWider(c, limits, s, s.ledger.AveragePrice(key)))
  }

  /** No order has been placed under this bar's time for these purposes. */
  ghost predicate Unused(l: Ledger, now: int, kinds: set<OrderKind>) {
    forall id | id in l.orders.data && id.kind in kinds :: id.instant < now
  }

  /** A full sale either raises and changes nothing, or leaves nothing open and no level tracked. */
  lemma SaleStaysGuarded(c: ExecutorConfig, limits: RiskLimits, s: Executor, bar: Bar, kind: OrderKind, price: real)
    requires Guarded(c, limits, s) && s.ledger.Held(KeyOf(c)) > 0
    requires IdFor(OwnBar(c, bar), kind) !in s.ledger.orders.data
    ensures CurrentPosition(s.ledger).Some?
    ensures var sale := Exited(s, OwnBar(c, bar), CurrentPosition(s.ledger).value, kind, price);
            && Guarded(c, limits, sale.executor)
            && (sale.result.Err? ==> sale.executor == s)
            && (sale.result.Ok? ==> sale.executor.ledger.Held(KeyOf(c)) == 0)
            && sale.executor.ledger.orders.data.Keys <= s.ledger.orders.data.Keys + {IdFor(OwnBar(c, bar), kind)}
  {
    hide Notional, Fee, PositionKey, AfterOrder, CurrentPosition, Blank;
    OnlyPosition(s.ledger, KeyOf(c));
    var position := s.ledger.positions.data[KeyOf(c)];
    if price > 0.0 && !Blank(c.instrument) {
      FullSaleCloses(s.ledger, SellAll(OwnBar(c, bar), position, kind, price), KeyOf(c));
    } else {
      UnsellableRaises(s.ledger, SellAll(OwnBar(c, bar), position, kind, price));
    }
  }

  lemma UnsellableRaises(l: Ledger, a: SellArgs)
    requires a.id !in l.orders.data && (a.fillPrice <= 0.0 || Blank(a.instrument))
    ensures AfterSellSubmission(l, a).Err?
  {
    hide AfterSell;
  }

  lemma MarkingStaysGuarded(c: ExecutorConfig, limits: RiskLimits, s: Executor, bar: Bar)
    requires Guarded(c, limits, s) && s.ledger.Valid()
    requires Unused(s.ledger, bar.time.instant, {KStopLoss, KTarget})
    ensures var marked := AfterMarking(c, limits, s, bar);
            && Guarded(c, limits, marked.executor)
            && (forall id | id in marked.executor.ledger.orders.data :: id in s.ledger.orders.data ||
                  (id.instant == bar.time.instant && id.kind in {KStopLoss, KTarget}))
            && (marked.result.Ok? && marked.executor.ledger.Held(KeyOf(c)) > 0 ==>
                  c.trading.enableStopLoss ==>
                    bar.low > s.ledger.AveragePrice(KeyOf(c)) * (1.0 - c.trading.stopLossDistanceFraction))
  {
    hide Notional, Fee, PositionKey, AfterMark, CurrentPosition, EquityAt, Exited, OnlyKey,
         Backtesting.Config.SellPrice,
         Backtesting.Config.StopPrice, Backtesting.Config.TargetPrice;
    OnlyPosition(s.ledger, KeyOf(c));
    var risk := AfterMark(limits, s.risk, EquityAt(s.ledger, bar.open), bar.time);
    if risk.Ok? && s.ledger.Held(KeyOf(c)) > 0 {
      var t := s.(risk := risk.value);
      if StopHit(c, t, bar) {
        SaleStaysGuarded(c, limits, t, bar, KStopLoss, c.trading.SellPrice(Min(bar.open, t.stopPrice.value)));
      } else if TargetHit(c, t, bar) {
        SaleStaysGuarded(c, limits, t, bar, KTarget, c.trading.SellPrice(Max(bar.open, t.targetPrice.value)));
      }
    }
  }

  /** The tracked levels of a purchase are no wider than the defaults of its price. */
  lemma TrackedLevelsAreNoWider(c: ExecutorConfig, limits: RiskLimits, proposal: TradeProposal, entry: real,
                                s: Executor)
    requires s.stopPrice == TrackedStop(c, proposal, entry)
    requires s.targetPrice == TrackedTarget(c, limits, proposal, entry)
    ensures NoWider(c, limits, s, entry)
  {}

  /**
   * A purchase from flat either opens nothing, or opens a position whose levels are at least as tight as the defaults.
   */
  lemma PurchaseStaysGuarded(c: ExecutorConfig, limits: RiskLimits, s: Executor, proposal: TradeProposal, bar: Bar)
    requires Guarded(c, limits, s) && s.ledger.Valid() && s.ledger.Held(KeyOf(c)) == 0
    requires IdFor(OwnBar(c, bar), KBuy) !in s.ledger.orders.data
    ensures var bought := AfterBuying(c, limits, s, proposal, bar).executor;
            && Guarded(c, limits, bought)
            && bought.ledger.orders.data.Keys <= s.ledger.orders.data.Keys + {IdFor(OwnBar(c, bar), KBuy)}
  {
    hide Notional, Fee, PositionKey, AfterOrder, Blank, SizeNewPosition, SizeByWeight, BlockReasons, Shares,
         OpenPositions, NoWider, TrackedStop, TrackedTarget, Backtesting.Config.BuyPrice;
    var a := EntryArgs(c, s.ledger, bar);
    if a.fillPrice > 0.0 {
      RiskSizeIsCapped(limits, s.ledger.cash, a.fillPrice, a.stopFraction, a.initialCapital, a.commissionRate);
      var quantity := Sized(limits, s.ledger.cash, a).value;
      if quantity > 0 {
        SizeIsAffordable(limits, s.ledger.cash, a.fillPrice, Some(a.stopFraction), a.initialCapital, a.commissionRate,
            quantity);
        PurchaseOpens(s.ledger, OrderRequest(a.id, c.instrument, c.exchange, BUY, quantity), a.fillPrice, bar.time,
            KeyOf(c));
        TrackedLevelsAreNoWider(c, limits, proposal, a.fillPrice,
                                s.(stopPrice := TrackedStop(c, proposal, a.fillPrice),
                                   targetPrice := TrackedTarget(c, limits, proposal, a.fillPrice)));
        SameLevelsAreNoWider(c, limits, AfterBuying(c, limits, s, proposal, bar).executor, a.fillPrice);
      }
    } else {
      UnpricedSizeRaises(limits, s.ledger.cash, a);
    }
  }

  lemma SameLevelsAreNoWider(c: ExecutorConfig, limits: RiskLimits, s: Executor, entry: real)
    ensures forall t: Executor | t.stopPrice == s.stopPrice && t.targetPrice == s.targetPrice ::
              NoWider(c, limits, t, entry) == NoWider(c, limits, s, entry)
  {}

  lemma UnpricedSizeRaises(limits: RiskLimits, cash: real, a: BuyArgs)
    requires a.fillPrice <= 0.0
    ensures Sized(limits, cash, a).Err?
  {}

  lemma ProposalStaysGuarded(c: ExecutorConfig, limits: RiskLimits, s: Executor, proposal: TradeProposal, bar: Bar)
    requires Guarded(c, limits, s) && s.ledger.Valid()
    requires Unused(s.ledger, bar.time.instant, {KBuy, KSell})
    ensures var after := AfterProposal(c, limits, s, proposal, bar).executor;
            && Guarded(c, limits, after)
            && (forall id | id in after.ledger.orders.data :: id in s.ledger.orders.data ||
                  (id.instant == bar.time.instant && id.kind in {KBuy, KSell}))
  {
    hide Notional, Fee, PositionKey, CurrentPosition, Exited, Guarded, AfterBuying, Backtesting.Config.SellPrice;
    GuardedPosition(c, limits, s);
    match proposal.action
    case Hold =>
    case ProposeBuy =>
      if s.ledger.Held(KeyOf(c)) == 0 {
        PurchaseStaysGuarded(c, limits, s, proposal, bar);
      }
    case ProposeSell =>
      if s.ledger.Held(KeyOf(c)) > 0 {
        SaleStaysGuarded(c, limits, s, bar, KSell, c.trading.SellPrice(bar.open));
      }
  }

  lemma GuardedPosition(c: ExecutorConfig, limits: RiskLimits, s: Executor)
    requires Guarded(c, limits, s)
    ensures s.ledger.Valid() && s.ledger.Held(KeyOf(c)) >= 0
    ensures CurrentPosition(s.ledger).Some? <==> s.ledger.Held(KeyOf(c)) > 0
  {
    OnlyPosition(s.ledger, KeyOf(c));
  }

  lemma StepStaysGuarded(c: ExecutorConfig, limits: RiskLimits, s: Executor, step: Step)
    requires Guarded(c, limits, s) && s.ledger.Valid()
    requires forall id | id in s.ledger.orders.data :: id.instant < step.bar.time.instant
    ensures var after := AfterStep(c, limits, s, step);
            && Guarded(c, limits, after)
            && forall id | id in after.ledger.orders.data :: id.instant <= step.bar.time.instant
  {
    hide AfterMarking, AfterProposal, Guarded;
    MarkingKeepsValid(c, limits, s, step.bar);
    MarkingStaysGuarded(c, limits, s, step.bar);
    var marked := AfterMarking(c, limits, s, step.bar);
    if marked.result.Ok? && step.proposal.Some? {
      ProposalStaysGuarded(c, limits, marked.executor, step.proposal.value, step.bar);
    }
  }

  /**
   * The agent can tighten but never widen its risk: over every run with strictly increasing bars and at most one
   * proposal a bar, a stop and a target are tracked exactly while a position is open (when enabled), the stop is
   * at or above entry x (1 - d), and the target at or below entry x (1 + d x reward/risk).
   */
  lemma {:induction false} AgentNeverWidensItsRisk(c: ExecutorConfig, limits: RiskLimits, steps: seq<Step>)
    requires Increasing(steps)
    ensures var s := RunSteps(c, limits, steps);
            && Guarded(c, limits, s)
            && forall id | id in s.ledger.orders.data :: |steps| > 0
                && id.instant <= steps[|steps| - 1].bar.time.instant
  {
    hide AfterStep, Guarded;
    if |steps| == 0 {
      NewExecutorIsGuarded(c, limits);
    } else {
      AgentNeverWidensItsRisk(c, limits, steps[..|steps| - 1]);
      StepStaysGuarded(c, limits, RunSteps(c, limits, steps[..|steps| - 1]), steps[|steps| - 1]);
    }
  }

  lemma NewExecutorIsGuarded(c: ExecutorConfig, limits: RiskLimits)
    ensures Guarded(c, limits, NewExecutor(c)) && NewExecutor(c).ledger.orders.data == map[]
  {}

  /** A position that survives a bar's marking was never down to the configured stop distance on that bar. */
  lemma SurvivorsStayedAboveTheStop(c: ExecutorConfig, limits: RiskLimits, steps: seq<Step>, bar: Bar)
    requires Increasing(steps) && c.trading.enableStopLoss
    requires |steps| > 0 ==> steps[|steps| - 1].bar.time.instant < bar.time.instant
    ensures var s := RunSteps(c, limits, steps);
            var marked := AfterMarking(c, limits, s, bar);
            marked.result.Ok? && marked.executor.ledger.Held(KeyOf(c)) > 0 ==>
              bar.low > s.ledger.AveragePrice(KeyOf(c)) * (1.0 - c.trading.stopLossDistanceFraction)
  {
    hide AfterMarking, Guarded, RunSteps;
    AgentNeverWidensItsRisk(c, limits, steps);
    MarkingStaysGuarded(c, limits, RunSteps(c, limits, steps), bar);
  }
}
