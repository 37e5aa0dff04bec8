/** What the loop's trades are: entries at the price paid, exits exactly at their levels, and bounded additions. */
module PortfolioTrades {
  import opened Prelude
  import opened OrderedDict
  import opened Models
  import opened Risk
  import opened PaperBroking
  import opened LedgerEffects
  import opened PortfolioLoop
  import opened PortfolioBooks
  import opened PortfolioSteps
  import opened PortfolioPhases
  import LedgerLaws
  import O = OrderManaging

  // ----- Entries

  lemma OneFillAverage(order: Order)
    requires |order.fills| == 1 && order.fills[0].quantity > 0
    ensures AverageFillPrice(order) == Some(order.fills[0].price)
    ensures FilledQuantity(order.fills) == order.fills[0].quantity
  {
    assert order.fills[..0] == [];
    assert FilledQuantity(order.fills) == order.fills[0].quantity;
    assert FillValue(order.fills) == Notional(order.fills[0].price, order.fills[0].quantity);
    ValuePerShare(order.fills[0].price, order.fills[0].quantity);
  }

  lemma ValuePerShare(price: real, quantity: int)
    requires quantity > 0
    ensures Notional(price, quantity) / quantity as real == price
  {
    Quotient(Notional(price, quantity), quantity as real, price);
  }

  lemma EntryLot(c: Config, s: Portfolio, bar: Bar, candidate: Candidate, outcome: O.Outcome, after: Ledger,
                 e: MarketEvent)
    requires bar.instrument !in s.active && outcome.order.Some?
    requires |outcome.order.value.fills| == 1 && outcome.order.value.fills[0].quantity > 0
    ensures var made, fill := WithEntry(c, s, bar, candidate, outcome, after, e), outcome.order.value.fills[0];
            && made.ledger == after
            && bar.instrument in made.active && made.active[bar.instrument] == [Lot(e.time, fill.price, fill.quantity)]
            && bar.instrument in made.plans
            && made.plans[bar.instrument] == Plan(candidate.stopPrice, candidate.targetPrice,
                candidate.technical.close, c.trailingMultiple, 0)
  {
    hide AverageFillPrice;
    OneFillAverage(outcome.order.value);
  }

  lemma NewPositionHolds(m: Market, l: Ledger, after: Ledger, a: O.BuyArgs, outcome: O.Outcome)
    requires l.Valid() && a.instrument in m && Bought(m, l, after, a, outcome) && outcome.submitted
    requires a.instrument !in Holding(m, l)
    ensures outcome.order.Some? && |outcome.order.value.fills| == 1 && outcome.order.value.fills[0].quantity > 0
    ensures outcome.order.value.fills[0].price == a.fillPrice
    ensures after.Held(KeyOf(m, a.instrument)) == outcome.order.value.fills[0].quantity
  {
    hide PositionKey, O.Placed;
  }

  /** If the instrument is held, it has one lot, the whole position at the slipped open, and the candidate's plan. */
  ghost predicate OneLot(m: Market, c: Config, s: Portfolio, bar: Bar, candidate: Candidate, e: MarketEvent)
    requires bar.instrument in m
  {
    bar.instrument in Holding(m, s.ledger) ==>
      && bar.instrument in s.active
      && s.active[bar.instrument] == [Lot(e.time, c.BuyPrice(bar.open), s.ledger.Held(KeyOf(m, bar.instrument)))]
      && bar.instrument in s.plans
      && s.plans[bar.instrument] == Plan(candidate.stopPrice, candidate.targetPrice, candidate.technical.close,
          c.trailingMultiple, 0)
  }

  lemma SubmissionOpensOneLot(m: Market, c: Config, s: Portfolio, bar: Bar, candidate: Candidate, e: MarketEvent,
                              a: O.BuyArgs, after: Ledger, outcome: O.Outcome)
    requires s.ledger.Valid() && bar.instrument in m && bar.instrument !in Holding(m, s.ledger)
             && bar.instrument !in s.active
    requires a.instrument == bar.instrument && a.fillPrice == c.BuyPrice(bar.open)
    requires Bought(m, s.ledger, after, a, outcome)
    ensures OneLot(m, c, if outcome.submitted then WithEntry(c, s, bar, candidate, outcome, after, e)
            else s.(ledger := after),
                   bar, candidate, e)
  {
    hide PositionKey, Holding, Bought, WithEntry, Ledger.Valid, Ledger.Held, Config.BuyPrice;
    if outcome.submitted {
      NewPositionHolds(m, s.ledger, after, a, outcome);
      EntryLot(c, s, bar, candidate, outcome, after, e);
    } else {
      RefusedOpensNothing(m, s.ledger, after, a, outcome);
    }
  }

  /**
   * A position that an entry opens has one lot, the whole of it, at the slipped open it was bought for, and a plan
   * with the candidate's levels and no addition.
   */
  lemma EntryOpensOneLot(m: Market, c: Config, limits: RiskLimits, s: Portfolio, bar: Bar, candidate: Candidate,
                         e: MarketEvent)
    requires Booked(m, c, s) && Listed(m, bar) && bar.instrument !in Holding(m, s.ledger)
    requires OrderIdAt(bar.instrument, e.time, KBuy) !in s.ledger.orders.data
    requires s.ledger.Valid() && Entered(c, limits, s, bar, candidate, e).Ok?
    ensures OneLot(m, c, Entered(c, limits, s, bar, candidate, e).value, bar, candidate, e)
  {
    hide PositionKey, Holding, Entries, OpenList, O.AfterBuySubmission, Bought, WithEntry, LedgerLaws.Worth, OneLot;
    BookedIsValid(m, c, s);
    assert bar.instrument !in s.active;
    hide Booked;
    var a := EntryArgs(c, s, bar, candidate, e);
    var (after, outcome) := O.AfterBuySubmission(limits, s.ledger, s.risk, a).value;
    GatedPurchase(m, limits, s.ledger, s.risk, a);
    SubmissionOpensOneLot(m, c, s, bar, candidate, e, a, after, outcome);
  }

  lemma RefusedOpensNothing(m: Market, l: Ledger, after: Ledger, a: O.BuyArgs, outcome: O.Outcome)
    requires l.Valid() && a.instrument in m && Bought(m, l, after, a, outcome) && !outcome.submitted
    ensures Holding(m, after) == Holding(m, l)
  {
    hide PositionKey;
  }

  // ----- Exits

  /** The bar reaches the position's stop level or its target. */
  predicate Exits(c: Config, s: Portfolio, e: MarketEvent, instrument: string) {
    var bar := BarOf(e.bars, instrument);
    && bar.Some? && instrument in s.plans
    && (bar.value.low <= StopLevel(c, s, s.plans[instrument], instrument) ||
        (s.plans[instrument].targetPrice.Some? && bar.value.high >= s.plans[instrument].targetPrice.value))
  }

  /** An exit step sells its position exactly when the bar reaches a level, and leaves the other plans alone. */
  lemma ExitStepIsExact(m: Market, c: Config, s: Portfolio, e: MarketEvent, p: Position, acted: set<string>,
                        exited: set<string>)
    requires Steady(m, c, s, e.time.instant) && ProperEvent(m, e)
    requires StillOpen(m, s.ledger, p) && p.instrument !in exited
    requires Spent(Ids(s), e.time.instant, acted, exited)
    requires s.ledger.Valid() && ExitStep(c, s, e, p).Ok?
    ensures var after := ExitStep(c, s, e, p).value;
            && Holding(m, after.ledger) == (if Exits(c, s, e, p.instrument) then Holding(m, s.ledger) - {p.instrument}
                else Holding(m, s.ledger))
            && (forall i | i != p.instrument ::
              (i in after.plans <==> i in s.plans) && (i in s.plans ==> after.plans[i] == s.plans[i]))
  {
    hide PositionKey, Holding, Sold, Spent, Steady, BarOf, StopLevel;
    BarOfFinds(e.bars, p.instrument);
    FreshExit(Ids(s), e, acted, exited, p.instrument, KStop);
    FreshExit(Ids(s), e, acted, exited, p.instrument, KTarget);
    var bar := BarOf(e.bars, p.instrument);
    if Exits(c, s, e, p.instrument) {
      var plan := s.plans[p.instrument];
      var stop := StopLevel(c, s, plan, p.instrument);
      if bar.value.low <= stop {
        SoldPlans(s, bar.value, p.quantity, c.SellPrice(Min(bar.value.open, stop)),
            OrderIdAt(p.instrument, e.time, KStop));
        SellingOutIsSteady(m, c, s, e.time.instant, bar.value, p.quantity, c.SellPrice(Min(bar.value.open, stop)),
                           OrderIdAt(p.instrument, e.time, KStop));
      } else {
        SoldPlans(s, bar.value, p.quantity, c.SellPrice(Max(bar.value.open, plan.targetPrice.value)),
            OrderIdAt(p.instrument, e.time, KTarget));
        SellingOutIsSteady(m, c, s, e.time.instant, bar.value, p.quantity,
            c.SellPrice(Max(bar.value.open, plan.targetPrice.value)),
                           OrderIdAt(p.instrument, e.time, KTarget));
      }
    }
  }

  lemma SoldPlans(s: Portfolio, bar: Bar, quantity: int, price: real, id: OrderId)
    requires s.ledger.Valid() && SoldOut(s, bar, quantity, price, id).Ok?
    ensures SoldOut(s, bar, quantity, price, id).value.plans == s.plans - {bar.instrument}
  {
    hide Ledger.Valid, O.AfterSellSubmission, FindInstrument, OpenList, RecordsFor;
  }

  /**
   * The exit phase closes exactly the listed positions whose bar reaches their stop level or target: the level is
   * the plan's stop, or the trailing one when that is higher, read before any exit of the phase.
   */
  lemma {:induction false} ExitsAreExact(m: Market, c: Config, s: Portfolio, e: MarketEvent, positions: seq<Position>,
                                         acted: set<string>)
    requires Steady(m, c, s, e.time.instant) && ProperEvent(m, e)
    requires OnePerInstrument(positions) && forall p | p in positions :: StillOpen(m, s.ledger, p)
    requires Spent(Ids(s), e.time.instant, acted, {})
    requires s.ledger.Valid() && AfterExits(c, s, e, positions).Ok?
    ensures var after := AfterExits(c, s, e, positions).value;
            && (forall i | i in Names(positions) :: i in Holding(m, after.ledger) <==> !Exits(c, s, e, i))
            && (forall i | i !in Names(positions) :: i in Holding(m, after.ledger) <==> i in Holding(m, s.ledger))
            && (forall i | i !in Names(positions) ::
              (i in after.plans <==> i in s.plans) && (i in s.plans ==> after.plans[i] == s.plans[i]))
  {
    hide Spent, Steady, ExitStep, StillOpen, OnePerInstrument, Names, Holding, Exits;
    if |positions| == 0 {
      NoNames(positions);
    } else {
      var init, last := positions[..|positions| - 1], positions[|positions| - 1];
      NamesSnoc(positions);
      ExitsAreWell(m, c, s, e, init, acted);
      ExitsAreExact(m, c, s, e, init, acted);
      var before := AfterExits(c, s, e, init).value;
      ExitStepIsExact(m, c, before, e, last, acted, Names(init));
      SameExits(c, s, before, e, last.instrument);
      OpenIsHolding(m, before.ledger, last);
    }
  }

  lemma SameExits(c: Config, s: Portfolio, before: Portfolio, e: MarketEvent, i: string)
    requires before.histories == s.histories
    requires (i in before.plans <==> i in s.plans) && (i in s.plans ==> before.plans[i] == s.plans[i])
    ensures Exits(c, before, e, i) == Exits(c, s, e, i)
  {
    hide SnapshotFor;
  }

  lemma OpenIsHolding(m: Market, l: Ledger, p: Position)
    requires StillOpen(m, l, p)
    ensures p.instrument in Holding(m, l)
  {}
}
