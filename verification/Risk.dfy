/** Risk limits, the kill-switch engine and position sizing (risk/limits.py, risk/engine.py). */
module Risk {
  import opened Prelude
  import opened Models
  import opened Metrics

  datatype Limits = Limits(
    accountCapital: real, capitalDeploymentFraction: real, riskPerTradeFraction: real,
    maxOpenPortfolioRiskFraction: real, maxSinglePositionFraction: real, maxSectorExposureFraction: real,
    dailyLossFraction: real, monthlyLossFraction: real, drawdownReviewFraction: real,
    hardDrawdownFraction: real, maxLeverage: real, minimumRewardRisk: real, maxPositions: int)
  {
    predicate Valid() {
      && accountCapital > 0.0
      && 0.0 < capitalDeploymentFraction <= 1.0
      && 0.0 < riskPerTradeFraction <= maxOpenPortfolioRiskFraction <= 1.0
      && 0.0 < maxSinglePositionFraction <= 1.0
      && 0.0 < maxSectorExposureFraction <= 1.0
      && 0.0 < dailyLossFraction <= 1.0
      && 0.0 < monthlyLossFraction <= 1.0
      && 0.0 < drawdownReviewFraction < hardDrawdownFraction <= 1.0
      && maxLeverage >= 1.0
      && minimumRewardRisk >= 1.0
      && maxPositions >= 1
    }

    function MaxDeployedCapital(): real { accountCapital * capitalDeploymentFraction }
    function RiskPerTrade(): real { accountCapital * riskPerTradeFraction }
    function MaxOpenPortfolioRisk(): real { accountCapital * maxOpenPortfolioRiskFraction }
    function DailyLossLimit(): real { accountCapital * dailyLossFraction }
    function MonthlyLossLimit(): real { accountCapital * monthlyLossFraction }
  }

  const DEFAULT_LIMITS: Limits :=
    Limits(100000.0, 0.80, 0.005, 0.02, 0.15, 0.25, 0.01, 0.05, 0.08, 0.12, 1.0, 1.5, 8)

  type RiskLimits = l: Limits | l.Valid() witness DEFAULT_LIMITS

  /** The drawdown that tripped the switch and the limit it reached. */
  datatype Breach = Breach(drawdown: real, limit: real)

  datatype Month = Month(year: int, month: int)

  function MonthOf(d: Date): Month { Month(d.year, d.month) }

  datatype RiskState = RiskState(
    peak: Option<real>, current: Option<real>, date: Option<Date>, month: Option<Month>,
    dailyStart: Option<real>, monthlyStart: Option<real>,
    tripped: bool, reason: Option<Breach>, resetLog: seq<string>)

  const FRESH: RiskState := RiskState(None, None, None, None, None, None, false, None, [])

  function AfterMark(limits: RiskLimits, s: RiskState, equity: real, time: Timestamp): Result<RiskState, Error> {
    if equity < 0.0 then Err(ValueError) else
    var peak := if s.peak.None? then equity else Max(s.peak.value, equity);
    var newDay, newMonth := s.date != Some(time.date), s.month != Some(MonthOf(time.date));
    var trips := peak > 0.0 && Drawdown(peak, equity) >= limits.hardDrawdownFraction && !s.tripped;
    Ok(RiskState(
      Some(peak), Some(equity), Some(time.date), Some(MonthOf(time.date)),
      if newDay then Some(equity) else s.dailyStart,
      if newMonth then Some(equity) else s.monthlyStart,
      s.tripped || trips,
      if trips then Some(Breach(Drawdown(peak, equity), limits.hardDrawdownFraction)) else s.reason,
      s.resetLog))
  }

  function AfterReset(s: RiskState, reason: string): Result<RiskState, Error> {
    if Blank(reason) then Err(ValueError)
    else Ok(s.(tripped := false, reason := None, resetLog := s.resetLog + [Strip(reason)],
               peak := if s.current.Some? then s.current else s.peak))
  }

  datatype BlockReason =
    | KillSwitchActive(breach: Option<Breach>)
    | DailyLossBreached(loss: real)
    | MonthlyLossBreached(loss: real)
    | MaxPositionsReached(count: int)
    | MaxQuantityNotPositive
    | QuantityIsZero
    | BrokerRejected(rejection: Rejection)

  /** Why a new position may not be opened; empty means approved. */
  function BlockReasons(limits: RiskLimits, s: RiskState, equity: real, openPositions: int): seq<BlockReason> {
    (if s.tripped then [KillSwitchActive(s.reason)] else [])
    + (if s.dailyStart.Some? && s.dailyStart.value - equity >= limits.DailyLossLimit()
       then [DailyLossBreached(s.dailyStart.value - equity)] else [])
    + (if s.monthlyStart.Some? && s.monthlyStart.value - equity >= limits.MonthlyLossLimit()
       then [MonthlyLossBreached(s.monthlyStart.value - equity)] else [])
    + (if openPositions >= limits.maxPositions then [MaxPositionsReached(openPositions)] else [])
  }

  /** The gate, read as a condition on the state. */
  predicate MayOpen(limits: RiskLimits, s: RiskState, equity: real, openPositions: int) {
    && !s.tripped
    && (s.dailyStart.Some? ==> s.dailyStart.value - equity < limits.accountCapital * limits.dailyLossFraction)
    && (s.monthlyStart.Some? ==> s.monthlyStart.value - equity < limits.accountCapital * limits.monthlyLossFraction)
    && openPositions < limits.maxPositions
  }

  class RiskEngine {
    const limits: RiskLimits
    var peakEquity: Option<real>
    var currentEquity: Option<real>
    var currentDate: Option<Date>
    var currentMonth: Option<Month>
    var dailyStartEquity: Option<real>
    var monthlyStartEquity: Option<real>
    var killSwitchTriggered: bool
    var killSwitchReason: Option<Breach>
    var resetLog: seq<string>

    function View(): RiskState
      reads this
    {
      RiskState(peakEquity, currentEquity, currentDate, currentMonth, dailyStartEquity, monthlyStartEquity,
                killSwitchTriggered, killSwitchReason, resetLog)
    }

    constructor (limits: RiskLimits)
      ensures this.limits == limits && View() == FRESH
    {
      this.limits := limits;
      peakEquity, currentEquity, currentDate, currentMonth := None, None, None, None;
      dailyStartEquity, monthlyStartEquity := None, None;
      killSwitchTriggered, killSwitchReason, resetLog := false, None, [];
    }

    method MarkToMarket(equity: real, time: Timestamp) returns (r: Result<(), Error>)
      modifies this
      ensures r.Ok? <==> equity >= 0.0
      ensures r.Err? ==> AfterMark(limits, old(View()), equity, time) == Err(r.error) && View() == old(View())
      ensures r.Ok? ==> AfterMark(limits, old(View()), equity, time) == Ok(View())
    {
      if equity < 0.0 {
        return Err(ValueError);
      }
      var day, month := time.date, MonthOf(time.date);
      currentEquity := Some(equity);
      peakEquity := Some(if peakEquity.None? then equity else Max(peakEquity.value, equity));
      if currentDate != Some(day) {
        currentDate := Some(day);
        dailyStartEquity := Some(equity);
      }
      if currentMonth != Some(month) {
        currentMonth := Some(month);
        monthlyStartEquity := Some(equity);
      }
      if peakEquity.value > 0.0 {
        var drawdown := Drawdown(peakEquity.value, equity);
        if drawdown >= limits.hardDrawdownFraction && !killSwitchTriggered {
          killSwitchTriggered := true;
          killSwitchReason := Some(Breach(drawdown, limits.hardDrawdownFraction));
        }
      }
      return Ok(());
    }

    method ResetKillSwitch(reason: string) returns (r: Result<(), Error>)
      modifies this
      ensures r.Ok? <==> !Blank(reason)
      ensures r.Err? ==> AfterReset(old(View()), reason) == Err(r.error) && View() == old(View())
      ensures r.Ok? ==> AfterReset(old(View()), reason) == Ok(View())
    {
      if Blank(reason) {
        return Err(ValueError);
      }
      resetLog := resetLog + [Strip(reason)];
      killSwitchTriggered := false;
      killSwitchReason := None;
      if currentEquity.Some? {
        peakEquity := currentEquity;
      }
      return Ok(());
    }

    method EvaluateNewPosition(equity: real, openPositions: int) returns (reasons: seq<BlockReason>)
      ensures reasons == BlockReasons(limits, View(), equity, openPositions)
      ensures reasons == [] <==> MayOpen(limits, View(), equity, openPositions)
    {
      hide Limits.Valid;
      reasons := [];
      if killSwitchTriggered {
        reasons := reasons + [KillSwitchActive(killSwitchReason)];
      }
      if dailyStartEquity.Some? {
        var dailyLoss := dailyStartEquity.value - equity;
        if dailyLoss >= limits.DailyLossLimit() {
          reasons := reasons + [DailyLossBreached(dailyLoss)];
        }
      }
      if monthlyStartEquity.Some? {
        var monthlyLoss := monthlyStartEquity.value - equity;
        if monthlyLoss >= limits.MonthlyLossLimit() {
          reasons := reasons + [MonthlyLossBreached(monthlyLoss)];
        }
      }
      if openPositions >= limits.maxPositions {
        reasons := reasons + [MaxPositionsReached(openPositions)];
      }
    }
  }

  // ----- Runs of marks and resets

  datatype RiskEvent = Mark(equity: real, time: Timestamp) | Reset(reason: string)

  /** A call that raises changes nothing. */
  function Apply(limits: RiskLimits, s: RiskState, e: RiskEvent): RiskState {
    var r := match e
      case Mark(equity, time) => AfterMark(limits, s, equity, time)
      case Reset(reason) => AfterReset(s, reason);
    if r.Ok? then r.value else s
  }

  function Run(limits: RiskLimits, events: seq<RiskEvent>): RiskState {
    if |events| == 0 then FRESH
    else Apply(limits, Run(limits, events[..|events| - 1]), events[|events| - 1])
  }

  /** The marks since the last reset, starting with the equity known at that reset. */
  function SinceReset(events: seq<RiskEvent>): seq<real> {
    if |events| == 0 then []
    else
      var before := SinceReset(events[..|events| - 1]);
      match events[|events| - 1]
      case Mark(equity, _) => if equity < 0.0 then before else before + [equity]
      case Reset(reason) => if Blank(reason) || |before| == 0 then before else [LastOf(before)]
  }

  lemma {:induction false} PeakTracksSinceReset(limits: RiskLimits, events: seq<RiskEvent>)
    ensures var s, marks := Run(limits, events), SinceReset(events);
            && (s.peak.Some? <==> |marks| > 0) && (s.current.Some? <==> |marks| > 0)
            && (|marks| > 0 ==> s.peak.value == Peak(marks) && s.current.value == LastOf(marks))
            && forall i :: 0 <= i < |marks| ==> marks[i] >= 0.0
  {
    if |events| > 0 {
      var before, last := events[..|events| - 1], events[|events| - 1];
      PeakTracksSinceReset(limits, before);
      var marks := SinceReset(before);
      if last.Mark? {
        assert (marks + [last.equity])[..|marks|] == marks;
      }
    }
  }

  lemma OnePointHasNoDrawdown(equity: real)
    ensures MaxDrawdown([equity]) == 0.0
  {
    assert [equity][..0] == [];
  }

  lemma MarkExtendsDrawdown(limits: RiskLimits, s: RiskState, marks: seq<real>, equity: real, time: Timestamp)
    requires equity >= 0.0
    requires s.peak == if |marks| == 0 then None else Some(Peak(marks))
    requires s.tripped <==> MaxDrawdown(marks) >= limits.hardDrawdownFraction
    ensures AfterMark(limits, s, equity, time).value.tripped <==>
            MaxDrawdown(marks + [equity]) >= limits.hardDrawdownFraction
  {
    hide Drawdown;
    assert (marks + [equity])[..|marks|] == marks;
  }

  /**
   * The kill switch is tripped exactly when the drawdown of the equity marks since the last reset has reached
   * the hard fraction, whatever marks and resets came before.
   */
  lemma {:induction false} KillSwitchIsDrawdownSinceReset(limits: RiskLimits, events: seq<RiskEvent>)
    ensures Run(limits, events).tripped <==> MaxDrawdown(SinceReset(events)) >= limits.hardDrawdownFraction
  {
    if |events| > 0 {
      var before, last := events[..|events| - 1], events[|events| - 1];
      KillSwitchIsDrawdownSinceReset(limits, before);
      PeakTracksSinceReset(limits, before);
      var marks := SinceReset(before);
      match last
      case Mark(equity, time) =>
        if equity >= 0.0 {
          MarkExtendsDrawdown(limits, Run(limits, before), marks, equity, time);
        }
      case Reset(_) =>
        if |marks| > 0 {
          OnePointHasNoDrawdown(LastOf(marks));
        }
    }
  }

  /** ... and hence exactly when some mark since the reset fell that far from an earlier one. */
  lemma KillSwitchIsSomeFall(limits: RiskLimits, events: seq<RiskEvent>)
    ensures Run(limits, events).tripped <==>
            exists i, j :: IsFall(SinceReset(events), i, j) &&
                           FallBetween(SinceReset(events), i, j) >= limits.hardDrawdownFraction
  {
    KillSwitchIsDrawdownSinceReset(limits, events);
    PeakTracksSinceReset(limits, events);
    DrawdownIsDeepestFall(SinceReset(events));
  }

  // ----- Loss baselines

  datatype AcceptedMark = AcceptedMark(equity: real, date: Date)

  /** The marks of a run that did not raise, oldest first. */
  function Marks(events: seq<RiskEvent>): seq<AcceptedMark> {
    if |events| == 0 then []
    else
      var before, last := Marks(events[..|events| - 1]), events[|events| - 1];
      if last.Mark? && last.equity >= 0.0 then before + [AcceptedMark(last.equity, last.time.date)] else before
  }

  function Dates(marks: seq<AcceptedMark>): seq<Date> {
    seq(|marks|, i requires 0 <= i < |marks| => marks[i].date)
  }

  function Months(marks: seq<AcceptedMark>): seq<Month> {
    seq(|marks|, i requires 0 <= i < |marks| => MonthOf(marks[i].date))
  }

  /** Where the longest constant suffix starts. */
  function ConstantSuffix<T(==)>(s: seq<T>): (start: nat)
    requires |s| > 0
    ensures start < |s|
    ensures forall i :: start <= i < |s| ==> s[i] == LastOf(s)
    ensures start > 0 ==> s[start - 1] != LastOf(s)
  {
    if |s| == 1 || s[|s| - 2] != s[|s| - 1] then |s| - 1 else ConstantSuffix(s[..|s| - 1])
  }

  lemma SuffixOfOneMore<T>(s: seq<T>, x: T)
    ensures ConstantSuffix(s + [x]) == if |s| > 0 && LastOf(s) == x then ConstantSuffix(s) else |s|
  {
    assert (s + [x])[..|s|] == s;
  }

  lemma DatesOfOneMore(marks: seq<AcceptedMark>, m: AcceptedMark)
    ensures |Dates(marks)| == |marks| && |Months(marks)| == |marks|
    ensures Dates(marks + [m]) == Dates(marks) + [m.date]
    ensures Months(marks + [m]) == Months(marks) + [MonthOf(m.date)]
    ensures |marks| > 0 ==>
              LastOf(Dates(marks)) == LastOf(marks).date && LastOf(Months(marks)) == MonthOf(LastOf(marks).date)
  {}

  /** The daily baseline is that of the first mark of the last date; there is none before the first mark. */
  ghost predicate DailyIs(s: RiskState, marks: seq<AcceptedMark>) {
    if |marks| == 0 then s.dailyStart.None? && s.date.None?
    else s.date == Some(LastOf(Dates(marks))) && s.dailyStart == Some(marks[ConstantSuffix(Dates(marks))].equity)
  }

  ghost predicate MonthlyIs(s: RiskState, marks: seq<AcceptedMark>) {
    if |marks| == 0 then s.monthlyStart.None? && s.month.None?
    else s.month == Some(LastOf(Months(marks))) && s.monthlyStart == Some(marks[ConstantSuffix(Months(marks))].equity)
  }

  lemma MarkMovesBaselines(limits: RiskLimits, s: RiskState, marks: seq<AcceptedMark>, equity: real, time: Timestamp)
    requires DailyIs(s, marks) && MonthlyIs(s, marks) && equity >= 0.0
    ensures var after, more := AfterMark(limits, s, equity, time).value, marks + [AcceptedMark(equity, time.date)];
            DailyIs(after, more) && MonthlyIs(after, more)
  {
    hide Drawdown, ConstantSuffix, Dates, Months, MonthOf;
    var more := marks + [AcceptedMark(equity, time.date)];
    DatesOfOneMore(marks, AcceptedMark(equity, time.date));
    SuffixOfOneMore(Dates(marks), time.date);
    SuffixOfOneMore(Months(marks), MonthOf(time.date));
    assert more[|marks|].equity == equity && forall i | 0 <= i < |marks| :: more[i] == marks[i];
    assert LastOf(Dates(more)) == time.date && LastOf(Months(more)) == MonthOf(time.date);
  }

  lemma {:induction false} BaselinesFollowMarks(limits: RiskLimits, events: seq<RiskEvent>)
    ensures DailyIs(Run(limits, events), Marks(events)) && MonthlyIs(Run(limits, events), Marks(events))
  {
    hide AfterMark, ConstantSuffix, Dates, Months, MonthOf;
    if |events| > 0 {
      var before, last := events[..|events| - 1], events[|events| - 1];
      BaselinesFollowMarks(limits, before);
      if last.Mark? {
        MarkOutcome(limits, Run(limits, before), last.equity, last.time);
        if last.equity >= 0.0 {
          MarkMovesBaselines(limits, Run(limits, before), Marks(before), last.equity, last.time);
        }
      }
    }
  }

  lemma MarkOutcome(limits: RiskLimits, s: RiskState, equity: real, time: Timestamp)
    ensures AfterMark(limits, s, equity, time).Ok? <==> equity >= 0.0
  {
    hide Drawdown;
  }

  /** Marks that share the last date share the last month. */
  lemma MonthContainsDay(marks: seq<AcceptedMark>)
    requires |marks| > 0
    ensures ConstantSuffix(Months(marks)) <= ConstantSuffix(Dates(marks))
  {
    var daily, monthly := ConstantSuffix(Dates(marks)), ConstantSuffix(Months(marks));
    assert forall i :: 0 <= i < |marks| ==> Months(marks)[i] == MonthOf(Dates(marks)[i]);
  }

  /**
   * After any run, the daily (monthly) baseline is the equity of the first mark in the longest suffix of marks
   * that share the current date (month); the daily one is never the earlier of the two.
   */
  lemma LossBaselines(limits: RiskLimits, events: seq<RiskEvent>)
    requires |Marks(events)| > 0
    ensures var s, marks := Run(limits, events), Marks(events);
            var daily, monthly := ConstantSuffix(Dates(marks)), ConstantSuffix(Months(marks));
            && s.dailyStart == Some(marks[daily].equity)
            && s.monthlyStart == Some(marks[monthly].equity)
            && monthly <= daily
            && StretchStartsAt(marks, daily, (a: Date, b: Date) => a == b)
            && StretchStartsAt(marks, monthly, (a: Date, b: Date) => a.year == b.year && a.month == b.month)
  {
    var marks := Marks(events);
    BaselinesFollowMarks(limits, events);
    MonthContainsDay(marks);
    StretchesStart(marks);
    hide StretchStartsAt, ConstantSuffix, Dates, Months;
  }

  lemma StretchesStart(marks: seq<AcceptedMark>)
    requires |marks| > 0
    ensures StretchStartsAt(marks, ConstantSuffix(Dates(marks)), (a: Date, b: Date) => a == b)
    ensures StretchStartsAt(marks, ConstantSuffix(Months(marks)),
                            (a: Date, b: Date) => a.year == b.year && a.month == b.month)
  {
    assert forall i | 0 <= i < |marks| :: Dates(marks)[i] == marks[i].date;
    assert forall i | 0 <= i < |marks| :: Months(marks)[i] == MonthOf(marks[i].date);
  }

  /** From an index on every mark shares something of its date with the last one, and the mark before it does not. */
  ghost predicate StretchStartsAt(marks: seq<AcceptedMark>, start: nat, same: (Date, Date) -> bool) {
    && start < |marks|
    && (forall i | start <= i < |marks| :: same(marks[i].date, LastOf(marks).date))
    && (start > 0 ==> !same(marks[start - 1].date, LastOf(marks).date))
  }

  // ----- Sizing

  /** The whole shares a budget buys at a cost per share. */
  function Shares(budget: real, perShare: real): int
    requires perShare != 0.0
  {
    Truncate(budget / perShare)
  }

  function SizeByWeight(limits: RiskLimits, cash: real, price: real, initialCapital: real, commissionRate: real)
    : Result<nat, Error>
  {
    if price <= 0.0 then Err(ValueError)
    else if price * (1.0 + commissionRate) == 0.0 then Err(ZeroDivision)
    else
      var byValue := Shares(limits.maxSinglePositionFraction * initialCapital, price);
      var byDeployment := Shares(limits.MaxDeployedCapital(), price);
      var byCash := Shares(cash, price * (1.0 + commissionRate));
      Ok(MaxInt(0, MinInt(byValue, MinInt(byDeployment, byCash))))
  }

  function SizeNewPosition(limits: RiskLimits, cash: real, price: real, stopFraction: real,
                           initialCapital: real, commissionRate: real): Result<nat, Error>
  {
    if price <= 0.0 then Err(ValueError)
    else if price * stopFraction == 0.0 || price * (1.0 + commissionRate) == 0.0 then Err(ZeroDivision)
    else
      var riskBudget := Min(limits.RiskPerTrade(), limits.MaxOpenPortfolioRisk());
      var byRisk := Shares(riskBudget, price * stopFraction);
      var byValue := Shares(limits.maxSinglePositionFraction * initialCapital, price);
      var byDeployment := Shares(limits.MaxDeployedCapital(), price);
      var byCash := Shares(cash, price * (1.0 + commissionRate));
      Ok(MaxInt(0, MinInt(byRisk, MinInt(byValue, MinInt(byDeployment, byCash)))))
  }

  /** n shares cost at most the budget. */
  predicate WithinBudget(n: int, perShare: real, budget: real) {
    n as real * perShare <= budget
  }

  /** n shares respect the single-position, deployment and cash-with-commission bounds. */
  predicate FitsCapital(limits: RiskLimits, cash: real, price: real, initialCapital: real, commissionRate: real,
                        n: int) {
    && WithinBudget(n, price, limits.maxSinglePositionFraction * initialCapital)
    && WithinBudget(n, price, limits.accountCapital * limits.capitalDeploymentFraction)
    && WithinBudget(n, price * (1.0 + commissionRate), cash)
  }

  /** n shares lose at most the per-trade risk budget when the price falls by the stop distance. */
  predicate FitsRisk(limits: RiskLimits, price: real, stopFraction: real, n: int) {
    WithinBudget(n, price * stopFraction, limits.accountCapital * limits.riskPerTradeFraction)
  }

  lemma SharesAreAffordable(budget: real, perShare: real, n: int)
    requires perShare > 0.0 && n > 0
    ensures n <= Shares(budget, perShare) <==> WithinBudget(n, perShare, budget)
  {
    QuotientBound(budget, perShare, n as real);
  }

  lemma WeightSizeBound(limits: RiskLimits, cash: real, price: real, initialCapital: real, commissionRate: real, n: int)
    requires price > 0.0 && commissionRate > -1.0 && n > 0
    ensures n <= SizeByWeight(limits, cash, price, initialCapital, commissionRate).value <==>
            FitsCapital(limits, cash, price, initialCapital, commissionRate, n)
  {
    SharesAreAffordable(limits.maxSinglePositionFraction * initialCapital, price, n);
    SharesAreAffordable(limits.MaxDeployedCapital(), price, n);
    SharesAreAffordable(cash, price * (1.0 + commissionRate), n);
  }

  /** The weight-based size is the greatest number of shares within the capital bounds. */
  lemma SizeByWeightIsMaximal(limits: RiskLimits, cash: real, price: real, initialCapital: real, commissionRate: real)
    requires price > 0.0 && commissionRate > -1.0
    ensures var r := SizeByWeight(limits, cash, price, initialCapital, commissionRate);
            r.Ok? && forall n | n > 0 :: n <= r.value <==> FitsCapital(limits, cash, price, initialCapital,
                commissionRate, n)
  {
    forall n: int | n > 0 {
      WeightSizeBound(limits, cash, price, initialCapital, commissionRate, n);
    }
  }

  lemma PerTradeRiskIsTheSmaller(limits: RiskLimits)
    ensures limits.RiskPerTrade() <= limits.MaxOpenPortfolioRisk()
  {
    assert limits.accountCapital * (limits.maxOpenPortfolioRiskFraction - limits.riskPerTradeFraction) >= 0.0;
  }

  lemma NoZeroDivision(price: real, stopFraction: real, commissionRate: real)
    requires price > 0.0 && stopFraction > 0.0 && commissionRate > -1.0
    ensures price * stopFraction > 0.0 && price * (1.0 + commissionRate) > 0.0
  {}

  /** The risk-based size is the weight-based one, capped by the risk budget. */
  lemma RiskSizeIsCapped(limits: RiskLimits, cash: real, price: real, stopFraction: real,
                         initialCapital: real, commissionRate: real)
    requires price > 0.0 && stopFraction > 0.0 && commissionRate > -1.0
    ensures SizeNewPosition(limits, cash, price, stopFraction, initialCapital, commissionRate).Ok?
    ensures SizeNewPosition(limits, cash, price, stopFraction, initialCapital, commissionRate).value
         == MaxInt(0, MinInt(Shares(limits.RiskPerTrade(), price * stopFraction),
                             SizeByWeight(limits, cash, price, initialCapital, commissionRate).value))
  {
    hide Shares, Limits.Valid, Limits.RiskPerTrade, Limits.MaxOpenPortfolioRisk, Limits.MaxDeployedCapital;
    PerTradeRiskIsTheSmaller(limits);
    NoZeroDivision(price, stopFraction, commissionRate);
  }

  /**
   * The risk-based size is the greatest number of shares within the risk budget and the capital bounds, so it
   * never exceeds the weight-based size.
   */
  lemma SizeNewPositionIsMaximal(limits: RiskLimits, cash: real, price: real, stopFraction: real,
                                 initialCapital: real, commissionRate: real)
    requires price > 0.0 && stopFraction > 0.0 && commissionRate > -1.0
    ensures var r := SizeNewPosition(limits, cash, price, stopFraction, initialCapital, commissionRate);
            && r.Ok?
            && (forall n | n > 0 :: n <= r.value <==>
                  FitsRisk(limits, price, stopFraction, n) &&
                  FitsCapital(limits, cash, price, initialCapital, commissionRate, n))
            && r.value <= SizeByWeight(limits, cash, price, initialCapital, commissionRate).value
  {
    hide Shares, SizeNewPosition, SizeByWeight, WithinBudget, Limits.Valid;
    NoZeroDivision(price, stopFraction, commissionRate);
    RiskSizeIsCapped(limits, cash, price, stopFraction, initialCapital, commissionRate);
    SizeByWeightIsMaximal(limits, cash, price, initialCapital, commissionRate);
    var r := SizeNewPosition(limits, cash, price, stopFraction, initialCapital, commissionRate).value;
    var byWeight := SizeByWeight(limits, cash, price, initialCapital, commissionRate).value;
    var byRisk := Shares(limits.RiskPerTrade(), price * stopFraction);
    forall n: int | n > 0
      ensures n <= r <==> FitsRisk(limits, price, stopFraction, n) &&
                          FitsCapital(limits, cash, price, initialCapital, commissionRate, n)
    {
      SharesAreAffordable(limits.RiskPerTrade(), price * stopFraction, n);
      assert n <= r <==> n <= byRisk && n <= byWeight;
    }
    assert r <= byWeight;
  }

  lemma CostWithFee(price: real, quantity: int, rate: real)
    ensures Notional(price, quantity) + Fee(Notional(price, quantity), rate)
            == quantity as real * (price * (1.0 + rate))
  {
    var p, q := price, quantity as real;
    assert q * (p * (1.0 + rate)) == q * p + q * (p * rate);
    assert q * (p * rate) == (p * q) * rate;
  }

  /** Any quantity up to the size can be paid for, commission included. */
  lemma SizeIsAffordable(limits: RiskLimits, cash: real, price: real, stopFraction: Option<real>,
                         initialCapital: real, commissionRate: real, quantity: int)
    requires price > 0.0 && commissionRate >= 0.0 && (stopFraction.Some? ==> stopFraction.value > 0.0)
    requires var sized := if stopFraction.Some?
                          then SizeNewPosition(limits, cash, price, stopFraction.value, initialCapital, commissionRate)
                          else SizeByWeight(limits, cash, price, initialCapital, commissionRate);
             sized.Ok? && 0 < quantity <= sized.value
    ensures Notional(price, quantity) + Fee(Notional(price, quantity), commissionRate) <= cash
  {
    hide Notional, Fee, SizeByWeight, SizeNewPosition, FitsRisk;
    SizeByWeightIsMaximal(limits, cash, price, initialCapital, commissionRate);
    if stopFraction.Some? {
      SizeNewPositionIsMaximal(limits, cash, price, stopFraction.value, initialCapital, commissionRate);
    }
    assert FitsCapital(limits, cash, price, initialCapital, commissionRate, quantity);
    CostWithFee(price, quantity, commissionRate);
  }
}
