/** What the risk engine reports: why it tripped, why it blocks, and what its log keeps. */
module RiskLaws {
  import opened Prelude
  import opened Models
  import opened Metrics
  import opened Risk
  import opened SettlementLaws

  // ----- Why the switch tripped

  /** The first n marks are the first to have fallen by the hard fraction, and this is how far. */
  ghost predicate FirstTrips(limits: RiskLimits, marks: seq<real>, n: nat, drawdown: real) {
    && 0 < n <= |marks| && MaxDrawdown(marks[..n - 1]) < limits.hardDrawdownFraction
    && Peak(marks[..n]) > 0.0 && drawdown >= limits.hardDrawdownFraction
    && drawdown * Peak(marks[..n]) == Peak(marks[..n]) - marks[n - 1]
  }

  /** The recorded reason is the fall that tripped the switch and the fraction it reached. */
  ghost predicate ReasonIs(limits: RiskLimits, s: RiskState, marks: seq<real>) {
    if s.tripped then
      && s.reason.Some? && s.reason.value.limit == limits.hardDrawdownFraction
      && exists n: nat :: FirstTrips(limits, marks, n, s.reason.value.drawdown)
    else s.reason.None?
  }

  lemma DrawdownTimesPeak(peak: real, equity: real)
    requires peak > 0.0
    ensures Drawdown(peak, equity) * peak == peak - equity
  {}

  lemma StillFirst(limits: RiskLimits, marks: seq<real>, more: seq<real>, n: nat, drawdown: real)
    requires FirstTrips(limits, marks, n, drawdown) && marks <= more
    ensures FirstTrips(limits, more, n, drawdown)
  {
    hide MaxDrawdown, Peak;
    assert more[..n] == marks[..n] && more[..n - 1] == marks[..n - 1];
  }

  lemma TripFacts(limits: RiskLimits, s: RiskState, equity: real, time: Timestamp)
    requires equity >= 0.0 && !s.tripped && AfterMark(limits, s, equity, time).value.tripped
    ensures var after := AfterMark(limits, s, equity, time).value;
            && after.peak == Some(if s.peak.None? then equity else Max(s.peak.value, equity)) && after.peak.value > 0.0
            && after.reason.Some? && after.reason.value.limit == limits.hardDrawdownFraction
            && after.reason.value.drawdown == Drawdown(after.peak.value, equity) >= limits.hardDrawdownFraction
  {
    hide Drawdown, Max;
  }

  /** A mark that trips the switch is the first to have fallen that far. */
  lemma TrippingMark(limits: RiskLimits, s: RiskState, marks: seq<real>, equity: real, time: Timestamp)
    requires equity >= 0.0 && !s.tripped && s.peak == (if |marks| == 0 then None else Some(Peak(marks)))
    requires MaxDrawdown(marks) < limits.hardDrawdownFraction && AfterMark(limits, s, equity, time).value.tripped
    ensures ReasonIs(limits, AfterMark(limits, s, equity, time).value, marks + [equity])
  {
    hide Drawdown, MaxDrawdown, AfterMark, Peak, Limits.Valid;
    MarkOutcome(limits, s, equity, time);
    var more, after := marks + [equity], AfterMark(limits, s, equity, time).value;
    assert more[..|marks|] == marks && more[..|more|] == more;
    PeakOfOneMore(marks, equity);
    TripFacts(limits, s, equity, time);
    DrawdownTimesPeak(Peak(more), equity);
    assert FirstTrips(limits, more, |more|, after.reason.value.drawdown);
  }

  lemma PeakOfOneMore(marks: seq<real>, x: real)
    ensures Peak(marks + [x]) == if |marks| == 0 then x else Max(Peak(marks), x)
  {
    assert (marks + [x])[..|marks|] == marks;
  }

  /** Marks keep the reason of a tripped switch, and give one only when they trip it. */
  lemma MarkReasons(limits: RiskLimits, s: RiskState, equity: real, time: Timestamp)
    requires equity >= 0.0
    ensures var after := AfterMark(limits, s, equity, time);
            && after.Ok? && (s.tripped ==> after.value.tripped && after.value.reason == s.reason)
            && (!after.value.tripped ==> after.value.reason == s.reason)
  {
    hide Drawdown;
  }

  /**
   * Over every run of marks and resets the switch carries a reason exactly while it is tripped: the hard fraction, and
   * the fall from the peak at the first mark since the last reset that reached it.
   */
  lemma {:induction false} TripIsExplained(limits: RiskLimits, events: seq<RiskEvent>)
    ensures ReasonIs(limits, Run(limits, events), SinceReset(events))
  {
    if |events| > 0 {
      var before, last := events[..|events| - 1], events[|events| - 1];
      TripIsExplained(limits, before);
      PeakTracksSinceReset(limits, before);
      KillSwitchIsDrawdownSinceReset(limits, before);
      var s, marks := Run(limits, before), SinceReset(before);
      hide AfterMark, MaxDrawdown, Peak, FirstTrips;
      if last.Mark? && last.equity >= 0.0 {
        MarkReasons(limits, s, last.equity, last.time);
        if s.tripped {
          var n: nat :| FirstTrips(limits, marks, n, s.reason.value.drawdown);
          StillFirst(limits, marks, marks + [last.equity], n, s.reason.value.drawdown);
        } else if AfterMark(limits, s, last.equity, last.time).value.tripped {
          TrippingMark(limits, s, marks, last.equity, last.time);
        }
      } else if last.Mark? {
        MarkOutcome(limits, s, last.equity, last.time);
      } else if Blank(last.reason) || |marks| == 0 {
        BlankOrUnmarked(limits, s, last.reason, marks);
      }
    }
  }

  lemma BlankOrUnmarked(limits: RiskLimits, s: RiskState, reason: string, marks: seq<real>)
    requires ReasonIs(limits, s, marks) && (Blank(reason) || |marks| == 0)
    ensures ReasonIs(limits, Apply(limits, s, Reset(reason)), marks)
  {
    hide Blank, MaxDrawdown, Peak;
  }

  // ----- Why a position is blocked

  /** Each reason given is one of the four conditions of the gate, with the numbers that breach it, and conversely. */
  lemma ReasonsNameTheBreach(limits: RiskLimits, s: RiskState, equity: real, openPositions: int, reason: BlockReason)
    ensures reason in BlockReasons(limits, s, equity, openPositions) <==>
            match reason
            case KillSwitchActive(breach) => s.tripped && breach == s.reason
            case DailyLossBreached(loss) =>
              s.dailyStart.Some? && loss == s.dailyStart.value - equity &&
              loss >= limits.accountCapital * limits.dailyLossFraction
            case MonthlyLossBreached(loss) =>
              s.monthlyStart.Some? && loss == s.monthlyStart.value - equity &&
              loss >= limits.accountCapital * limits.monthlyLossFraction
            case MaxPositionsReached(count) => count == openPositions && openPositions >= limits.maxPositions
            case _ => false
  {}

  // ----- The log

  /** The reasons of the resets that were accepted, in order. */
  function Accepted(events: seq<RiskEvent>): seq<string> {
    if |events| == 0 then []
    else
      var before, last := Accepted(events[..|events| - 1]), events[|events| - 1];
      if last.Reset? && (exists i | 0 <= i < |last.reason| :: !IsSpace(last.reason[i])) then before + [last.reason]
      else before
  }

  lemma SolidIsNotBlank(s: string)
    ensures Blank(s) <==> !exists i | 0 <= i < |s| :: !IsSpace(s[i])
  {
    BlankIsAllSpace(s);
    assert forall i | 0 <= i < |s| :: s[i] in s;
  }

  /** The entry is the reason without the white space around it. */
  ghost predicate Trimmed(reason: string, entry: string) {
    exists before, after :: Trims(reason, before, entry, after)
  }

  /** The log keeps every accepted reason, trimmed, in order, through every run. */
  lemma {:induction false} LogKeepsReasons(limits: RiskLimits, events: seq<RiskEvent>)
    ensures var log := Run(limits, events).resetLog;
            |log| == |Accepted(events)| && forall i | 0 <= i < |log| :: Trimmed(Accepted(events)[i], log[i])
  {
    if |events| > 0 {
      var before, last := events[..|events| - 1], events[|events| - 1];
      LogKeepsReasons(limits, before);
      hide Blank, Strip, Trims;
      match last
      case Mark(equity, time) => MarkKeepsLog(limits, Run(limits, before), equity, time);
      case Reset(reason) =>
        SolidIsNotBlank(reason);
        var left, right := StripTrims(reason);
        assert Trimmed(reason, Strip(reason));
    }
  }

  lemma MarkKeepsLog(limits: RiskLimits, s: RiskState, equity: real, time: Timestamp)
    ensures Apply(limits, s, Mark(equity, time)).resetLog == s.resetLog
  {
    hide Drawdown;
  }
}
