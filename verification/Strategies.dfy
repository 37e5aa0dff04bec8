/** The two stateless strategies (strategies/sma_crossover.py, strategies/donchian_breakout.py). */
module Strategies {
  import opened Prelude
  import opened Models

  datatype Signal = Signal(instrument: string, time: Timestamp, action: OrderSide, close: real,
                           fastAverage: real, slowAverage: real)

  datatype StrategyRule =
    | SmaCrossover(fastPeriod: nat, slowPeriod: nat)
    | DonchianBreakout(lookbackPeriod: nat)
  {
    predicate Valid() {
      match this
      case SmaCrossover(fast, slow) => 1 <= fast < slow
      case DonchianBreakout(lookback) => 2 <= lookback
    }

    function WarmupPeriod(): nat {
      match this
      case SmaCrossover(_, slow) => slow
      case DonchianBreakout(lookback) => lookback + 1
    }
  }

  type Strategy = s: StrategyRule | s.Valid() witness SmaCrossover(3, 5)

  function Closes(bars: seq<Bar>): (r: seq<real>)
    ensures |r| == |bars|
  {
    seq(|bars|, i requires 0 <= i < |bars| => bars[i].close)
  }

  function Average(values: seq<real>): real
    requires |values| > 0
  {
    Sum(values) / |values| as real
  }

  function HighestHigh(bars: seq<Bar>): real
    requires |bars| > 0
  {
    if |bars| == 1 then bars[0].high else Max(HighestHigh(bars[..|bars| - 1]), bars[|bars| - 1].high)
  }

  function LowestLow(bars: seq<Bar>): real
    requires |bars| > 0
  {
    if |bars| == 1 then bars[0].low else Min(LowestLow(bars[..|bars| - 1]), bars[|bars| - 1].low)
  }

  function SmaSignal(fast: nat, slow: nat, bars: seq<Bar>, index: nat, holding: bool): Option<Signal>
    requires 1 <= fast < slow && index < |bars|
  {
    if index + 1 < slow then None
    else
      var closes := Closes(bars[index + 1 - slow..index + 1]);
      var fastAverage, slowAverage := Average(LastN(closes, fast)), Average(closes);
      if !holding && fastAverage > slowAverage then
        Some(Signal(bars[index].instrument, bars[index].time, BUY, bars[index].close, fastAverage, slowAverage))
      else if holding && fastAverage < slowAverage then
        Some(Signal(bars[index].instrument, bars[index].time, SELL, bars[index].close, fastAverage, slowAverage))
      else None
  }

  function DonchianSignal(lookback: nat, bars: seq<Bar>, index: nat, holding: bool): Option<Signal>
    requires 2 <= lookback && index < |bars|
  {
    if index < lookback then None
    else
      var prior := bars[index - lookback..index];
      var upper, lower := HighestHigh(prior), LowestLow(prior);
      if !holding && bars[index].close > upper then
        Some(Signal(bars[index].instrument, bars[index].time, BUY, bars[index].close, upper, lower))
      else if holding && bars[index].close < lower then
        Some(Signal(bars[index].instrument, bars[index].time, SELL, bars[index].close, upper, lower))
      else None
  }

  function SignalAt(s: Strategy, bars: seq<Bar>, index: nat, holding: bool): Option<Signal>
    requires index < |bars|
  {
    match s
    case SmaCrossover(fast, slow) => SmaSignal(fast, slow, bars, index, holding)
    case DonchianBreakout(lookback) => DonchianSignal(lookback, bars, index, holding)
  }

  /** A decision reads only the last warm-up bars ending at its index; before that there is none. */
  lemma DecisionReadsOnlyItsWindow(s: Strategy, bars: seq<Bar>, index: nat, holding: bool)
    requires index < |bars|
    ensures index + 1 < s.WarmupPeriod() ==> SignalAt(s, bars, index, holding).None?
    ensures index + 1 >= s.WarmupPeriod() ==>
              SignalAt(s, bars, index, holding)
              == SignalAt(s, bars[index + 1 - s.WarmupPeriod()..index + 1], s.WarmupPeriod() - 1, holding)
  {
    hide Average, HighestHigh, LowestLow;
    var w := s.WarmupPeriod();
    if index + 1 >= w {
      var window := bars[index + 1 - w..index + 1];
      match s
      case SmaCrossover(_, slow) => assert window[w - slow..w] == bars[index + 1 - slow..index + 1];
      case DonchianBreakout(lookback) => assert window[w - 1 - lookback..w - 1] == bars[index - lookback..index];
    }
  }

  /** Histories that agree up to an index decide alike there, whatever comes later. */
  lemma DecisionIsCausal(s: Strategy, a: seq<Bar>, b: seq<Bar>, index: nat, holding: bool)
    requires index < |a| && index < |b| && a[..index + 1] == b[..index + 1]
    ensures SignalAt(s, a, index, holding) == SignalAt(s, b, index, holding)
  {
    hide SignalAt;
    DecisionReadsOnlyItsWindow(s, a, index, holding);
    DecisionReadsOnlyItsWindow(s, b, index, holding);
    var w := s.WarmupPeriod();
    if index + 1 >= w {
      assert a[index + 1 - w..index + 1] == a[..index + 1][index + 1 - w..];
      assert b[index + 1 - w..index + 1] == b[..index + 1][index + 1 - w..];
    }
  }

  /** A purchase is proposed only when flat, a sale only when holding. */
  lemma SignalFitsHolding(s: Strategy, bars: seq<Bar>, index: nat, holding: bool)
    requires index < |bars|
    ensures var signal := SignalAt(s, bars, index, holding);
            signal.Some? ==> (signal.value.action.BUY? <==> !holding) && signal.value.time == bars[index].time
  {
    hide Average, HighestHigh, LowestLow;
  }

  // ----- Which way a signal points

  lemma {:induction false} HighestIsBound(bars: seq<Bar>, x: real)
    requires |bars| > 0
    ensures x > HighestHigh(bars) <==> forall b | b in bars :: b.high < x
  {
    if |bars| > 1 {
      HighestIsBound(bars[..|bars| - 1], x);
      assert bars == bars[..|bars| - 1] + [bars[|bars| - 1]];
    }
  }

  lemma {:induction false} LowestIsBound(bars: seq<Bar>, x: real)
    requires |bars| > 0
    ensures x < LowestLow(bars) <==> forall b | b in bars :: x < b.low
  {
    if |bars| > 1 {
      LowestIsBound(bars[..|bars| - 1], x);
      assert bars == bars[..|bars| - 1] + [bars[|bars| - 1]];
    }
  }

  predicate Proposes(signal: Option<Signal>, action: OrderSide) { signal.Some? && signal.value.action == action }

  /**
   * A breakout is bought exactly when flat and the close is above every high of the lookback before it, and left
   * exactly when holding and the close is below every one of its lows.
   */
  lemma BreakoutPointsOut(lookback: nat, bars: seq<Bar>, index: nat, holding: bool)
    requires 2 <= lookback && index < |bars|
    ensures var signal := SignalAt(DonchianBreakout(lookback), bars, index, holding);
            && (Proposes(signal, BUY) <==>
                  !holding && lookback <= index &&
                  forall j | index - lookback <= j < index :: bars[j].high < bars[index].close)
            && (Proposes(signal, SELL) <==>
                  holding && lookback <= index &&
                  forall j | index - lookback <= j < index :: bars[index].close < bars[j].low)
  {
    if lookback <= index {
      var prior := bars[index - lookback..index];
      HighestIsBound(prior, bars[index].close);
      LowestIsBound(prior, bars[index].close);
      hide HighestHigh, LowestLow;
      assert forall j | index - lookback <= j < index :: bars[j] == prior[j - (index - lookback)] && bars[j] in prior;
      assert forall b | b in prior :: exists j :: index - lookback <= j < index && bars[j] == b;
    }
  }

  /** The mean of the n closes that end at an index. */
  function MeanClose(bars: seq<Bar>, index: nat, n: nat): real
    requires 0 < n <= index + 1 && index < |bars|
  {
    Sum(seq(n, i requires 0 <= i < n => bars[index + 1 - n + i].close)) / n as real
  }

  lemma WindowAverages(bars: seq<Bar>, index: nat, fast: nat, slow: nat)
    requires 1 <= fast < slow <= index + 1 && index < |bars|
    ensures var closes := Closes(bars[index + 1 - slow..index + 1]);
            && Average(LastN(closes, fast)) == MeanClose(bars, index, fast)
            && Average(closes) == MeanClose(bars, index, slow)
  {
    var closes := Closes(bars[index + 1 - slow..index + 1]);
    assert LastN(closes, fast) == seq(fast, i requires 0 <= i < fast => bars[index + 1 - fast + i].close);
    assert closes == seq(slow, i requires 0 <= i < slow => bars[index + 1 - slow + i].close);
  }

  /**
   * A crossover is bought exactly when flat and the mean of the last fast closes is above that of the last slow ones,
   * and left exactly when holding and it is below.
   */
  lemma CrossoverPointsWithTheTrend(fast: nat, slow: nat, bars: seq<Bar>, index: nat, holding: bool)
    requires 1 <= fast < slow && index < |bars|
    ensures var signal := SignalAt(SmaCrossover(fast, slow), bars, index, holding);
            && (Proposes(signal, BUY) <==>
                  !holding && slow <= index + 1 && MeanClose(bars, index, fast) > MeanClose(bars, index, slow))
            && (Proposes(signal, SELL) <==>
                  holding && slow <= index + 1 && MeanClose(bars, index, fast) < MeanClose(bars, index, slow))
  {
    if slow <= index + 1 {
      WindowAverages(bars, index, fast, slow);
    }
    hide Average, MeanClose, Closes, LastN;
  }

  lemma {:induction false} ChannelIsAttained(bars: seq<Bar>)
    requires |bars| > 0
    ensures exists i :: 0 <= i < |bars| && bars[i].high == HighestHigh(bars)
    ensures exists i :: 0 <= i < |bars| && bars[i].low == LowestLow(bars)
    ensures forall i | 0 <= i < |bars| :: LowestLow(bars) <= bars[i].low && bars[i].high <= HighestHigh(bars)
  {
    if |bars| == 1 {
      assert bars[0].high == HighestHigh(bars) && bars[0].low == LowestLow(bars);
    } else {
      var init, last := bars[..|bars| - 1], bars[|bars| - 1];
      ChannelIsAttained(init);
      var i :| 0 <= i < |init| && init[i].high == HighestHigh(init);
      var j :| 0 <= j < |init| && init[j].low == LowestLow(init);
      assert bars[i] == init[i] && bars[j] == init[j] && bars[|bars| - 1] == last;
    }
  }

  /** What a rule measured on a bar: the two means of closes, or the highest high and the lowest low before it. */
  ghost predicate Measured(s: Strategy, bars: seq<Bar>, index: nat, first: real, second: real)
    requires index < |bars|
  {
    match s
    case SmaCrossover(fast, slow) =>
      slow <= index + 1 && first == MeanClose(bars, index, fast) && second == MeanClose(bars, index, slow)
    case DonchianBreakout(lookback) =>
      && lookback <= index
      && (exists j :: index - lookback <= j < index && bars[j].high == first)
      && (exists j :: index - lookback <= j < index && bars[j].low == second)
      && forall j | index - lookback <= j < index :: second <= bars[j].low && bars[j].high <= first
  }

  lemma ChannelIsMeasured(lookback: nat, bars: seq<Bar>, index: nat)
    requires 2 <= lookback <= index < |bars|
    ensures Measured(DonchianBreakout(lookback), bars, index, HighestHigh(bars[index - lookback..index]),
                     LowestLow(bars[index - lookback..index]))
  {
    var prior := bars[index - lookback..index];
    ChannelIsAttained(prior);
    hide HighestHigh, LowestLow;
    var i :| 0 <= i < |prior| && prior[i].high == HighestHigh(prior);
    var j :| 0 <= j < |prior| && prior[j].low == LowestLow(prior);
    assert bars[index - lookback + i] == prior[i] && bars[index - lookback + j] == prior[j];
    assert forall k | index - lookback <= k < index :: bars[k] == prior[k - (index - lookback)];
  }

  /** A signal carries its bar's instrument, time and close, and what its rule measured there. */
  lemma SignalReports(s: Strategy, bars: seq<Bar>, index: nat, holding: bool)
    requires index < |bars| && SignalAt(s, bars, index, holding).Some?
    ensures var signal := SignalAt(s, bars, index, holding).value;
            && signal.instrument == bars[index].instrument && signal.time == bars[index].time
            && signal.close == bars[index].close
            && Measured(s, bars, index, signal.fastAverage, signal.slowAverage)
  {
    match s
    case SmaCrossover(fast, slow) =>
      hide Average, MeanClose, Closes, LastN;
      WindowAverages(bars, index, fast, slow);
    case DonchianBreakout(lookback) =>
      hide HighestHigh, LowestLow, Measured;
      ChannelIsMeasured(lookback, bars, index);
  }

  /** The signals of the bars from start up to (not including) end, taking every proposal to fill. */
  function SignalsThrough(s: Strategy, bars: seq<Bar>, start: nat, end: nat): seq<Signal>
    requires start <= end <= |bars|
  {
    if end == start then []
    else
      var before := SignalsThrough(s, bars, start, end - 1);
      var signal := SignalAt(s, bars, end - 1, |before| > 0 && LastOf(before).action.BUY?);
      if signal.Some? then before + [signal.value] else before
  }

  predicate Alternating(signals: seq<Signal>) {
    forall i :: 0 <= i < |signals| ==> (signals[i].action.BUY? <==> i % 2 == 0)
  }

  /** The list starts with a purchase and alternates. */
  lemma {:induction false} SignalsAlternate(s: Strategy, bars: seq<Bar>, start: nat, end: nat)
    requires start <= end <= |bars|
    ensures Alternating(SignalsThrough(s, bars, start, end))
  {
    hide SignalAt;
    if end > start {
      SignalsAlternate(s, bars, start, end - 1);
      var before := SignalsThrough(s, bars, start, end - 1);
      var holding := |before| > 0 && before[|before| - 1].action.BUY?;
      SignalFitsHolding(s, bars, end - 1, holding);
      var signal := SignalAt(s, bars, end - 1, holding);
      if signal.Some? {
        assert holding <==> |before| % 2 == 1;
        assert SignalsThrough(s, bars, start, end) == before + [signal.value];
      }
    }
  }

  /** generate_signals, with its remembered holding flag. */
  method GenerateSignals(s: Strategy, bars: seq<Bar>, startIndex: int) returns (r: Result<seq<Signal>, Error>)
    ensures r.Ok? <==> 0 <= startIndex < |bars|
    ensures r.Err? ==> r.error == ValueError
    ensures r.Ok? ==> r.value == SignalsThrough(s, bars, startIndex, |bars|)
  {
    hide SignalAt;
    if startIndex < 0 || startIndex >= |bars| {
      return Err(ValueError);
    }
    var signals: seq<Signal> := [];
    var holding := false;
    for k := startIndex to |bars|
      invariant signals == SignalsThrough(s, bars, startIndex, k)
      invariant holding == (|signals| > 0 && LastOf(signals).action.BUY?)
    {
      var signal := SignalAt(s, bars, k, holding);
      if signal.Some? {
        holding := signal.value.action.BUY?;
        signals := signals + [signal.value];
      }
    }
    return Ok(signals);
  }
}
