/** Technical indicators over plain windows: the simple definitions (features/technical.py). */
module Indicators {
  import opened Prelude
  import opened Models
  import opened Strategies

  datatype PeriodSettings = PeriodSettings(fast: int, slow: int, rsi: int, atr: int, volume: int)

  type Periods = p: PeriodSettings | 1 <= p.fast < p.slow && 1 <= p.rsi && 1 <= p.atr && 1 <= p.volume
    witness PeriodSettings(20, 50, 14, 14, 20)

  datatype Snapshot = Snapshot(instrument: string, exchange: string, time: Timestamp, close: real,
                               smaFast: real, smaSlow: real, rsi: real, atr: real, volumeRatio: real)

  function Volumes(bars: seq<Bar>): (r: seq<real>)
    ensures |r| == |bars|
  {
    seq(|bars|, i requires 0 <= i < |bars| => bars[i].volume as real)
  }

  function Sma(values: seq<real>, period: int): real
    requires period >= 1
  {
    Sum(LastN(values, period)) / period as real
  }

  /** The change from each close to the next. */
  function Changes(closes: seq<real>): (r: seq<real>)
    ensures |r| == if |closes| == 0 then 0 else |closes| - 1
  {
    if |closes| == 0 then [] else seq(|closes| - 1, i requires 0 <= i < |closes| - 1 => closes[i + 1] - closes[i])
  }

  /** What the rises add up to. */
  function Rises(changes: seq<real>): (r: real)
    ensures r >= 0.0
  {
    if |changes| == 0 then 0.0
    else
      var last := changes[|changes| - 1];
      Rises(changes[..|changes| - 1]) + if last > 0.0 then last else 0.0
  }

  /** What the falls add up to, as a positive amount. */
  function Falls(changes: seq<real>): (r: real)
    ensures r >= 0.0
  {
    if |changes| == 0 then 0.0
    else
      var last := changes[|changes| - 1];
      Falls(changes[..|changes| - 1]) + if last < 0.0 then -last else 0.0
  }

  /** The relative strength index from average gain and loss. */
  function RsiFrom(gains: real, losses: real): real
    requires gains >= 0.0 && losses >= 0.0
  {
    if losses == 0.0 then (if gains > 0.0 then 100.0 else 50.0)
    else
      QuotientBound(gains, losses, 0.0);
      100.0 - 100.0 / (1.0 + gains / losses)
  }

  function Rsi(closes: seq<real>, period: int): real
    requires period >= 1
  {
    var recent := LastN(Changes(closes), period);
    QuotientBound(Rises(recent), period as real, 0.0);
    QuotientBound(Falls(recent), period as real, 0.0);
    RsiFrom(Rises(recent) / period as real, Falls(recent) / period as real)
  }

  function TrueRange(bar: Bar, previousClose: real): real {
    Max(bar.high - bar.low, Max(Abs(bar.high - previousClose), Abs(bar.low - previousClose)))
  }

  /** The true range of every bar but the first. */
  function TrueRanges(bars: seq<Bar>): (r: seq<real>)
    ensures |r| == if |bars| == 0 then 0 else |bars| - 1
  {
    if |bars| == 0 then []
    else seq(|bars| - 1, i requires 0 <= i < |bars| - 1 => TrueRange(bars[i + 1], bars[i].close))
  }

  function Atr(bars: seq<Bar>, period: int): real
    requires period >= 1
  {
    Sum(TrueRanges(LastN(bars, period + 1))) / period as real
  }

  lemma TrueRangesGrow(bars: seq<Bar>, k: nat)
    requires 1 <= k < |bars|
    ensures TrueRanges(bars[..k + 1]) == TrueRanges(bars[..k]) + [TrueRange(bars[k], bars[k - 1].close)]
  {
    hide TrueRange;
  }

  /** The loop that collects the last true ranges and averages them. */
  method ComputeAtr(bars: seq<Bar>, period: int) returns (atr: real)
    requires period >= 1
    ensures atr == Atr(bars, period)
  {
    hide TrueRanges, TrueRange, Sum;
    var selected := LastN(bars, period + 1);
    OneBarHasNoRange(selected);
    var ranges: seq<real> := [];
    var k := 1;
    while k < |selected|
      invariant |selected| == 0 ==> ranges == []
      invariant |selected| > 0 ==> 1 <= k <= |selected| && ranges == TrueRanges(selected[..k])
    {
      TrueRangesGrow(selected, k);
      ranges := ranges + [TrueRange(selected[k], selected[k - 1].close)];
      k := k + 1;
    }
    assert selected[..|selected|] == selected;
    atr := Sum(ranges) / period as real;
  }

  lemma OneBarHasNoRange(bars: seq<Bar>)
    ensures |bars| <= 1 ==> TrueRanges(bars) == []
    ensures |bars| >= 1 ==> TrueRanges(bars[..1]) == []
  {}

  function MinimumBars(p: Periods): int {
    MaxInt(p.slow, MaxInt(p.rsi + 1, MaxInt(p.atr + 1, p.volume)))
  }

  /** The indicators on the last bar of a history; None until every lookback is available. */
  function SnapshotOf(p: Periods, bars: seq<Bar>): Option<Snapshot>
    requires |bars| > 0
  {
    if |bars| < MinimumBars(p) then None
    else
      var last, closes, volumes := LastOf(bars), Closes(bars), Volumes(bars);
      var averageVolume := Sma(volumes, p.volume);
      Some(Snapshot(last.instrument, last.exchange, last.time, last.close,
                    Sma(closes, p.fast), Sma(closes, p.slow), Rsi(closes, p.rsi), Atr(bars, p.atr),
                    if averageVolume != 0.0 then last.volume as real / averageVolume else 0.0))
  }

  /** calculate_technical_snapshot: the indicators on the bar at an index, reading no later bar. */
  function CalculateSnapshot(p: Periods, bars: seq<Bar>, index: int): Result<Option<Snapshot>, Error> {
    if 0 <= index < |bars| then Ok(SnapshotOf(p, bars[..index + 1])) else Err(ValueError)
  }
}
