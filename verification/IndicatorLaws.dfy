/** What the indicators measure, in the prices themselves. */
module IndicatorLaws {
  import opened Prelude
  import opened Models
  import opened Strategies
  import opened Indicators

  // ----- Means

  /** The mean of some values: their sum, spread evenly. */
  predicate IsMean(mean: real, values: seq<real>) {
    |values| > 0 && mean * |values| as real == Sum(values)
  }

  lemma QuotientIsMean(values: seq<real>, n: int)
    requires n == |values| > 0
    ensures IsMean(Sum(values) / n as real, values)
  {
    var q := Sum(values) / n as real;
    assert q * n as real == Sum(values);
  }

  function LastCloses(bars: seq<Bar>, n: nat): seq<real>
    requires n <= |bars|
  {
    seq(n, i requires 0 <= i < n => bars[|bars| - n + i].close)
  }

  lemma LastClosesAreLast(bars: seq<Bar>, n: nat)
    requires n <= |bars|
    ensures LastN(Closes(bars), n) == LastCloses(bars, n)
  {}

  /** A simple moving average over a full lookback is the mean of the last closes. */
  lemma SmaIsMean(bars: seq<Bar>, n: nat)
    requires 0 < n <= |bars|
    ensures IsMean(Sma(Closes(bars), n), LastCloses(bars, n))
  {
    hide Sum, IsMean;
    LastClosesAreLast(bars, n);
    QuotientIsMean(LastCloses(bars, n), n);
  }

  // ----- The true range

  /** The distance between two prices. */
  function Gap(a: real, b: real): real { if a >= b then a - b else b - a }

  /** The extent of a bar together with the close before it. */
  function Extent(bar: Bar, previousClose: real): real {
    Max(bar.high, previousClose) - Min(bar.low, previousClose)
  }

  /** The true range is how far the bar and the close before it reach: no two of the three prices are further apart. */
  lemma TrueRangeIsExtent(bar: Bar, previousClose: real)
    requires bar.low <= bar.high
    ensures TrueRange(bar, previousClose) == Extent(bar, previousClose)
    ensures forall x, y | x in {bar.high, bar.low, previousClose} && y in {bar.high, bar.low, previousClose} ::
              Gap(x, y) <= TrueRange(bar, previousClose)
    ensures exists x, y :: x in {bar.high, bar.low, previousClose} && y in {bar.high, bar.low, previousClose} &&
                           Gap(x, y) == TrueRange(bar, previousClose)
  {
    var top, bottom := Max(bar.high, previousClose), Min(bar.low, previousClose);
    assert top in {bar.high, bar.low, previousClose} && bottom in {bar.high, bar.low, previousClose};
    assert Gap(top, bottom) == TrueRange(bar, previousClose);
  }

  /** The extents of the last n bars, each with the close before it. */
  function Extents(bars: seq<Bar>, n: nat): seq<real>
    requires n < |bars|
  {
    seq(n, i requires 0 <= i < n => Extent(bars[|bars| - n + i], bars[|bars| - n + i - 1].close))
  }

  /** How far each of the last n closes is from the one before. */
  function CloseGaps(bars: seq<Bar>, n: nat): seq<real>
    requires n < |bars|
  {
    seq(n, i requires 0 <= i < n => Gap(bars[|bars| - n + i].close, bars[|bars| - n + i - 1].close))
  }

  /** A bar's close lies between its low and its high. */
  predicate Shaped(bar: Bar) { bar.low <= bar.close <= bar.high }

  lemma RangesAreExtents(bars: seq<Bar>, n: nat)
    requires n < |bars| && forall b | b in bars :: b.low <= b.high
    ensures TrueRanges(LastN(bars, n + 1)) == Extents(bars, n)
  {
    var last := LastN(bars, n + 1);
    hide TrueRange, Extent;
    forall i | 0 <= i < n ensures TrueRanges(last)[i] == Extents(bars, n)[i] {
      assert last[i + 1] == bars[|bars| - n + i] && last[i] == bars[|bars| - n + i - 1];
      assert bars[|bars| - n + i] in bars;
      TrueRangeIsExtent(last[i + 1], last[i].close);
    }
  }

  lemma {:induction false} SumIsMonotone(a: seq<real>, b: seq<real>)
    requires |a| == |b| && forall i | 0 <= i < |a| :: a[i] <= b[i]
    ensures Sum(a) <= Sum(b)
  {
    if |a| > 0 {
      SumIsMonotone(a[..|a| - 1], b[..|b| - 1]);
    }
  }

  lemma MoveWithinExtent(bar: Bar, previousClose: real)
    requires Shaped(bar)
    ensures Gap(bar.close, previousClose) <= Extent(bar, previousClose)
  {}

  lemma GapsWithinExtents(bars: seq<Bar>, n: nat)
    requires n < |bars| && forall b | b in bars :: Shaped(b)
    ensures Sum(CloseGaps(bars, n)) <= Sum(Extents(bars, n))
  {
    hide Sum, Gap, Extent, Shaped;
    forall i | 0 <= i < n ensures CloseGaps(bars, n)[i] <= Extents(bars, n)[i] {
      var bar := bars[|bars| - n + i];
      assert bar in bars;
      MoveWithinExtent(bar, bars[|bars| - n + i - 1].close);
    }
    SumIsMonotone(CloseGaps(bars, n), Extents(bars, n));
  }

  /** The average true range is the mean extent of the last bars, and never below the mean move of the close. */
  lemma AtrIsMeanExtent(bars: seq<Bar>, n: nat)
    requires 0 < n < |bars| && forall b | b in bars :: Shaped(b)
    ensures IsMean(Atr(bars, n), Extents(bars, n))
    ensures Atr(bars, n) * n as real >= Sum(CloseGaps(bars, n))
  {
    hide Sum, IsMean, Extents, TrueRanges, CloseGaps;
    RangesAreExtents(bars, n);
    GapsWithinExtents(bars, n);
    ExtentsLength(bars, n);
    QuotientIsMean(Extents(bars, n), n);
    MeanTotal(Atr(bars, n), Extents(bars, n));
  }

  lemma ExtentsLength(bars: seq<Bar>, n: nat)
    requires n < |bars|
    ensures |Extents(bars, n)| == n
  {}

  lemma MeanTotal(mean: real, values: seq<real>)
    requires IsMean(mean, values)
    ensures mean * |values| as real == Sum(values)
  {}

  // ----- The relative strength

  /** What all the moves add up to, whichever their direction. */
  function Travel(changes: seq<real>): real {
    if |changes| == 0 then 0.0
    else Travel(changes[..|changes| - 1]) + Gap(changes[|changes| - 1], 0.0)
  }

  lemma {:induction false} RisesAndFalls(changes: seq<real>)
    ensures Rises(changes) + Falls(changes) == Travel(changes)
    ensures Rises(changes) - Falls(changes) == Sum(changes)
  {
    if |changes| > 0 {
      RisesAndFalls(changes[..|changes| - 1]);
    }
  }

  lemma {:induction false} ChangesTelescope(closes: seq<real>)
    requires |closes| > 0
    ensures Sum(Changes(closes)) == LastOf(closes) - closes[0]
  {
    if |closes| > 1 {
      var init := closes[..|closes| - 1];
      ChangesTelescope(init);
      assert Changes(closes) == Changes(init) + [closes[|closes| - 1] - closes[|closes| - 2]];
      SumSnoc(Changes(init), closes[|closes| - 1] - closes[|closes| - 2]);
    } else {
      assert Changes(closes) == [];
    }
  }

  lemma RsiOfSums(rises: real, falls: real, n: real)
    requires rises >= 0.0 && falls >= 0.0 && n > 0.0 && rises / n >= 0.0 && falls / n >= 0.0
    ensures rises + falls == 0.0 ==> RsiFrom(rises / n, falls / n) == 50.0
    ensures RsiFrom(rises / n, falls / n) * (rises + falls) == 100.0 * rises
  {
    var g, l := rises / n, falls / n;
    assert g * n == rises && l * n == falls;
    if falls == 0.0 {
      ZeroOver(n);
      assert l == 0.0;
      if rises == 0.0 {
        assert g == 0.0;
      } else {
        PositiveOver(rises, n);
      }
    } else {
      PositiveOver(falls, n);
      StrengthOf(g, l, n);
    }
  }

  lemma ZeroOver(n: real)
    requires n > 0.0
    ensures 0.0 / n == 0.0
  {}

  lemma PositiveOver(x: real, n: real)
    requires x > 0.0 && n > 0.0
    ensures x / n > 0.0
  {
    QuotientBound(x, n, 0.0);
    assert (x / n) * n == x;
  }

  lemma StrengthOf(g: real, l: real, n: real)
    requires g >= 0.0 && l > 0.0
    ensures RsiFrom(g, l) * (g * n + l * n) == 100.0 * (g * n)
  {
    var q := g / l;
    QuotientBound(g, l, 0.0);
    assert q * l == g && q >= 0.0;
    var share := 100.0 / (1.0 + q);
    assert share * (1.0 + q) == 100.0;
    assert (g * n + l * n) == (1.0 + q) * (l * n);
    ThreeFactors(share, 1.0 + q, l * n);
    assert share * (g * n + l * n) == 100.0 * (l * n);
  }

  lemma ThreeFactors(a: real, b: real, c: real)
    ensures a * (b * c) == (a * b) * c
  {}

  function LastMoves(closes: seq<real>, n: nat): seq<real>
    requires n < |closes|
  {
    seq(n, i requires 0 <= i < n => closes[|closes| - n + i] - closes[|closes| - n + i - 1])
  }

  lemma LastMovesAreLast(closes: seq<real>, n: nat)
    requires 0 < n < |closes|
    ensures LastN(Changes(closes), n) == LastMoves(closes, n)
  {
    var changes := Changes(closes);
    assert |changes| == |closes| - 1;
    forall i | 0 <= i < n ensures LastN(changes, n)[i] == LastMoves(closes, n)[i] {
      assert LastN(changes, n)[i] == changes[|changes| - n + i];
    }
  }

  lemma TailMoves(closes: seq<real>, n: nat, tail: seq<real>)
    requires 0 < n < |closes| && tail == closes[|closes| - n - 1..]
    ensures LastMoves(closes, n) == Changes(tail)
    ensures |tail| > 0 && LastOf(tail) == LastOf(closes) && tail[0] == closes[|closes| - n - 1]
  {}

  /** The moves of the lookback add up to its net move. */
  lemma MovesAddUp(closes: seq<real>, n: nat)
    requires 0 < n < |closes|
    ensures Sum(LastMoves(closes, n)) == LastOf(closes) - closes[|closes| - n - 1]
  {
    var tail := closes[|closes| - n - 1..];
    TailMoves(closes, n, tail);
    hide LastMoves, Changes, Sum;
    ChangesTelescope(tail);
  }

  /**
   * The relative strength is fifty plus fifty times the net move of the lookback over the way travelled: fifty
   * without any move, a hundred when every move is a rise, and nought when every one is a fall.
   */
  lemma RsiIsNetOverTravel(closes: seq<real>, n: nat)
    requires 0 < n < |closes|
    ensures var moves, net := LastMoves(closes, n), LastOf(closes) - closes[|closes| - n - 1];
            && (Travel(moves) == 0.0 ==> Rsi(closes, n) == 50.0)
            && (Rsi(closes, n) - 50.0) * Travel(moves) == 50.0 * net
  {
    hide LastMoves, Changes, Rises, Falls, Travel, RsiFrom, Sum, LastN;
    var moves := LastMoves(closes, n);
    LastMovesAreLast(closes, n);
    MovesAddUp(closes, n);
    RisesAndFalls(moves);
    QuotientBound(Rises(moves), n as real, 0.0);
    QuotientBound(Falls(moves), n as real, 0.0);
    RsiOfSums(Rises(moves), Falls(moves), n as real);
    FromFifty(Rsi(closes, n), Rises(moves), Falls(moves));
  }

  lemma FromFifty(rsi: real, rises: real, falls: real)
    requires rsi * (rises + falls) == 100.0 * rises
    ensures (rsi - 50.0) * (rises + falls) == 50.0 * (rises - falls)
  {
    assert (rsi - 50.0) * (rises + falls) == rsi * (rises + falls) - 50.0 * (rises + falls);
  }

  // ----- The snapshot

  function LastVolumes(bars: seq<Bar>, n: nat): seq<real>
    requires n <= |bars|
  {
    seq(n, i requires 0 <= i < n => bars[|bars| - n + i].volume as real)
  }

  /** Every lookback is full. */
  predicate Full(p: Periods, bars: seq<Bar>) {
    |bars| >= p.slow && |bars| > p.rsi && |bars| > p.atr && |bars| >= p.volume
  }

  /** The indicators of a snapshot, each in the prices and volumes of its own lookback. */
  ghost predicate Measures(p: Periods, bars: seq<Bar>, s: Snapshot)
    requires Full(p, bars)
  {
    && s.close == LastOf(bars).close && s.instrument == LastOf(bars).instrument && s.time == LastOf(bars).time
    && IsMean(s.smaFast, LastCloses(bars, p.fast)) && IsMean(s.smaSlow, LastCloses(bars, p.slow))
    && (s.rsi - 50.0) * Travel(LastMoves(Closes(bars), p.rsi))
       == 50.0 * (LastOf(bars).close - bars[|bars| - p.rsi - 1].close)
    && (Travel(LastMoves(Closes(bars), p.rsi)) == 0.0 ==> s.rsi == 50.0)
    && IsMean(s.atr, Extents(bars, p.atr))
    && (Sum(LastVolumes(bars, p.volume)) == 0.0 ==> s.volumeRatio == 0.0)
    && s.volumeRatio * Sum(LastVolumes(bars, p.volume))
       == if Sum(LastVolumes(bars, p.volume)) == 0.0 then 0.0 else p.volume as real * LastOf(bars).volume as real
  }

  lemma VolumeShare(total: real, n: int, volume: real)
    requires n > 0
    ensures var mean := total / n as real;
            && (mean == 0.0 <==> total == 0.0)
            && (mean != 0.0 ==> (volume / mean) * total == n as real * volume)
  {
    var mean := total / n as real;
    assert mean * n as real == total;
    if mean != 0.0 {
      var share := volume / mean;
      assert share * mean == volume;
      ThreeFactors(share, mean, n as real);
    }
  }

  lemma LastVolumesAreLast(bars: seq<Bar>, n: nat)
    requires n <= |bars|
    ensures LastN(Volumes(bars), n) == LastVolumes(bars, n)
  {}

  lemma SnapshotFields(p: Periods, bars: seq<Bar>)
    requires |bars| > 0
    ensures SnapshotOf(p, bars).Some? <==> Full(p, bars)
    ensures Full(p, bars) ==>
              var s := SnapshotOf(p, bars).value;
              && s.close == LastOf(bars).close && s.instrument == LastOf(bars).instrument && s.time == LastOf(bars).time
              && s.smaFast == Sma(Closes(bars), p.fast) && s.smaSlow == Sma(Closes(bars), p.slow)
              && s.rsi == Rsi(Closes(bars), p.rsi) && s.atr == Atr(bars, p.atr)
              && s.volumeRatio == if Sma(Volumes(bars), p.volume) == 0.0 then 0.0
                                  else LastOf(bars).volume as real / Sma(Volumes(bars), p.volume)
  {
    hide Sma, Rsi, Atr, Closes, Volumes;
  }

  lemma RsiMeasures(bars: seq<Bar>, n: nat)
    requires 0 < n < |bars|
    ensures var travel := Travel(LastMoves(Closes(bars), n));
            && (Rsi(Closes(bars), n) - 50.0) * travel == 50.0 * (LastOf(bars).close - bars[|bars| - n - 1].close)
            && (travel == 0.0 ==> Rsi(Closes(bars), n) == 50.0)
  {
    hide Travel, LastMoves, Rsi;
    RsiIsNetOverTravel(Closes(bars), n);
    assert LastOf(Closes(bars)) == LastOf(bars).close;
    assert Closes(bars)[|bars| - n - 1] == bars[|bars| - n - 1].close;
  }

  lemma VolumeMeasures(bars: seq<Bar>, n: nat)
    requires 0 < n <= |bars|
    ensures var mean, total := Sma(Volumes(bars), n), Sum(LastVolumes(bars, n));
            var ratio := if mean == 0.0 then 0.0 else LastOf(bars).volume as real / mean;
            && (total == 0.0 ==> ratio == 0.0)
            && ratio * total == if total == 0.0 then 0.0 else n as real * LastOf(bars).volume as real
  {
    hide Sum, Volumes, LastVolumes, LastN;
    LastVolumesAreLast(bars, n);
    VolumeShare(Sum(LastVolumes(bars, n)), n, LastOf(bars).volume as real);
  }

  /**
   * There is a snapshot exactly when every lookback is full, and it measures what it says: means of closes, net move
   * over travel, mean extent, and the last volume over the mean volume.
   */
  lemma SnapshotMeasures(p: Periods, bars: seq<Bar>)
    requires |bars| > 0 && forall b | b in bars :: Shaped(b)
    ensures SnapshotOf(p, bars).Some? <==> Full(p, bars)
    ensures Full(p, bars) ==> Measures(p, bars, SnapshotOf(p, bars).value)
  {
    hide Sum, IsMean, Sma, Atr, Rsi, Travel, LastMoves, Extents, LastCloses, LastVolumes, Volumes, Closes, Shaped,
         SnapshotOf;
    SnapshotFields(p, bars);
    if Full(p, bars) {
      SmaIsMean(bars, p.fast);
      SmaIsMean(bars, p.slow);
      RsiMeasures(bars, p.rsi);
      AtrIsMeanExtent(bars, p.atr);
      VolumeMeasures(bars, p.volume);
    }
  }
}
