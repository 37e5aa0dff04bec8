/** Incremental running-sum indicators with lazy catch-up and a memo (portfolio/technical_only.py:561-636). */
module IndicatorCaching {
  import opened Prelude
  import opened Models
  import opened Strategies
  import opened Indicators

  // ----- Sliding windows

  /** Append to a window of bounded length, dropping its oldest value when it is full. */
  function Slid(window: seq<real>, x: real, period: int): seq<real>
    requires period >= 1
  {
    if |window| + 1 > period then (window + [x])[1..] else window + [x]
  }

  lemma SlidIsLastN(s: seq<real>, x: real, period: int)
    requires period >= 1
    ensures Slid(LastN(s, period), x, period) == LastN(s + [x], period)
  {}

  lemma SlidSum(window: seq<real>, x: real, period: int)
    requires period >= 1
    ensures Sum(Slid(window, x, period))
         == Sum(window) + x - if |window| + 1 > period then (window + [x])[0] else 0.0
  {
    SumSnoc(window, x);
    if |window| + 1 > period {
      SumSlide(window, x);
    }
  }

  // ----- What the windows of a state describe

  function Gain(change: real): real { Max(change, 0.0) }

  function Loss(change: real): real { Max(-change, 0.0) }

  function Gains(changes: seq<real>): (r: seq<real>)
    ensures |r| == |changes|
  {
    seq(|changes|, i requires 0 <= i < |changes| => Gain(changes[i]))
  }

  function Losses(changes: seq<real>): (r: seq<real>)
    ensures |r| == |changes|
  {
    seq(|changes|, i requires 0 <= i < |changes| => Loss(changes[i]))
  }

  lemma {:induction false} GainsSumToRises(changes: seq<real>)
    ensures Sum(Gains(changes)) == Rises(changes) && Sum(Losses(changes)) == Falls(changes)
  {
    if |changes| > 0 {
      var init := changes[..|changes| - 1];
      GainsSumToRises(init);
      assert Gains(changes)[..|init|] == Gains(init) && Losses(changes)[..|init|] == Losses(init);
    }
  }

  lemma WindowOfGains(changes: seq<real>, period: int)
    requires period >= 1
    ensures LastN(Gains(changes), period) == Gains(LastN(changes, period))
    ensures LastN(Losses(changes), period) == Losses(LastN(changes, period))
  {
    hide Gain, Loss;
    var window := LastN(changes, period);
    var dropped := |changes| - |window|;
    forall i | 0 <= i < |window|
      ensures LastN(Gains(changes), period)[i] == Gains(window)[i]
      ensures LastN(Losses(changes), period)[i] == Losses(window)[i]
    {
      assert window[i] == changes[dropped + i];
    }
  }

  lemma RangeAt(bars: seq<Bar>, i: nat)
    requires i + 1 < |bars|
    ensures TrueRanges(bars)[i] == TrueRange(bars[i + 1], bars[i].close)
  {
    hide TrueRange;
  }

  lemma WindowOfRanges(bars: seq<Bar>, period: int)
    requires period >= 1
    ensures LastN(TrueRanges(bars), period) == TrueRanges(LastN(bars, period + 1))
  {
    hide TrueRange, TrueRanges;
    if |bars| > period + 1 {
      var window, dropped := LastN(bars, period + 1), |bars| - period - 1;
      forall i: nat | i < period ensures LastN(TrueRanges(bars), period)[i] == TrueRanges(window)[i] {
        RangeAt(bars, dropped + i);
        RangeAt(window, i);
      }
    }
  }

  lemma ChangesGrow(closes: seq<real>, x: real)
    requires |closes| > 0
    ensures Changes(closes + [x]) == Changes(closes) + [x - LastOf(closes)]
  {}

  lemma GainsGrow(changes: seq<real>, x: real)
    ensures Gains(changes + [x]) == Gains(changes) + [Gain(x)]
    ensures Losses(changes + [x]) == Losses(changes) + [Loss(x)]
  {
    hide Gain, Loss;
  }

  lemma RangesGrow(bars: seq<Bar>, bar: Bar)
    requires |bars| > 0
    ensures TrueRanges(bars + [bar]) == TrueRanges(bars) + [TrueRange(bar, LastOf(bars).close)]
  {
    hide TrueRange;
  }

  lemma ClosesGrow(bars: seq<Bar>, bar: Bar)
    ensures Closes(bars + [bar]) == Closes(bars) + [bar.close]
    ensures Volumes(bars + [bar]) == Volumes(bars) + [bar.volume as real]
    ensures |bars| > 0 ==> LastOf(Closes(bars)) == LastOf(bars).close
    ensures |bars| == 0 ==>
              Changes([bar.close]) == [] && TrueRanges([bar]) == [] && bars + [bar] == [bar] && Closes(bars) == []
  {}

  /** One more bar extends every series by its own value. */
  lemma SeriesGrow(bars: seq<Bar>, bar: Bar)
    ensures Closes(bars + [bar]) == Closes(bars) + [bar.close]
    ensures Volumes(bars + [bar]) == Volumes(bars) + [bar.volume as real]
    ensures |bars| > 0 ==>
              var change := bar.close - LastOf(bars).close;
              && Gains(Changes(Closes(bars + [bar]))) == Gains(Changes(Closes(bars))) + [Gain(change)]
              && Losses(Changes(Closes(bars + [bar]))) == Losses(Changes(Closes(bars))) + [Loss(change)]
              && TrueRanges(bars + [bar]) == TrueRanges(bars) + [TrueRange(bar, LastOf(bars).close)]
    ensures |bars| == 0 ==> Changes(Closes(bars + [bar])) == [] && TrueRanges(bars + [bar]) == []
  {
    hide Gain, Loss, TrueRange, Changes, Gains, Losses, TrueRanges, Closes, Volumes;
    ClosesGrow(bars, bar);
    if |bars| > 0 {
      ChangesGrow(Closes(bars), bar.close);
      GainsGrow(Changes(Closes(bars)), bar.close - LastOf(bars).close);
      RangesGrow(bars, bar);
    }
  }

  class IndicatorState {
    var lastLength: nat
    var previousClose: Option<real>
    var fastValues: seq<real>
    var slowValues: seq<real>
    var volumeValues: seq<real>
    var gains: seq<real>
    var losses: seq<real>
    var trueRanges: seq<real>
    var fastSum: real
    var slowSum: real
    var volumeSum: real
    var gainSum: real
    var lossSum: real
    var trueRangeSum: real

    /** The windows and sums are those of the history. */
    ghost predicate Describes(p: Periods, bars: seq<Bar>)
      reads this
    {
      var changes := Changes(Closes(bars));
      && previousClose == (if |bars| == 0 then None else Some(LastOf(bars).close))
      && fastValues == LastN(Closes(bars), p.fast) && fastSum == Sum(fastValues)
      && slowValues == LastN(Closes(bars), p.slow) && slowSum == Sum(slowValues)
      && volumeValues == LastN(Volumes(bars), p.volume) && volumeSum == Sum(volumeValues)
      && gains == LastN(Gains(changes), p.rsi) && gainSum == Sum(gains)
      && losses == LastN(Losses(changes), p.rsi) && lossSum == Sum(losses)
      && trueRanges == LastN(TrueRanges(bars), p.atr) && trueRangeSum == Sum(trueRanges)
    }

    constructor ()
      ensures lastLength == 0
      ensures forall p: Periods :: Describes(p, [])
    {
      lastLength, previousClose := 0, None;
      fastValues, slowValues, volumeValues := [], [], [];
      gains, losses, trueRanges := [], [], [];
      fastSum, slowSum, volumeSum, gainSum, lossSum, trueRangeSum := 0.0, 0.0, 0.0, 0.0, 0.0, 0.0;
    }

    method UpdateCloses(p: Periods, bar: Bar, ghost bars: seq<Bar>)
      requires fastValues == LastN(Closes(bars), p.fast) && fastSum == Sum(fastValues)
      requires slowValues == LastN(Closes(bars), p.slow) && slowSum == Sum(slowValues)
      requires volumeValues == LastN(Volumes(bars), p.volume) && volumeSum == Sum(volumeValues)
      modifies `fastValues, `fastSum, `slowValues, `slowSum, `volumeValues, `volumeSum
      ensures fastValues == LastN(Closes(bars + [bar]), p.fast) && fastSum == Sum(fastValues)
      ensures slowValues == LastN(Closes(bars + [bar]), p.slow) && slowSum == Sum(slowValues)
      ensures volumeValues == LastN(Volumes(bars + [bar]), p.volume) && volumeSum == Sum(volumeValues)
    {
      hide Sum, LastN, Closes, Volumes;
      SeriesGrow(bars, bar);
      SlidIsLastN(Closes(bars), bar.close, p.fast);
      SlidIsLastN(Closes(bars), bar.close, p.slow);
      SlidIsLastN(Volumes(bars), bar.volume as real, p.volume);
      SlidSum(fastValues, bar.close, p.fast);
      SlidSum(slowValues, bar.close, p.slow);
      SlidSum(volumeValues, bar.volume as real, p.volume);
      fastValues := fastValues + [bar.close];
      fastSum := fastSum + bar.close;
      if |fastValues| > p.fast {
        fastSum := fastSum - fastValues[0];
        fastValues := fastValues[1..];
      }
      slowValues := slowValues + [bar.close];
      slowSum := slowSum + bar.close;
      if |slowValues| > p.slow {
        slowSum := slowSum - slowValues[0];
        slowValues := slowValues[1..];
      }
      var volume := bar.volume as real;
      volumeValues := volumeValues + [volume];
      volumeSum := volumeSum + volume;
      if |volumeValues| > p.volume {
        volumeSum := volumeSum - volumeValues[0];
        volumeValues := volumeValues[1..];
      }
    }

    method UpdateChanges(p: Periods, bar: Bar, ghost bars: seq<Bar>)
      requires |bars| > 0 && previousClose == Some(LastOf(bars).close)
      requires gains == LastN(Gains(Changes(Closes(bars))), p.rsi) && gainSum == Sum(gains)
      requires losses == LastN(Losses(Changes(Closes(bars))), p.rsi) && lossSum == Sum(losses)
      requires trueRanges == LastN(TrueRanges(bars), p.atr) && trueRangeSum == Sum(trueRanges)
      modifies `gains, `gainSum, `losses, `lossSum, `trueRanges, `trueRangeSum
      ensures gains == LastN(Gains(Changes(Closes(bars + [bar]))), p.rsi) && gainSum == Sum(gains)
      ensures losses == LastN(Losses(Changes(Closes(bars + [bar]))), p.rsi) && lossSum == Sum(losses)
      ensures trueRanges == LastN(TrueRanges(bars + [bar]), p.atr) && trueRangeSum == Sum(trueRanges)
    {
      hide Sum, LastN, Closes, Changes, Gains, Losses, TrueRanges, TrueRange, Max;
      var change := bar.close - previousClose.value;
      var gain := Max(change, 0.0);
      var loss := Max(-change, 0.0);
      var trueRange := TrueRange(bar, previousClose.value);
      SeriesGrow(bars, bar);
      SameWindowLength(Changes(Closes(bars)), p.rsi);
      SlidIsLastN(Gains(Changes(Closes(bars))), gain, p.rsi);
      SlidIsLastN(Losses(Changes(Closes(bars))), loss, p.rsi);
      SlidIsLastN(TrueRanges(bars), trueRange, p.atr);
      SlidSum(gains, gain, p.rsi);
      SlidSum(losses, loss, p.rsi);
      SlidSum(trueRanges, trueRange, p.atr);
      gains := gains + [gain];
      gainSum := gainSum + gain;
      losses := losses + [loss];
      lossSum := lossSum + loss;
      if |gains| > p.rsi {
        gainSum := gainSum - gains[0];
        gains := gains[1..];
        lossSum := lossSum - losses[0];
        losses := losses[1..];
      }
      trueRanges := trueRanges + [trueRange];
      trueRangeSum := trueRangeSum + trueRange;
      if |trueRanges| > p.atr {
        trueRangeSum := trueRangeSum - trueRanges[0];
        trueRanges := trueRanges[1..];
      }
    }

    /** _update_indicator_state */
    method Update(p: Periods, bar: Bar, ghost bars: seq<Bar>)
      requires Describes(p, bars)
      modifies this
      ensures Describes(p, bars + [bar]) && lastLength == old(lastLength)
    {
      hide Sum, LastN, Closes, Volumes, Changes, Gains, Losses, TrueRanges;
      UpdateCloses(p, bar, bars);
      if previousClose.Some? {
        UpdateChanges(p, bar, bars);
      } else {
        FirstBarChangesNothing(p, bar);
      }
      previousClose := Some(bar.close);
    }

    /** _snapshot_from_state */
    method ToSnapshot(p: Periods, bar: Bar, ghost bars: seq<Bar>) returns (r: Option<Snapshot>)
      requires Describes(p, bars) && |bars| > 0 && bar == LastOf(bars)
      ensures r == SnapshotOf(p, bars)
    {
      hide Sum, LastN, Closes, Volumes, Changes, Gains, Losses, TrueRanges, RsiFrom;
      WindowLengths(p, bars);
      WindowOfGains(Changes(Closes(bars)), p.rsi);
      GainsSumToRises(LastN(Changes(Closes(bars)), p.rsi));
      WindowOfRanges(bars, p.atr);
      if |slowValues| < p.slow || |gains| < p.rsi || |trueRanges| < p.atr || |volumeValues| < p.volume {
        return None;
      }
      var averageGain := gainSum / p.rsi as real;
      var averageLoss := lossSum / p.rsi as real;
      QuotientBound(gainSum, p.rsi as real, 0.0);
      QuotientBound(lossSum, p.rsi as real, 0.0);
      var rsi := RsiFrom(averageGain, averageLoss);
      var averageVolume := volumeSum / p.volume as real;
      return Some(Snapshot(bar.instrument, bar.exchange, bar.time, bar.close,
                           fastSum / p.fast as real, slowSum / p.slow as real, rsi, trueRangeSum / p.atr as real,
                           if averageVolume != 0.0 then bar.volume as real / averageVolume else 0.0));
    }
  }

  lemma SameWindowLength(changes: seq<real>, period: int)
    requires period >= 1
    ensures |LastN(Gains(changes), period)| == |LastN(Losses(changes), period)|
  {}

  lemma FirstBarChangesNothing(p: Periods, bar: Bar)
    ensures Changes(Closes([bar])) == [] && Changes(Closes([])) == []
    ensures TrueRanges([bar]) == [] && TrueRanges([]) == []
    ensures [] + [bar] == [bar]
  {}

  /** Every window is full exactly when the history has the minimum number of bars. */
  lemma WindowLengths(p: Periods, bars: seq<Bar>)
    requires |bars| > 0
    ensures var changes := Changes(Closes(bars));
            && |LastN(Closes(bars), p.slow)| == MinInt(|bars|, p.slow)
            && |LastN(Gains(changes), p.rsi)| == MinInt(|bars| - 1, p.rsi)
            && |LastN(TrueRanges(bars), p.atr)| == MinInt(|bars| - 1, p.atr)
            && |LastN(Volumes(bars), p.volume)| == MinInt(|bars|, p.volume)
  {}

  // ----- The cache

  /** One instrument's bars in strictly increasing time. */
  predicate IsHistory(bars: seq<Bar>, instrument: string) {
    && (forall i :: 0 <= i < |bars| ==> bars[i].instrument == instrument)
    && (forall i, j :: 0 <= i < j < |bars| ==> bars[i].time.instant < bars[j].time.instant)
  }

  type Memo = map<(string, int), Option<Snapshot>>

  /** The memo entry for an instant is the simple indicator of the history up to that instant. */
  ghost predicate IsMemo(p: Periods, memo: Memo, history: seq<Bar>, key: (string, int), n: int) {
    && 1 <= n <= |history| && history[n - 1].time.instant == key.1
    && key in memo && memo[key] == SnapshotOf(p, history[..n])
  }

  ghost predicate MemoValid(p: Periods, memo: Memo, seen: map<string, seq<Bar>>) {
    forall key | key in memo :: key.0 in seen && exists n :: IsMemo(p, memo, seen[key.0], key, n)
  }

  /** Memo entries stay right when histories only grow. */
  lemma MemoSurvives(p: Periods, memo: Memo, seen: map<string, seq<Bar>>, later: map<string, seq<Bar>>)
    requires MemoValid(p, memo, seen)
    requires forall k | k in seen :: k in later && seen[k] <= later[k]
    ensures MemoValid(p, memo, later)
  {
    hide SnapshotOf;
    forall key | key in memo ensures key.0 in later && exists n :: IsMemo(p, memo, later[key.0], key, n) {
      var n :| IsMemo(p, memo, seen[key.0], key, n);
      assert later[key.0][..n] == seen[key.0][..n];
      assert IsMemo(p, memo, later[key.0], key, n);
    }
  }

  lemma MemoExtends(p: Periods, memo: Memo, seen: map<string, seq<Bar>>, bars: seq<Bar>, instrument: string)
    requires MemoValid(p, memo, seen) && |bars| > 0 && instrument in seen && seen[instrument] == bars
    ensures MemoValid(p, memo[(instrument, LastOf(bars).time.instant) := SnapshotOf(p, bars)], seen)
  {
    hide SnapshotOf;
    var added := (instrument, LastOf(bars).time.instant);
    var after := memo[added := SnapshotOf(p, bars)];
    assert bars[..|bars|] == bars;
    assert IsMemo(p, after, bars, added, |bars|);
    forall key | key in after ensures key.0 in seen && exists n :: IsMemo(p, after, seen[key.0], key, n) {
      if key != added {
        var n :| IsMemo(p, memo, seen[key.0], key, n);
        assert IsMemo(p, after, seen[key.0], key, n);
      }
    }
  }

  /** A memoised answer for a history's last bar is the answer for the whole history. */
  lemma MemoAnswersHistory(p: Periods, memo: Memo, seen: map<string, seq<Bar>>, bars: seq<Bar>, instrument: string)
    requires MemoValid(p, memo, seen) && |bars| > 0 && IsHistory(bars, instrument)
    requires instrument in seen ==> seen[instrument] <= bars
    requires (instrument, LastOf(bars).time.instant) in memo
    ensures instrument in seen && seen[instrument] == bars
    ensures memo[(instrument, LastOf(bars).time.instant)] == SnapshotOf(p, bars)
  {
    hide SnapshotOf;
    var key := (instrument, LastOf(bars).time.instant);
    var n :| IsMemo(p, memo, seen[instrument], key, n);
    assert bars[n - 1].time.instant == key.1;
    assert n == |bars|;
    assert seen[instrument][..n] == bars;
  }

  class IndicatorCache {
    const periods: Periods
    var snapshots: Memo
    var states: map<string, IndicatorState>
    /** The history each state has consumed. */
    ghost var seen: map<string, seq<Bar>>

    /** The states' objects. */
    ghost var Repr: set<object>

    /** The instrument's state has consumed exactly its history. */
    ghost predicate Ready(instrument: string)
      requires instrument in states && instrument in seen
      reads this`states, this`seen, states[instrument]
    {
      states[instrument].lastLength == |seen[instrument]| && states[instrument].Describes(periods, seen[instrument])
    }

    ghost predicate Unshared()
      reads this`states
    {
      forall a, b | a in states && b in states && a != b :: states[a] != states[b]
    }

    ghost predicate StatesValid()
      reads this`states, this`seen, this`Repr, Repr
    {
      && states.Keys == seen.Keys
      && (forall k | k in states :: states[k] in Repr)
      && Unshared()
      && (forall k | k in states :: Ready(k))
    }

    ghost predicate Valid()
      reads this, Repr
    {
      this !in Repr && StatesValid() && MemoValid(periods, snapshots, seen)
    }

    constructor (periods: Periods)
      ensures Valid() && this.periods == periods && seen == map[] && Repr == {}
    {
      this.periods := periods;
      snapshots, states, seen, Repr := map[], map[], map[], {};
    }

    /** Feed the bars a state has not consumed yet. */
    method CatchUp(state: IndicatorState, bars: seq<Bar>, ghost consumed: seq<Bar>)
      requires state.Describes(periods, consumed) && state.lastLength == |consumed| && consumed <= bars
      modifies state
      ensures state.Describes(periods, bars) && state.lastLength == |bars|
    {
      hide Sum, LastN, Closes, Volumes, Changes, Gains, Losses, TrueRanges;
      assert bars[..state.lastLength] == consumed;
      for i := state.lastLength to |bars|
        invariant state.Describes(periods, bars[..i])
      {
        assert bars[..i + 1] == bars[..i] + [bars[i]];
        state.Update(periods, bars[i], bars[..i]);
      }
      assert bars[..|bars|] == bars;
      state.lastLength := |bars|;
    }

    /** The instrument's state, created empty on first use. */
    method StateFor(instrument: string) returns (state: IndicatorState)
      requires StatesValid()
      modifies this`states, this`seen, this`Repr
      ensures StatesValid()
      ensures instrument in states && state == states[instrument]
      ensures seen == if instrument in old(seen) then old(seen) else old(seen)[instrument := []]
      ensures fresh(Repr - old(Repr))
    {
      hide IndicatorState.Describes;
      if instrument in states {
        return states[instrument];
      }
      state := new IndicatorState();
      states := states[instrument := state];
      Repr := Repr + {state};
      seen := seen[instrument := []];
    }

    /** Catch the instrument's own state up with its history and read it; the other states stay as they are. */
    method Read(instrument: string, bars: seq<Bar>) returns (snapshot: Option<Snapshot>)
      requires StatesValid() && instrument in states && seen[instrument] <= bars && |bars| > 0
      modifies this`seen, states[instrument]
      ensures StatesValid()
      ensures snapshot == SnapshotOf(periods, bars)
      ensures seen == old(seen)[instrument := bars]
    {
      hide IndicatorState.Describes, SnapshotOf;
      var state := states[instrument];
      assert Ready(instrument);
      CatchUp(state, bars, seen[instrument]);
      snapshot := state.ToSnapshot(periods, LastOf(bars), bars);
      seen := seen[instrument := bars];
      assert Ready(instrument);
      forall k | k in states && k != instrument ensures Ready(k) {
        assert states[k] != state && old(Ready(k));
      }
    }

    /** Catch the instrument's state up and read it. */
    method Compute(bars: seq<Bar>, instrument: string) returns (snapshot: Option<Snapshot>)
      requires StatesValid() && |bars| > 0 && (instrument in seen ==> seen[instrument] <= bars)
      modifies this`states, this`seen, this`Repr, Repr
      ensures StatesValid()
      ensures snapshot == SnapshotOf(periods, bars)
      ensures seen == old(seen)[instrument := bars]
      ensures fresh(Repr - old(Repr))
    {
      hide IndicatorCache.Ready, IndicatorCache.Unshared, SnapshotOf;
      var state := StateFor(instrument);
      assert state in Repr;
      snapshot := Read(instrument, bars);
    }

    /**
     * The indicators on the last bar of an append-only history: whichever bars earlier calls consumed or skipped,
     * the answer is the windowed definition's, the missing-lookback answer included.
     */
    method TechnicalSnapshot(bars: seq<Bar>) returns (r: Result<Option<Snapshot>, Error>)
      requires Valid()
      requires |bars| > 0 ==>
                 && IsHistory(bars, bars[0].instrument)
                 && (bars[0].instrument in seen ==> seen[bars[0].instrument] <= bars)
      modifies this, Repr
      ensures Valid()
      ensures r == if |bars| == 0 then Err(IndexError) else CalculateSnapshot(periods, bars, |bars| - 1)
      ensures seen == if |bars| == 0 then old(seen) else old(seen)[bars[0].instrument := bars]
      ensures fresh(Repr - old(Repr))
    {
      hide IndicatorState.Describes, SnapshotOf, MemoValid, IsHistory, IndicatorCache.StatesValid;
      if |bars| == 0 {
        return Err(IndexError);
      }
      assert bars[..|bars|] == bars;
      var instrument, key := bars[0].instrument, (bars[0].instrument, LastOf(bars).time.instant);
      if key in snapshots {
        MemoAnswersHistory(periods, snapshots, seen, bars, instrument);
        return Ok(snapshots[key]);
      }
      var snapshot := Compute(bars, instrument);
      MemoSurvives(periods, snapshots, old(seen), seen);
      MemoExtends(periods, snapshots, seen, bars, instrument);
      snapshots := snapshots[key := snapshot];
      return Ok(snapshot);
    }
  }
}
