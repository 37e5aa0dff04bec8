/** Drawdown of an equity curve, and the sanity check on its points (backtesting/metrics.py). */
module Metrics {
  import opened Prelude

  /** The running maximum. */
  function Peak(curve: seq<real>): real
    requires |curve| > 0
  {
    if |curve| == 1 then curve[0] else Max(Peak(curve[..|curve| - 1]), curve[|curve| - 1])
  }

  /** The fall from a peak, as a fraction of it. */
  function Drawdown(peak: real, equity: real): real
    requires peak > 0.0
  {
    (peak - equity) / peak
  }

  function MaxDrawdown(curve: seq<real>): (d: real)
    ensures d >= 0.0
  {
    if |curve| == 0 then 0.0
    else
      var before, peak := MaxDrawdown(curve[..|curve| - 1]), Peak(curve);
      if peak > 0.0 then Max(before, Drawdown(peak, curve[|curve| - 1])) else before
  }

  lemma {:induction false} PeakIsMaximum(curve: seq<real>)
    requires |curve| > 0
    ensures forall i :: 0 <= i < |curve| ==> curve[i] <= Peak(curve)
    ensures exists i :: 0 <= i < |curve| && curve[i] == Peak(curve)
  {
    if |curve| > 1 {
      var init := curve[..|curve| - 1];
      PeakIsMaximum(init);
      var i :| 0 <= i < |init| && init[i] == Peak(init);
      assert curve[i] == Peak(init);
      assert curve[|curve| - 1] <= Peak(curve);
    }
  }

  /** An ordered pair of points to fall between, starting from a positive one. */
  predicate IsFall(curve: seq<real>, i: int, j: int) {
    0 <= i <= j < |curve| && curve[i] > 0.0
  }

  function FallBetween(curve: seq<real>, i: int, j: int): real
    requires IsFall(curve, i, j)
  {
    (curve[i] - curve[j]) / curve[i]
  }

  ghost predicate BoundsEveryFall(curve: seq<real>, d: real) {
    forall i, j | IsFall(curve, i, j) :: FallBetween(curve, i, j) <= d
  }

  ghost predicate IsSomeFall(curve: seq<real>, d: real) {
    exists i, j :: IsFall(curve, i, j) && FallBetween(curve, i, j) == d
  }

  lemma FallExtends(curve: seq<real>, x: real, i: int, j: int)
    requires IsFall(curve, i, j)
    ensures IsFall(curve + [x], i, j) && FallBetween(curve + [x], i, j) == FallBetween(curve, i, j)
  {}

  /** On every curve the drawdown is zero or the fall between two of its points. */
  lemma {:induction false} DrawdownIsAttained(curve: seq<real>)
    ensures MaxDrawdown(curve) == 0.0 || IsSomeFall(curve, MaxDrawdown(curve))
  {
    if |curve| > 0 {
      var init, n := curve[..|curve| - 1], |curve|;
      assert curve == init + [curve[n - 1]];
      DrawdownIsAttained(init);
      if MaxDrawdown(curve) == MaxDrawdown(init) {
        if MaxDrawdown(init) != 0.0 {
          var i, j :| IsFall(init, i, j) && FallBetween(init, i, j) == MaxDrawdown(init);
          FallExtends(init, curve[n - 1], i, j);
        }
      } else {
        PeakIsMaximum(curve);
        var i :| 0 <= i < n && curve[i] == Peak(curve);
        assert IsFall(curve, i, n - 1) && FallBetween(curve, i, n - 1) == MaxDrawdown(curve);
      }
    }
  }

  /** From a lower starting point to a non-negative end, the fall is smaller. */
  lemma SmallerStartSmallerFall(low: real, high: real, end: real)
    requires 0.0 < low <= high
    ensures end >= 0.0 ==> (low - end) / low <= (high - end) / high
    ensures end < 0.0 && low < high ==> (low - end) / low > (high - end) / high
  {
    var a := end / low;
    assert a * low == end;
    RelativeFall(low, end);
    RelativeFall(high, end);
    QuotientBound(end, low, 0.0);
    QuotientBound(end, high, a);
    assert a * high - end == a * (high - low);
    if end < 0.0 && low < high {
      assert a * (high - low) < 0.0;
    }
  }

  /** On a curve without negative points the drawdown is the deepest fall. */
  lemma {:induction false} DrawdownIsDeepestFall(curve: seq<real>)
    requires forall i :: 0 <= i < |curve| ==> curve[i] >= 0.0
    ensures BoundsEveryFall(curve, MaxDrawdown(curve))
    ensures MaxDrawdown(curve) == 0.0 || IsSomeFall(curve, MaxDrawdown(curve))
  {
    DrawdownIsAttained(curve);
    if |curve| > 0 {
      var init, n := curve[..|curve| - 1], |curve|;
      DrawdownIsDeepestFall(init);
      forall i, j | IsFall(curve, i, j)
        ensures FallBetween(curve, i, j) <= MaxDrawdown(curve)
      {
        if j < n - 1 {
          assert IsFall(init, i, j) && FallBetween(init, i, j) == FallBetween(curve, i, j);
        } else {
          PeakIsMaximum(curve);
          SmallerStartSmallerFall(curve[i], Peak(curve), curve[j]);
        }
      }
    }
  }

  /** With a negative point the running peak can hide a deeper fall. */
  lemma DrawdownMissesAFall()
    ensures MaxDrawdown([1.0, 2.0, -1.0]) == 1.5
    ensures IsFall([1.0, 2.0, -1.0], 0, 2) && FallBetween([1.0, 2.0, -1.0], 0, 2) == 2.0
  {
    var c := [1.0, 2.0, -1.0];
    assert c[..2] == [1.0, 2.0] && c[..2][..1] == [1.0] && c[..2][..1][..0] == [];
    assert Peak(c[..2][..1]) == 1.0 && Peak(c[..2]) == 2.0 && Peak(c) == 2.0;
    assert MaxDrawdown(c[..2][..1]) == 0.0;
    assert MaxDrawdown(c[..2]) == 0.0;
  }

  /** A curve that CheckedReturns accepts: only its last point may be non-positive. */
  predicate Accepted(curve: seq<real>) {
    forall i :: 0 <= i < |curve| - 1 ==> curve[i] > 0.0
  }

  lemma {:induction false} PositiveCurveKeepsPart(curve: seq<real>)
    requires forall i :: 0 <= i < |curve| ==> curve[i] > 0.0
    ensures MaxDrawdown(curve) < 1.0
  {
    if |curve| > 0 {
      var last, peak := curve[|curve| - 1], Peak(curve);
      PositiveCurveKeepsPart(curve[..|curve| - 1]);
      PeakIsMaximum(curve);
      RelativeFall(peak, last);
      QuotientBound(last, peak, 0.0);
    }
  }

  /** A negative last point after positive ones: the drawdown is the fall from the peak to it. */
  lemma NegativeEndDrawdown(curve: seq<real>)
    requires |curve| > 1 && Accepted(curve) && curve[|curve| - 1] < 0.0
    ensures Peak(curve) == Peak(curve[..|curve| - 1]) > 0.0
    ensures MaxDrawdown(curve) == (Peak(curve) - curve[|curve| - 1]) / Peak(curve) > 1.0
  {
    var init, last, peak := curve[..|curve| - 1], curve[|curve| - 1], Peak(curve);
    PositiveCurveKeepsPart(init);
    PeakIsMaximum(init);
    assert init[0] > 0.0;
    RelativeFall(peak, last);
    QuotientBound(last, peak, 0.0);
  }

  /** ... and it bounds the falls that start at the peak value. */
  lemma FallsFromThePeak(curve: seq<real>, i: int, j: int)
    requires |curve| > 1 && Accepted(curve) && curve[|curve| - 1] < 0.0
    requires IsFall(curve, i, j) && (j < |curve| - 1 || curve[i] == Peak(curve))
    ensures FallBetween(curve, i, j) <= MaxDrawdown(curve)
  {
    NegativeEndDrawdown(curve);
    if j < |curve| - 1 {
      var init := curve[..|curve| - 1];
      DrawdownIsDeepestFall(init);
      PositiveCurveKeepsPart(init);
      assert IsFall(init, i, j) && FallBetween(init, i, j) == FallBetween(curve, i, j);
    }
  }

  /**
   * On the curves the metrics accept, the drawdown is the deepest fall exactly when the last point is not
   * negative or all earlier points are equal.
   */
  lemma DeepestFallExactly(curve: seq<real>)
    requires |curve| > 0 && Accepted(curve)
    ensures BoundsEveryFall(curve, MaxDrawdown(curve)) <==>
            curve[|curve| - 1] >= 0.0 || forall i :: 0 <= i < |curve| - 1 ==> curve[i] == curve[0]
  {
    var n, last := |curve|, curve[|curve| - 1];
    if last >= 0.0 {
      DrawdownIsDeepestFall(curve);
    } else if n > 1 {
      PeakIsMaximum(curve);
      NegativeEndDrawdown(curve);
      if i :| 0 <= i < n - 1 && curve[i] != curve[0] {
        var low := if curve[i] < Peak(curve) then i else 0;
        assert curve[low] < Peak(curve);
        SmallerStartSmallerFall(curve[low], Peak(curve), last);
        assert IsFall(curve, low, n - 1) && FallBetween(curve, low, n - 1) > MaxDrawdown(curve);
      } else {
        forall i, j | IsFall(curve, i, j)
          ensures FallBetween(curve, i, j) <= MaxDrawdown(curve)
        {
          FallsFromThePeak(curve, i, j);
        }
      }
    }
  }

  /** The loop that computes the drawdown in one pass. */
  method ComputeMaxDrawdown(curve: seq<real>) returns (d: real)
    ensures d == MaxDrawdown(curve)
  {
    d := 0.0;
    if |curve| == 0 {
      return;
    }
    var peak := curve[0];
    for k := 0 to |curve|
      invariant peak == if k == 0 then curve[0] else Peak(curve[..k])
      invariant d == MaxDrawdown(curve[..k])
    {
      assert curve[..k + 1][..k] == curve[..k];
      peak := Max(peak, curve[k]);
      if peak > 0.0 {
        d := Max(d, Drawdown(peak, curve[k]));
      }
    }
    assert curve[..|curve|] == curve;
  }

  /** A return takes one point to the next. */
  predicate Reaches(from: real, change: real, to: real) {
    from * (1.0 + change) == to
  }

  lemma ReturnReaches(from: real, to: real)
    requires from > 0.0
    ensures Reaches(from, (to - from) / from, to)
  {
    var change := (to - from) / from;
    assert change * from == to - from;
  }

  /** Period returns; raises on a non-positive equity point that a later point is compared with. */
  method CheckedReturns(curve: seq<real>) returns (r: Result<seq<real>, Error>)
    ensures r.Ok? <==> Accepted(curve)
    ensures r.Err? ==> r.error == ValueError
    ensures r.Ok? && |curve| > 0 ==> |r.value| == |curve| - 1
    ensures r.Ok? ==> forall i ::
              0 <= i < |r.value| && i + 1 < |curve| ==> Reaches(curve[i], r.value[i], curve[i + 1])
  {
    hide Reaches;
    var changes: seq<real> := [];
    var k := 1;
    while k < |curve|
      invariant |curve| > 0 ==> 1 <= k <= |curve| && |changes| == k - 1
      invariant |curve| == 0 ==> changes == []
      invariant forall i :: 0 <= i < k - 1 && i < |curve| ==> curve[i] > 0.0
      invariant forall i :: 0 <= i < |changes| && i + 1 < |curve| ==> Reaches(curve[i], changes[i], curve[i + 1])
    {
      var previous, current := curve[k - 1], curve[k];
      if previous <= 0.0 {
        return Err(ValueError);
      }
      ReturnReaches(previous, current);
      changes := changes + [(current - previous) / previous];
      k := k + 1;
    }
    return Ok(changes);
  }
}
