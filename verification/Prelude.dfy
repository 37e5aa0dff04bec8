/** Small shared vocabulary: results, real arithmetic helpers and sums. */
module Prelude {

  datatype Option<+T> = None | Some(value: T)

  /** A Python call that either returned or raised. */
  datatype Result<+T, +E> = Ok(value: T) | Err(error: E)

  /** The exceptions the modelled code raises. */
  datatype Error = ValueError | KeyError | IndexError | ZeroDivision | StopIteration | ConnectionLost

  function Max(a: real, b: real): real { if a >= b then a else b }

  function Min(a: real, b: real): real { if a <= b then a else b }

  function Abs(a: real): real { if a >= 0.0 then a else -a }

  function MinInt(a: int, b: int): int { if a <= b then a else b }

  function MaxInt(a: int, b: int): int { if a >= b then a else b }

  /** Truncation toward zero, as the source rounds share counts. */
  function Truncate(x: real): int {
    if x >= 0.0 then x.Floor else -((-x).Floor)
  }

  function Sum(s: seq<real>): real {
    if |s| == 0 then 0.0 else Sum(s[..|s| - 1]) + s[|s| - 1]
  }

  lemma SumSnoc(s: seq<real>, x: real)
    ensures Sum(s + [x]) == Sum(s) + x
  {
    assert (s + [x])[..|s|] == s;
  }

  lemma {:induction false} SumConcat(a: seq<real>, b: seq<real>)
    ensures Sum(a + b) == Sum(a) + Sum(b)
  {
    if |b| == 0 {
      assert a + b == a;
    } else {
      SumConcat(a, b[..|b| - 1]);
      assert (a + b)[..|a + b| - 1] == a + b[..|b| - 1];
    }
  }

  /** The sum of a window that slides one step to the right. */
  lemma SumSlide(s: seq<real>, x: real)
    requires |s| > 0
    ensures Sum((s + [x])[1..]) == Sum(s) + x - s[0]
  {
    assert (s + [x])[1..] == s[1..] + [x];
    SumSnoc(s[1..], x);
    assert [s[0]] + s[1..] == s;
    SumConcat([s[0]], s[1..]);
    assert Sum([s[0]]) == s[0] by { assert [s[0]][..0] == []; }
  }

  function LastOf<T>(s: seq<T>): T
    requires |s| > 0
  {
    s[|s| - 1]
  }

  /** The last n elements, or the whole sequence when it is shorter. */
  function LastN<T>(s: seq<T>, n: nat): seq<T> {
    if |s| <= n then s else s[|s| - n..]
  }

  lemma PositiveProduct(a: real, b: real)
    requires a > 0.0 && b > 0.0
    ensures a * b > 0.0
  {}

  lemma NonNegativeProduct(a: real, b: real)
    requires a >= 0.0 && b >= 0.0
    ensures a * b >= 0.0
  {}

  lemma Quotient(a: real, b: real, q: real)
    requires b != 0.0 && a == q * b
    ensures a / b == q
  {}

  /** Comparing a quotient with a bound is comparing without dividing. */
  lemma QuotientBound(a: real, b: real, q: real)
    requires b > 0.0
    ensures a / b >= q <==> a >= q * b
    ensures a / b <= q <==> a <= q * b
  {
    var x := a / b;
    assert x * b == a;
    if x >= q { assert x * b >= q * b; } else { assert x * b < q * b; }
    if x <= q { assert x * b <= q * b; } else { assert x * b > q * b; }
  }

  /** The relative fall from b to a. */
  lemma RelativeFall(b: real, a: real)
    requires b != 0.0
    ensures (b - a) / b == 1.0 - a / b
  {
    var x := a / b;
    assert x * b == a;
    assert (1.0 - x) * b == b - a;
    Quotient(b - a, b, 1.0 - x);
  }
}
