/**
 * Numbers of the indicator engine.  A JavaScript `number` is an exact `real`
 * here; the NaN that the engine writes where a value is "not yet valid" is an
 * explicit `None`.  Rounding error of IEEE-754 doubles is not modelled.
 */
module Numeric {
  import opened Wrappers

  /** One slot of a Float64Array: `None` is NaN, `Some(x)` a finite number. */
  type Num = Option<real>

  const NaN: Num := None

  function Abs(x: real): (r: real)
    ensures r >= 0.0 && (r == x || r == -x)
  {
    if x < 0.0 then -x else x
  }

  function Max(a: real, b: real): (r: real)
    ensures r >= a && r >= b && (r == a || r == b)
  {
    if a >= b then a else b
  }

  function Min(a: real, b: real): (r: real)
    ensures r <= a && r <= b && (r == a || r == b)
  {
    if a <= b then a else b
  }

  /** NaN-propagating `a + b`. */
  function NumAdd(a: Num, b: Num): (r: Num)
    ensures r.Some? <==> a.Some? && b.Some?
  {
    if a.Some? && b.Some? then Some(a.value + b.value) else None
  }

  /** NaN-propagating `a * k`. */
  function NumScale(a: Num, k: real): (r: Num)
    ensures r.Some? <==> a.Some?
  {
    if a.Some? then Some(a.value * k) else None
  }

  /** `Math.round(x)`: the nearest integer, halves rounded towards +infinity. */
  function Round(x: real): (r: int)
    ensures x - 0.5 < r as real <= x + 0.5
  {
    (x + 0.5).Floor
  }

  lemma RoundBounds(x: real, lo: int, hi: int)
    requires lo as real <= x <= hi as real
    ensures lo <= Round(x) <= hi
  {
  }

  lemma MulNonNeg(a: real, b: real)
    requires a >= 0.0 && b >= 0.0
    ensures a * b >= 0.0
  {
  }

  lemma MulStrictPos(a: real, b: real)
    requires a > 0.0 && b > 0.0
    ensures a * b > 0.0
  {
  }

  lemma MulMonotone(a: real, x: real, y: real)
    requires a >= 0.0 && x <= y
    ensures a * x <= a * y
  {
  }

  lemma DivMonotone(x: real, y: real, d: real)
    requires d > 0.0 && x <= y
    ensures x / d <= y / d
  {
  }

  lemma MulDivCancel(x: real, d: real)
    requires d != 0.0
    ensures (d * x) / d == x
  {
  }

  lemma DivSelf(x: real)
    requires x != 0.0
    ensures x / x == 1.0
  {
  }

  /** A convex combination of two values in [lo, hi] stays in [lo, hi]. */
  lemma ConvexBetween(a: real, x: real, p: real, lo: real, hi: real)
    requires 0.0 <= a <= 1.0
    requires lo <= x <= hi && lo <= p <= hi
    ensures lo <= a * x + (1.0 - a) * p <= hi
  {
    var d := a * (x - p);
    assert a * x + (1.0 - a) * p == p + d;
    if x >= p {
      MulNonNeg(a, x - p);
      MulNonNeg(1.0 - a, x - p);
      assert (x - p) - d == (1.0 - a) * (x - p);
    } else {
      MulNonNeg(a, p - x);
      MulNonNeg(1.0 - a, p - x);
      assert d - (x - p) == (1.0 - a) * (p - x);
    }
  }

  /** A non-negative part of a positive whole is a ratio in [0, 1]. */
  lemma RatioBounds(x: real, y: real)
    requires 0.0 <= x <= y && y > 0.0
    ensures 0.0 <= x / y <= 1.0
  {
    DivMonotone(x, y, y);
    DivMonotone(0.0, x, y);
  }

  /** Scaling a non-negative value by a factor in [0, 1] does not enlarge it. */
  lemma ShrinkBy(a: real, x: real)
    requires a >= 0.0 && 0.0 <= x <= 1.0
    ensures 0.0 <= a * x <= a
  {
    assert a - a * x == a * (1.0 - x);
    MulNonNeg(a, 1.0 - x);
  }

  /** `Math.pow(x, 2)`. */
  function Square(x: real): real
  {
    x * x
  }

  /** Squaring keeps a value of [0, 1] in [0, 1]. */
  lemma SquareBounds(t: real)
    requires 0.0 <= t <= 1.0
    ensures 0.0 <= Square(t) <= 1.0
  {
    ShrinkBy(t, t);
  }

  /** The square of a positive value is positive. */
  lemma SquarePos(t: real)
    requires t > 0.0
    ensures Square(t) > 0.0
  {
    var h := t / 2.0;
    MulStrictPos(t, h);
    assert Square(t) == 2.0 * (t * h);
  }

  /** `p + a * (x - p)`: p moved the fraction a of the way towards x. */
  function MoveTowards(p: real, a: real, x: real): real
  {
    p + a * (x - p)
  }

  /** Moving p a fraction a in [0, 1] towards x is the convex combination a*x + (1-a)*p. */
  lemma MoveTowardsIsConvex(p: real, a: real, x: real)
    ensures MoveTowards(p, a, x) == a * x + (1.0 - a) * p
  {
  }

  /** Moving a fraction in [0, 1] of the way between two points of [lo, hi] stays in [lo, hi]. */
  lemma MoveTowardsBetween(p: real, a: real, x: real, lo: real, hi: real)
    requires 0.0 <= a <= 1.0
    requires lo <= x <= hi && lo <= p <= hi
    ensures lo <= MoveTowards(p, a, x) <= hi
  {
    MoveTowardsIsConvex(p, a, x);
    ConvexBetween(a, x, p, lo, hi);
  }

  /** The mean of n values in [lo, hi] (n > 0) is in [lo, hi]. */
  lemma MeanBetween(total: real, n: real, lo: real, hi: real)
    requires n > 0.0 && n * lo <= total <= n * hi
    ensures lo <= total / n <= hi
  {
    DivMonotone(n * lo, total, n);
    DivMonotone(total, n * hi, n);
    MulDivCancel(lo, n);
    MulDivCancel(hi, n);
  }

  /** A ratio reaches a threshold exactly when the numerator reaches the threshold's multiple of the positive denominator. */
  lemma RatioAtLeast(x: real, n: real, a: real)
    requires n > 0.0
    ensures x / n >= a <==> x >= a * n
  {
    RatioAbove(x, n, a);
    var q := x / n;
    assert q * n == x;
    if q == a {
      assert x == a * n;
    }
  }

  /** A ratio exceeds a threshold exactly when the numerator exceeds the threshold's multiple of the positive denominator. */
  lemma RatioAbove(x: real, n: real, a: real)
    requires n > 0.0
    ensures x / n > a <==> x > a * n
  {
    var q := x / n;
    assert q * n == x;
    if q > a {
      assert n * (q - a) > 0.0;
      assert x - a * n == n * (q - a);
    } else {
      MulMonotone(n, q, a);
    }
  }

  /** NaN-propagating `a / d`. */
  function NumDiv(a: Num, d: real): (r: Num)
    requires d != 0.0
    ensures r.Some? <==> a.Some?
  {
    if a.Some? then Some(a.value / d) else None
  }

  /** A Float64Array of finite numbers, read as slots. */
  function Lift(s: seq<real>): (r: seq<Num>)
    ensures |r| == |s|
    ensures forall k :: 0 <= k < |s| ==> r[k] == Some(s[k])
  {
    seq(|s|, k requires 0 <= k < |s| => Some(s[k]))
  }

  /** Sum of a sequence of reals, accumulated left to right. */
  function Sum(s: seq<real>): real
  {
    if |s| == 0 then 0.0 else Sum(s[..|s| - 1]) + s[|s| - 1]
  }

  lemma {:induction false} SumCons(s: seq<real>)
    requires |s| > 0
    ensures Sum(s) == s[0] + Sum(s[1..])
  {
    if |s| > 1 {
      assert s[1..][..|s[1..]| - 1] == s[..|s| - 1][1..];
      SumCons(s[..|s| - 1]);
    }
  }

  /** Sliding a window's right edge by one adds the new element. */
  lemma SumSnoc(s: seq<real>, lo: nat, hi: nat)
    requires lo <= hi < |s|
    ensures Sum(s[lo..hi + 1]) == Sum(s[lo..hi]) + s[hi]
  {
    assert s[lo..hi + 1][..hi - lo] == s[lo..hi];
  }

  /** Sliding a window's left edge by one removes the oldest element. */
  lemma SumDropFirst(s: seq<real>, lo: nat, hi: nat)
    requires lo < hi <= |s|
    ensures Sum(s[lo..hi]) == s[lo] + Sum(s[lo + 1..hi])
  {
    SumCons(s[lo..hi]);
    assert s[lo..hi][1..] == s[lo + 1..hi];
  }

  lemma {:induction false} SumConstant(s: seq<real>, c: real)
    requires forall k :: 0 <= k < |s| ==> s[k] == c
    ensures Sum(s) == |s| as real * c
  {
    if |s| > 0 {
      SumConstant(s[..|s| - 1], c);
    }
  }

  lemma {:induction false} SumBounds(s: seq<real>, lo: real, hi: real)
    requires forall k :: 0 <= k < |s| ==> lo <= s[k] <= hi
    ensures |s| as real * lo <= Sum(s) <= |s| as real * hi
  {
    if |s| > 0 {
      SumBounds(s[..|s| - 1], lo, hi);
    }
  }

  /** A value no element of s exceeds (0 for the empty sequence). */
  function UpperBound(s: seq<real>): (r: real)
    ensures forall k :: 0 <= k < |s| ==> s[k] <= r
  {
    if |s| == 0 then 0.0 else Max(UpperBound(s[..|s| - 1]), s[|s| - 1])
  }

  /** Squares of the elements, for running sums of squares. */
  function Squares(s: seq<real>): (r: seq<real>)
    ensures |r| == |s|
    ensures forall k :: 0 <= k < |s| ==> r[k] == s[k] * s[k]
  {
    seq(|s|, k requires 0 <= k < |s| => s[k] * s[k])
  }

  lemma SquaresSlice(s: seq<real>, lo: nat, hi: nat)
    requires lo <= hi <= |s|
    ensures Squares(s[lo..hi]) == Squares(s)[lo..hi]
  {
    assert forall k :: 0 <= k < hi - lo ==> Squares(s[lo..hi])[k] == Squares(s)[lo..hi][k];
  }

  /**
   * `Math.floor(Math.sqrt(n))` for a natural n: the integer square root.
   * (A correctly rounded square root of an integer below 2^52 floors to it.)
   */
  function ISqrt(n: nat): (r: nat)
    ensures r * r <= n < (r + 1) * (r + 1)
  {
    if n == 0 then 0
    else
      var r := ISqrt(n - 1);
      if (r + 1) * (r + 1) <= n then r + 1 else r
  }

  /**
   * Stand-in for `Math.sqrt` on a non-negative real: the square root rounded
   * down to a multiple of 2^-20, through the integer square root.  The model
   * relies only on the two facts in its contract; it does not claim to be the
   * IEEE-754 square root.
   */
  function Sqrt(x: real): (r: real)
    requires x >= 0.0
    ensures r >= 0.0
    ensures x == 0.0 ==> r == 0.0
  {
    var scaled := (x * 1099511627776.0).Floor;
    assert scaled >= 0;
    ISqrt(scaled) as real / 1048576.0
  }
}
