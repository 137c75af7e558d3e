/**
 * Windowed primitives shared by the indicators: sma, wma, ema, rma (Wilder)
 * and a rolling population standard deviation.  Each returns an array as
 * long as its input; a slot without enough history holds NaN.
 *
 * Every primitive is a method that fills a fresh array in one pass with
 * running accumulators, exactly as the source does, and is proved equal to a
 * pointwise specification (`...At`) stated without those accumulators.
 */
module Primitives {
  import opened Wrappers
  import opened Numeric

  /** First index of the trailing window of `length` samples that ends just before i. */
  function WindowStart(i: nat, length: nat): nat
  {
    if i >= length then i - length else 0
  }

  /** Moving the trailing window one step: add the new sample, drop the one that left. */
  lemma SlideWindow(s: seq<real>, i: nat, length: nat)
    requires i < |s|
    ensures Sum(s[WindowStart(i + 1, length)..i + 1])
            == Sum(s[WindowStart(i, length)..i]) + s[i] - (if i >= length then s[i - length] else 0.0)
  {
    SumSnoc(s, WindowStart(i, length), i);
    if i >= length {
      SumDropFirst(s, i - length, i + 1);
    }
  }

  /**
   * The trailing-window sum after i samples, accumulated the way the loops
   * accumulate it: add each new sample and drop the one that left the window.
   */
  function RunningSum(s: seq<real>, length: nat, i: nat): real
    requires i <= |s|
  {
    if i == 0 then 0.0
    else RunningSum(s, length, i - 1) + s[i - 1] - (if i - 1 >= length then s[i - 1 - length] else 0.0)
  }

  /** The accumulated sum is the sum of the trailing window. */
  lemma {:induction false} RunningSumIsWindowSum(s: seq<real>, length: nat, i: nat)
    requires i <= |s|
    ensures RunningSum(s, length, i) == Sum(s[WindowStart(i, length)..i])
  {
    if i > 0 {
      RunningSumIsWindowSum(s, length, i - 1);
      SlideWindow(s, i - 1, length);
    }
  }

  // ---------------------------------------------------------------- sma

  /** sma at i: the mean of the `length` samples ending at i, once there are that many. */
  function SmaAt(src: seq<real>, length: nat, i: nat): Num
    requires length >= 1 && i < |src|
  {
    if i + 1 < length then None
    else Some(Sum(src[i + 1 - length..i + 1]) / length as real)
  }

  function SmaSpec(src: seq<real>, length: nat): seq<Num>
    requires length >= 1
  {
    seq(|src|, i requires 0 <= i < |src| => SmaAt(src, length, i))
  }

  /** `sma`: one running sum; the sample leaving the window is subtracted. */
  method Sma(src: seq<real>, length: nat) returns (out: seq<Num>)
    requires length >= 1
    ensures out == SmaSpec(src, length)
  {
    var n := |src|;
    var a := new Num[n];
    var sum := 0.0;
    for i := 0 to n
      invariant sum == Sum(src[WindowStart(i, length)..i])
      invariant forall j :: 0 <= j < i ==> a[j] == SmaAt(src, length, j)
    {
      SlideWindow(src, i, length);
      sum := sum + src[i];
      if i >= length {
        sum := sum - src[i - length];
      }
      a[i] := if i >= length - 1 then Some(sum / length as real) else NaN;
    }
    out := a[..];
  }

  /** The sma of a constant series is that constant wherever it is valid. */
  lemma SmaOfConstant(src: seq<real>, length: nat, c: real, i: nat)
    requires length >= 1 && i < |src| && i + 1 >= length
    requires forall k :: 0 <= k < |src| ==> src[k] == c
    ensures SmaAt(src, length, i) == Some(c)
  {
    var w := src[i + 1 - length..i + 1];
    assert |w| == length;
    SumConstant(w, c);
    assert Sum(w) == length as real * c;
    MulDivCancel(c, length as real);
    assert Sum(w) / length as real == c;
  }

  /** The sma lies between the smallest and largest sample of its window. */
  lemma SmaWithinWindow(src: seq<real>, length: nat, i: nat, lo: real, hi: real)
    requires length >= 1 && i < |src| && i + 1 >= length
    requires forall k :: i + 1 - length <= k <= i ==> lo <= src[k] <= hi
    ensures SmaAt(src, length, i).Some?
    ensures lo <= SmaAt(src, length, i).value <= hi
  {
    var w := src[i + 1 - length..i + 1];
    assert |w| == length;
    SumBounds(w, lo, hi);
    MeanBetween(Sum(w), length as real, lo, hi);
  }

  // ---------------------------------------------------------------- wma

  /** Sum of w[j] * (j + 1) for j < k; NaN as soon as one term is NaN. */
  function WeightedSum(w: seq<Num>, k: nat): Num
    requires k <= |w|
  {
    if k == 0 then Some(0.0)
    else NumAdd(WeightedSum(w, k - 1), NumScale(w[k - 1], k as real))
  }

  /** The wma divisor length * (length + 1) / 2. */
  function WmaDenom(length: nat): real
  {
    (length * (length + 1)) as real / 2.0
  }

  /** wma at i: weights 1..length, oldest to newest, over the window ending at i. */
  function WmaAt(src: seq<Num>, length: nat, i: nat): Num
    requires length >= 1 && i < |src|
  {
    if i + 1 < length then None
    else NumDiv(WeightedSum(src[i + 1 - length..i + 1], length), WmaDenom(length))
  }

  function WmaSpec(src: seq<Num>, length: nat): seq<Num>
    requires length >= 1
  {
    seq(|src|, i requires 0 <= i < |src| => WmaAt(src, length, i))
  }

  /** `wma`: a push/shift window of the last `length` samples, summed with weights each step. */
  method Wma(src: seq<Num>, length: nat) returns (out: seq<Num>)
    requires length >= 1
    ensures out == WmaSpec(src, length)
  {
    var n := |src|;
    var a := new Num[n];
    var denom := WmaDenom(length);
    var window: seq<Num> := [];
    for i := 0 to n
      invariant window == src[WindowStart(i, length)..i]
      invariant forall j :: 0 <= j < i ==> a[j] == WmaAt(src, length, j)
    {
      window := window + [src[i]];
      if |window| > length {
        window := window[1..];
      }
      if |window| == length {
        var acc: Num := Some(0.0);
        for k := 0 to length
          invariant acc == WeightedSum(window, k)
        {
          acc := NumAdd(acc, NumScale(window[k], (k + 1) as real));
        }
        a[i] := NumDiv(acc, denom);
      } else {
        a[i] := NaN;
      }
    }
    out := a[..];
  }

  /** A weighted sum is a number exactly when every term is. */
  lemma {:induction false} WeightedSumValid(w: seq<Num>, k: nat)
    requires k <= |w|
    ensures WeightedSum(w, k).Some? <==> forall j :: 0 <= j < k ==> w[j].Some?
  {
    if k > 0 {
      WeightedSumValid(w, k - 1);
    }
  }

  /** wma is valid at i exactly when its window is full and holds no NaN. */
  lemma WmaValidIff(src: seq<Num>, length: nat, i: nat)
    requires length >= 1 && i < |src|
    ensures WmaAt(src, length, i).Some? <==>
              i + 1 >= length && forall j :: i + 1 - length <= j <= i ==> src[j].Some?
  {
    if i + 1 >= length {
      var w := src[i + 1 - length..i + 1];
      WeightedSumValid(w, length);
      assert forall j :: i + 1 - length <= j <= i ==> src[j] == w[j - (i + 1 - length)];
    }
  }

  /** With every slot equal to c, the weighted sum is c times the sum of the weights. */
  lemma {:induction false} WeightedSumOfConstant(w: seq<Num>, k: nat, c: real)
    requires k <= |w|
    requires forall j :: 0 <= j < |w| ==> w[j] == Some(c)
    ensures WeightedSum(w, k).Some?
    ensures WeightedSum(w, k).value == c * WmaDenom(k)
  {
    if k > 0 {
      WeightedSumOfConstant(w, k - 1, c);
      assert w[k - 1] == Some(c);
    }
  }

  /** The wma of a window holding one value is that value. */
  lemma WmaOfConstant(src: seq<Num>, length: nat, c: real, i: nat)
    requires length >= 1 && i < |src| && i + 1 >= length
    requires forall k :: 0 <= k < |src| ==> src[k] == Some(c)
    ensures WmaAt(src, length, i).Some?
    ensures WmaAt(src, length, i).value == c
  {
    var w := src[i + 1 - length..i + 1];
    assert forall j :: 0 <= j < |w| ==> w[j] == Some(c);
    WeightedSumOfConstant(w, length, c);
    MulDivCancel(c, WmaDenom(length));
    assert WmaDenom(length) * c == c * WmaDenom(length);
  }

  // ---------------------------------------------------------------- ema

  /** The ema recurrence, seeded by the first sample, smoothing factor 2 / (length + 1). */
  function EmaValue(src: seq<real>, length: nat, i: nat): real
    requires i < |src|
  {
    if i == 0 then src[0]
    else
      var alpha := 2.0 / (length + 1) as real;
      alpha * src[i] + (1.0 - alpha) * EmaValue(src, length, i - 1)
  }

  /** ema at i: hidden (NaN) before index length - 1 although the recurrence runs from 0. */
  function EmaAt(src: seq<real>, length: nat, i: nat): Num
    requires i < |src|
  {
    if i + 1 < length then None else Some(EmaValue(src, length, i))
  }

  function EmaSpec(src: seq<real>, length: nat): seq<Num>
  {
    seq(|src|, i requires 0 <= i < |src| => EmaAt(src, length, i))
  }

  /** `ema`: a single running value `prev`. */
  method Ema(src: seq<real>, length: nat) returns (out: seq<Num>)
    ensures out == EmaSpec(src, length)
  {
    var n := |src|;
    var a := new Num[n];
    var alpha := 2.0 / (length + 1) as real;
    var prev := 0.0;  // NaN in the source until index 0 sets it; never read before
    for i := 0 to n
      invariant i > 0 ==> prev == EmaValue(src, length, i - 1)
      invariant forall j :: 0 <= j < i ==> a[j] == EmaAt(src, length, j)
    {
      var x := src[i];
      if i == 0 {
        prev := x;
      } else {
        prev := alpha * x + (1.0 - alpha) * prev;
      }
      a[i] := if i >= length - 1 then Some(prev) else NaN;
    }
    out := a[..];
  }

  /** With length >= 1 every ema value lies within the range of the samples so far. */
  lemma {:induction false} EmaWithinRange(src: seq<real>, length: nat, i: nat, lo: real, hi: real)
    requires length >= 1 && i < |src|
    requires forall k :: 0 <= k <= i ==> lo <= src[k] <= hi
    ensures lo <= EmaValue(src, length, i) <= hi
  {
    if i > 0 {
      EmaWithinRange(src, length, i - 1, lo, hi);
      var alpha := 2.0 / (length + 1) as real;
      assert alpha <= 1.0;
      ConvexBetween(alpha, src[i], EmaValue(src, length, i - 1), lo, hi);
    }
  }

  // ---------------------------------------------------------------- rma

  /** Wilder's recurrence: the mean of the first `length` samples, then alpha = 1 / length. */
  function RmaValue(src: seq<real>, length: nat, i: nat): real
    requires length >= 1 && length - 1 <= i < |src|
    decreases i
  {
    if i == length - 1 then Sum(src[..length]) / length as real
    else
      var alpha := 1.0 / length as real;
      alpha * src[i] + (1.0 - alpha) * RmaValue(src, length, i - 1)
  }

  function RmaAt(src: seq<real>, length: nat, i: nat): Num
    requires length >= 1 && i < |src|
  {
    if i + 1 < length then None else Some(RmaValue(src, length, i))
  }

  function RmaSpec(src: seq<real>, length: nat): seq<Num>
    requires length >= 1
  {
    seq(|src|, i requires 0 <= i < |src| => RmaAt(src, length, i))
  }

  /** `rma`: a running sum for the seed, then a running value `prev`. */
  method Rma(src: seq<real>, length: nat) returns (out: seq<Num>)
    requires length >= 1
    ensures out == RmaSpec(src, length)
  {
    var n := |src|;
    var a := new Num[n];
    var alpha := 1.0 / length as real;
    var prev := 0.0;  // NaN in the source until index length - 1; never read before
    var sum := 0.0;
    for i := 0 to n
      invariant i <= length ==> sum == Sum(src[..i])
      invariant i >= length ==> sum == Sum(src[..length])
      invariant i >= length ==> prev == RmaValue(src, length, i - 1)
      invariant forall j :: 0 <= j < i ==> a[j] == RmaAt(src, length, j)
    {
      var x := src[i];
      if i < length {
        assert src[..i + 1][..i] == src[..i];
        sum := sum + x;
      }
      if i == length - 1 {
        prev := sum / length as real;
        assert prev == RmaValue(src, length, i);
        a[i] := Some(prev);
      } else if i >= length {
        prev := alpha * x + (1.0 - alpha) * prev;
        assert prev == RmaValue(src, length, i);
        a[i] := Some(prev);
      } else {
        a[i] := NaN;
      }
      assert a[i] == RmaAt(src, length, i);
    }
    out := a[..];
  }

  /** Each rma step moves the previous value 1/length of the way towards the sample. */
  lemma RmaStep(src: seq<real>, length: nat, i: nat)
    requires length >= 1 && length <= i < |src|
    ensures RmaValue(src, length, i)
            == RmaValue(src, length, i - 1) + (src[i] - RmaValue(src, length, i - 1)) / length as real
  {
    var L := length as real;
    var p := RmaValue(src, length, i - 1);
    assert (1.0 / L) * src[i] + (1.0 - 1.0 / L) * p == p + (src[i] - p) / L;
  }

  /** If every sample so far lies in [lo, hi], so does the rma. */
  lemma {:induction false} RmaWithinRange(src: seq<real>, length: nat, i: nat, lo: real, hi: real)
    requires length >= 1 && length - 1 <= i < |src|
    requires forall k :: 0 <= k <= i ==> lo <= src[k] <= hi
    ensures lo <= RmaValue(src, length, i) <= hi
    decreases i
  {
    var L := length as real;
    if i == length - 1 {
      SumBounds(src[..length], lo, hi);
      MeanBetween(Sum(src[..length]), L, lo, hi);
    } else {
      var p := RmaValue(src, length, i - 1);
      assert lo <= p <= hi by {
        RmaWithinRange(src, length, i - 1, lo, hi);
      }
      RatioBounds(1.0, L);
      ConvexBetween(1.0 / L, src[i], p, lo, hi);
    }
  }

  /** If no sample so far is below lo, neither is the rma. */
  lemma RmaAtLeast(src: seq<real>, length: nat, i: nat, lo: real)
    requires length >= 1 && length - 1 <= i < |src|
    requires forall k :: 0 <= k <= i ==> lo <= src[k]
    ensures lo <= RmaValue(src, length, i)
  {
    var hi := UpperBound(src[..i + 1]);
    assert forall k :: 0 <= k <= i ==> src[k] == src[..i + 1][k];
    RmaWithinRange(src, length, i, lo, hi);
  }

  // ---------------------------------------------------------------- stddev

  /** Population variance from a window's sum and sum of squares, clamped at 0 as the source does. */
  function VarianceOfSums(sum: real, sumSq: real, length: nat): (r: real)
    requires length >= 1
    ensures r >= 0.0
  {
    var mean := sum / length as real;
    Max(0.0, sumSq / length as real - mean * mean)
  }

  function Variance(w: seq<real>, length: nat): (r: real)
    requires length >= 1
    ensures r >= 0.0
  {
    VarianceOfSums(Sum(w), Sum(Squares(w)), length)
  }

  function StddevAt(src: seq<real>, length: nat, i: nat): Num
    requires length >= 1 && i < |src|
  {
    if i + 1 < length then None
    else Some(Sqrt(Variance(src[i + 1 - length..i + 1], length)))
  }

  function StddevSpec(src: seq<real>, length: nat): seq<Num>
    requires length >= 1
  {
    seq(|src|, i requires 0 <= i < |src| => StddevAt(src, length, i))
  }

  /** Once the window is full, the value written from the running sums is the window's stddev. */
  lemma StddevFromSums(src: seq<real>, length: nat, i: nat)
    requires length >= 1 && length - 1 <= i < |src|
    ensures StddevAt(src, length, i)
            == Some(Sqrt(VarianceOfSums(RunningSum(src, length, i + 1), RunningSum(Squares(src), length, i + 1), length)))
  {
    RunningSumIsWindowSum(src, length, i + 1);
    RunningSumIsWindowSum(Squares(src), length, i + 1);
    assert WindowStart(i + 1, length) == i + 1 - length;
    SquaresSlice(src, i + 1 - length, i + 1);
  }

  /** `stddev`: running sum and sum of squares over the trailing window. */
  method Stddev(src: seq<real>, length: nat) returns (out: seq<Num>)
    requires length >= 1
    ensures out == StddevSpec(src, length)
  {
    var n := |src|;
    var a := new Num[n];
    var sum := 0.0;
    var sumSq := 0.0;
    ghost var sq := Squares(src);
    for i := 0 to n
      invariant sum == RunningSum(src, length, i)
      invariant sumSq == RunningSum(sq, length, i)
      invariant forall j :: 0 <= j < i ==> a[j] == StddevAt(src, length, j)
    {
      var x := src[i];
      assert sq[i] == x * x;
      sum := sum + x;
      sumSq := sumSq + x * x;
      if i >= length {
        var xPrev := src[i - length];
        assert sq[i - length] == xPrev * xPrev;
        sum := sum - xPrev;
        sumSq := sumSq - xPrev * xPrev;
      }
      assert sum == RunningSum(src, length, i + 1);
      assert sumSq == RunningSum(sq, length, i + 1);
      if i >= length - 1 {
        StddevFromSums(src, length, i);
        a[i] := Some(Sqrt(VarianceOfSums(sum, sumSq, length)));
      } else {
        a[i] := NaN;
      }
    }
    out := a[..];
  }

  /** A flat window has standard deviation exactly 0. */
  lemma StddevOfFlatWindow(src: seq<real>, length: nat, i: nat, c: real)
    requires length >= 1 && i < |src| && i + 1 >= length
    requires forall k :: i + 1 - length <= k <= i ==> src[k] == c
    ensures StddevAt(src, length, i) == Some(0.0)
  {
    var w := src[i + 1 - length..i + 1];
    assert forall k :: 0 <= k < |w| ==> w[k] == c;
    VarianceOfFlatWindow(w, length, c);
  }

  /** The population variance of `length` copies of one value is 0. */
  lemma VarianceOfFlatWindow(w: seq<real>, length: nat, c: real)
    requires length >= 1 && |w| == length
    requires forall k :: 0 <= k < |w| ==> w[k] == c
    ensures Variance(w, length) == 0.0
  {
    var sq := Squares(w);
    assert forall k :: 0 <= k < |sq| ==> sq[k] == c * c;
    SumConstant(w, c);
    SumConstant(sq, c * c);
    VarianceOfConstantSums(length, c);
  }

  /** Sums of `length` copies of c and of c*c give variance 0. */
  lemma VarianceOfConstantSums(length: nat, c: real)
    requires length >= 1
    ensures VarianceOfSums(length as real * c, length as real * (c * c), length) == 0.0
  {
    var L := length as real;
    MulDivCancel(c, L);
    MulDivCancel(c * c, L);
  }


}
