/**
 * KAMA, Kaufman's adaptive moving average.  From index erLen on, the
 * efficiency ratio ER = |net change| / path length over the last erLen steps
 * picks a smoothing constant between the fast and the slow one, and KAMA
 * moves that fraction of the way towards the close.  It is seeded with
 * `sma(close, erLen)` at index erLen.
 */
module Kama {
  import opened Wrappers
  import opened Numeric
  import opened Primitives

  /** `2 / (n + 1)`, the smoothing constant of an n-period ema. */
  function SmoothingConstant(n: nat): (r: real)
    ensures 0.0 < r <= 2.0
    ensures n >= 1 ==> r <= 1.0
  {
    2.0 / (n + 1) as real
  }

  /** Sum of |c[k] - c[k - 1]| for lo < k <= hi: the path the closes travel. */
  function PathLength(c: seq<real>, lo: nat, hi: nat): (r: real)
    requires lo <= hi < |c|
    ensures r >= 0.0
    decreases hi - lo
  {
    if hi == lo then 0.0 else PathLength(c, lo, hi - 1) + Abs(c[hi] - c[hi - 1])
  }

  /** `|net change| / path length`, taken as 0 when the path length is 0. */
  function EfficiencyRatio(change: real, volatility: real): real
  {
    if volatility == 0.0 then 0.0 else change / volatility
  }

  /** The efficiency ratio at i (erLen <= i) over the last erLen steps. */
  function Er(c: seq<real>, erLen: nat, i: nat): real
    requires erLen <= i < |c|
  {
    EfficiencyRatio(Abs(c[i] - c[i - erLen]), PathLength(c, i - erLen, i))
  }

  /** `Math.pow(ER * (fastSC - slowSC) + slowSC, 2)`: the squared blend of the two constants. */
  function Blend(er: real, fastSC: real, slowSC: real): real
  {
    Square(MoveTowards(slowSC, er, fastSC))
  }

  /** The smoothing constant for efficiency ratio er. */
  function Sc(er: real, fast: nat, slow: nat): real
  {
    Blend(er, SmoothingConstant(fast), SmoothingConstant(slow))
  }

  /** KAMA at i >= erLen: the previous value moved by SC towards the close. */
  function KamaValue(c: seq<real>, erLen: nat, fast: nat, slow: nat, i: nat): real
    requires 1 <= erLen <= i < |c|
    decreases i, 1
  {
    MoveTowards(Prev(c, erLen, fast, slow, i), Sc(Er(c, erLen, i), fast, slow), c[i])
  }

  /** The value KAMA moves away from at step i: the sma seed at erLen, else the previous KAMA. */
  function Prev(c: seq<real>, erLen: nat, fast: nat, slow: nat, i: nat): real
    requires 1 <= erLen <= i < |c|
    decreases i, 0
  {
    if i == erLen then SmaAt(c, erLen, i).value else KamaValue(c, erLen, fast, slow, i - 1)
  }

  /** The output slot: NaN before index erLen. */
  function KamaAt(c: seq<real>, erLen: nat, fast: nat, slow: nat, i: nat): Num
    requires 1 <= erLen && i < |c|
  {
    if i < erLen then NaN else Some(KamaValue(c, erLen, fast, slow, i))
  }

  function KamaSpec(c: seq<real>, erLen: nat, fast: nat, slow: nat): seq<Num>
    requires erLen >= 1
  {
    seq(|c|, i requires 0 <= i < |c| => KamaAt(c, erLen, fast, slow, i))
  }

  /** The kama compute function: the seed array, then one pass carrying `kama`. */
  method ComputeKama(close: seq<real>, erLen: nat, fast: nat, slow: nat) returns (kamaArr: seq<Num>, warmup: int)
    requires erLen >= 2 && fast >= 2 && slow >= 2
    ensures kamaArr == KamaSpec(close, erLen, fast, slow)
    ensures warmup == erLen + slow
  {
    var n := |close|;
    var out := new Num[n];
    var fastSC := SmoothingConstant(fast);
    var slowSC := SmoothingConstant(slow);
    var seedArr := Sma(close, erLen);
    var kama: Num := NaN;
    for i := 0 to n
      invariant i <= erLen ==> kama.None?
      invariant i > erLen ==> kama == Some(KamaValue(close, erLen, fast, slow, i - 1))
      invariant forall j :: 0 <= j < i ==> out[j] == KamaAt(close, erLen, fast, slow, j)
    {
      if i < erLen {
        out[i] := NaN;
      } else {
        var change := Abs(close[i] - close[i - erLen]);
        var volatility := 0.0;
        for k := i - erLen + 1 to i + 1
          invariant volatility == PathLength(close, i - erLen, k - 1)
        {
          volatility := volatility + Abs(close[k] - close[k - 1]);
        }
        var sc := Blend(EfficiencyRatio(change, volatility), fastSC, slowSC);
        if kama.None? {
          kama := seedArr[i];
        }
        kama := Some(MoveTowards(kama.value, sc, close[i]));
        out[i] := kama;
      }
    }
    kamaArr := out[..];
    warmup := erLen + slow;
  }

  /** The net change over a stretch is at most the path travelled (triangle inequality). */
  lemma {:induction false} ChangeAtMostPath(c: seq<real>, lo: nat, hi: nat)
    requires lo <= hi < |c|
    ensures Abs(c[hi] - c[lo]) <= PathLength(c, lo, hi)
    decreases hi - lo
  {
    if hi > lo {
      ChangeAtMostPath(c, lo, hi - 1);
    }
  }

  /** ER lies in [0, 1]. */
  lemma ErBounds(c: seq<real>, erLen: nat, i: nat)
    requires erLen <= i < |c|
    ensures 0.0 <= Er(c, erLen, i) <= 1.0
  {
    var volatility := PathLength(c, i - erLen, i);
    ChangeAtMostPath(c, i - erLen, i);
    if volatility != 0.0 {
      RatioBounds(Abs(c[i] - c[i - erLen]), volatility);
    }
  }

  /** A window where the closes do not move has path length 0. */
  lemma {:induction false} PathOfFlat(c: seq<real>, lo: nat, hi: nat)
    requires lo <= hi < |c|
    requires forall k :: lo <= k <= hi ==> c[k] == c[hi]
    ensures PathLength(c, lo, hi) == 0.0
    decreases hi - lo
  {
    if hi > lo {
      PathOfFlat(c, lo, hi - 1);
    }
  }

  /** A flat window has ER 0. */
  lemma ErOfFlat(c: seq<real>, erLen: nat, i: nat)
    requires erLen <= i < |c|
    requires forall k :: i - erLen <= k <= i ==> c[k] == c[i]
    ensures Er(c, erLen, i) == 0.0
  {
    PathOfFlat(c, i - erLen, i);
  }

  /** Over a strictly rising stretch the path length is exactly the net rise. */
  lemma {:induction false} PathOfRising(c: seq<real>, lo: nat, hi: nat)
    requires lo <= hi < |c|
    requires forall k :: lo < k <= hi ==> c[k - 1] < c[k]
    ensures PathLength(c, lo, hi) == c[hi] - c[lo]
    decreases hi - lo
  {
    if hi > lo {
      PathOfRising(c, lo, hi - 1);
    }
  }

  /** Over a strictly falling stretch the path length is exactly the net fall. */
  lemma {:induction false} PathOfFalling(c: seq<real>, lo: nat, hi: nat)
    requires lo <= hi < |c|
    requires forall k :: lo < k <= hi ==> c[k - 1] > c[k]
    ensures PathLength(c, lo, hi) == c[lo] - c[hi]
    decreases hi - lo
  {
    if hi > lo {
      PathOfFalling(c, lo, hi - 1);
    }
  }

  /** Closes moving strictly one way across the whole window give ER 1. */
  lemma ErOfMonotone(c: seq<real>, erLen: nat, i: nat)
    requires 1 <= erLen <= i < |c|
    requires (forall k :: i - erLen < k <= i ==> c[k - 1] < c[k])
          || (forall k :: i - erLen < k <= i ==> c[k - 1] > c[k])
    ensures Er(c, erLen, i) == 1.0
  {
    var lo := i - erLen;
    var volatility := PathLength(c, lo, i);
    if forall k :: lo < k <= i ==> c[k - 1] < c[k] {
      PathOfRising(c, lo, i);
      PathOfRising(c, lo, i - 1);
    } else {
      PathOfFalling(c, lo, i);
      PathOfFalling(c, lo, i - 1);
    }
    assert volatility == Abs(c[i] - c[lo]) > 0.0;
    DivSelf(volatility);
  }

  /** For ER in [0, 1] the smoothing constant lies in (0, 1]. */
  lemma ScBounds(er: real, fast: nat, slow: nat)
    requires 0.0 <= er <= 1.0
    requires fast >= 1 && slow >= 1
    ensures 0.0 < Sc(er, fast, slow) <= 1.0
  {
    var f := SmoothingConstant(fast);
    var s := SmoothingConstant(slow);
    var m := MoveTowards(s, er, f);
    MoveTowardsBetween(s, er, f, Min(s, f), 1.0);
    SquareBounds(m);
    SquarePos(m);
  }

  /** The smoothing constant KAMA uses at step i lies in (0, 1]. */
  lemma StepScBounds(c: seq<real>, erLen: nat, fast: nat, slow: nat, i: nat)
    requires erLen <= i < |c| && fast >= 1 && slow >= 1
    ensures 0.0 < Sc(Er(c, erLen, i), fast, slow) <= 1.0
  {
    ErBounds(c, erLen, i);
    ScBounds(Er(c, erLen, i), fast, slow);
  }

  /** If every close so far lies in [lo, hi], so does KAMA. */
  lemma {:induction false} KamaWithinRange(c: seq<real>, erLen: nat, fast: nat, slow: nat, i: nat, lo: real, hi: real)
    requires 1 <= erLen <= i < |c| && fast >= 1 && slow >= 1
    requires forall k :: 0 <= k <= i ==> lo <= c[k] <= hi
    ensures lo <= KamaValue(c, erLen, fast, slow, i) <= hi
    decreases i
  {
    if i == erLen {
      SmaWithinWindow(c, erLen, i, lo, hi);
    } else {
      KamaWithinRange(c, erLen, fast, slow, i - 1, lo, hi);
    }
    StepScBounds(c, erLen, fast, slow, i);
    MoveTowardsBetween(Prev(c, erLen, fast, slow, i), Sc(Er(c, erLen, i), fast, slow), c[i], lo, hi);
  }

  /** A constant close series keeps KAMA at that constant. */
  lemma KamaOfConstant(c: seq<real>, erLen: nat, fast: nat, slow: nat, i: nat, x: real)
    requires 1 <= erLen <= i < |c| && fast >= 1 && slow >= 1
    requires forall k :: 0 <= k < |c| ==> c[k] == x
    ensures KamaValue(c, erLen, fast, slow, i) == x
  {
    KamaWithinRange(c, erLen, fast, slow, i, x, x);
  }
}
