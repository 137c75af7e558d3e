/**
 * ATR, Wilder's average true range: the rma of the true range, where the
 * true range of a bar is its high-low span widened to reach the previous
 * close.
 */
module Atr {
  import opened Wrappers
  import opened Numeric
  import opened Primitives
  import opened Series

  /** The true range of bar i; the first bar has no previous close and uses its span. */
  function TrueRange(s: Series, i: nat): real
    requires WellFormed(s) && i < |s.time|
  {
    if i == 0 then s.high[i] - s.low[i]
    else Max(s.high[i] - s.low[i], Max(Abs(s.high[i] - s.close[i - 1]), Abs(s.low[i] - s.close[i - 1])))
  }

  function TrSpec(s: Series): (r: seq<real>)
    requires WellFormed(s)
    ensures |r| == |s.time|
  {
    seq(|s.time|, i requires 0 <= i < |s.time| => TrueRange(s, i))
  }

  function AtrSpec(s: Series, length: nat): seq<Num>
    requires WellFormed(s) && length >= 1
  {
    RmaSpec(TrSpec(s), length)
  }

  /** The atr compute function: the true-range loop, then `rma`. */
  method ComputeAtr(s: Series, length: nat) returns (atr: seq<Num>, warmup: int)
    requires WellFormed(s) && length >= 1
    ensures atr == AtrSpec(s, length)
    ensures warmup == length
  {
    var n := |s.close|;
    var tr := new real[n];
    for i := 0 to n
      invariant forall j :: 0 <= j < i ==> tr[j] == TrueRange(s, j)
    {
      if i == 0 {
        tr[i] := s.high[i] - s.low[i];
      } else {
        var a := s.high[i] - s.low[i];
        var b := Abs(s.high[i] - s.close[i - 1]);
        var c := Abs(s.low[i] - s.close[i - 1]);
        tr[i] := Max(a, Max(b, c));
      }
    }
    assert tr[..] == TrSpec(s);
    atr := Rma(tr[..], length);
    warmup := length;
  }

  /**
   * The true range covers the bar's own span and, from the second bar on, the
   * gap to the previous close; it is one of those three distances.
   */
  lemma TrueRangeCovers(s: Series, i: nat)
    requires WellFormed(s) && i < |s.time|
    ensures TrueRange(s, i) >= s.high[i] - s.low[i]
    ensures i >= 1 ==> TrueRange(s, i) >= Abs(s.high[i] - s.close[i - 1])
    ensures i >= 1 ==> TrueRange(s, i) >= Abs(s.low[i] - s.close[i - 1])
    ensures i >= 1 ==> TrueRange(s, i) >= 0.0
    ensures i >= 1 ==> TrueRange(s, i) in {s.high[i] - s.low[i], Abs(s.high[i] - s.close[i - 1]), Abs(s.low[i] - s.close[i - 1])}
  {
  }

  /** The atr slot is filled exactly from index length - 1, one bar before the reported warmup. */
  lemma AtrValidIff(s: Series, length: nat, i: nat)
    requires WellFormed(s) && length >= 1 && i < |s.time|
    ensures |AtrSpec(s, length)| == |s.time|
    ensures AtrSpec(s, length)[i].Some? <==> i + 1 >= length
  {
  }

  /** With every high at or above its low, the atr is never negative. */
  lemma AtrNonNegative(s: Series, length: nat, i: nat)
    requires WellFormed(s) && length >= 1 && length - 1 <= i < |s.time|
    requires forall k :: 0 <= k < |s.time| ==> s.low[k] <= s.high[k]
    ensures RmaValue(TrSpec(s), length, i) >= 0.0
  {
    var tr := TrSpec(s);
    forall k | 0 <= k <= i
      ensures 0.0 <= tr[k]
    {
      TrueRangeCovers(s, k);
    }
    RmaAtLeast(tr, length, i, 0.0);
  }

  /** Bars that never move (high = low = close = x) have atr 0. */
  lemma AtrOfFlat(s: Series, length: nat, i: nat, x: real)
    requires WellFormed(s) && length >= 1 && length - 1 <= i < |s.time|
    requires forall k :: 0 <= k < |s.time| ==> s.high[k] == x && s.low[k] == x && s.close[k] == x
    ensures RmaValue(TrSpec(s), length, i) == 0.0
  {
    var tr := TrSpec(s);
    forall k | 0 <= k <= i
      ensures tr[k] == 0.0
    {
    }
    RmaWithinRange(tr, length, i, 0.0, 0.0);
  }
}
