/**
 * RSI, Wilder's relative strength index: the rma of the gains and of the
 * losses between consecutive closes, combined as `100 - 100 / (1 + RS)`.
 */
module Rsi {
  import opened Wrappers
  import opened Numeric
  import opened Primitives

  /** The rise into bar i (0 at the first bar and when the close fell or held). */
  function Gain(c: seq<real>, i: nat): real
    requires i < |c|
  {
    if i == 0 then 0.0
    else
      var ch := c[i] - c[i - 1];
      if ch > 0.0 then ch else 0.0
  }

  /** The fall into bar i (0 at the first bar and when the close rose or held). */
  function Loss(c: seq<real>, i: nat): real
    requires i < |c|
  {
    if i == 0 then 0.0
    else
      var ch := c[i] - c[i - 1];
      if ch < 0.0 then -ch else 0.0
  }

  function GainSpec(c: seq<real>): (r: seq<real>)
    ensures |r| == |c|
  {
    seq(|c|, i requires 0 <= i < |c| => Gain(c, i))
  }

  function LossSpec(c: seq<real>): (r: seq<real>)
    ensures |r| == |c|
  {
    seq(|c|, i requires 0 <= i < |c| => Loss(c, i))
  }

  /** One rsi slot from the two averages: NaN if either is, 100 when nothing was lost. */
  function RsiOf(u: Num, d: Num): Num
    requires u.Some? && d.Some? ==> u.value >= 0.0 && d.value >= 0.0
  {
    if u.None? || d.None? then NaN
    else if d.value == 0.0 then Some(100.0)
    else
      var rs := u.value / d.value;
      Some(100.0 - 100.0 / (1.0 + rs))
  }

  function RsiAt(c: seq<real>, length: nat, i: nat): Num
    requires length >= 1 && i < |c|
  {
    AveragesNonNegative(c, length, i);
    RsiOf(RmaAt(GainSpec(c), length, i), RmaAt(LossSpec(c), length, i))
  }

  function RsiSpec(c: seq<real>, length: nat): seq<Num>
    requires length >= 1
  {
    seq(|c|, i requires 0 <= i < |c| => RsiAt(c, length, i))
  }

  /** The first loop of the rsi compute function: per-bar gains and losses into two arrays. */
  method GainsAndLosses(close: seq<real>) returns (up: seq<real>, dn: seq<real>)
    ensures up == GainSpec(close)
    ensures dn == LossSpec(close)
  {
    var n := |close|;
    var ups := new real[n];
    var dns := new real[n];
    if n > 0 {
      ups[0] := 0.0;
      dns[0] := 0.0;
      for i := 1 to n
        invariant forall j :: 0 <= j < i ==> ups[j] == Gain(close, j)
        invariant forall j :: 0 <= j < i ==> dns[j] == Loss(close, j)
      {
        var ch := close[i] - close[i - 1];
        ups[i] := if ch > 0.0 then ch else 0.0;
        dns[i] := if ch < 0.0 then -ch else 0.0;
      }
    }
    up := ups[..];
    dn := dns[..];
  }

  /** The rsi compute function: gains and losses, their two rmas, and the combining loop. */
  method ComputeRsi(close: seq<real>, length: nat) returns (rsi: seq<Num>, warmup: int)
    requires length >= 1
    ensures rsi == RsiSpec(close, length)
    ensures warmup == length
  {
    var n := |close|;
    var up, dn := GainsAndLosses(close);
    var avgUp := Rma(up, length);
    var avgDn := Rma(dn, length);
    var out := new Num[n];
    for k := 0 to n
      invariant forall j :: 0 <= j < k ==> out[j] == RsiAt(close, length, j)
    {
      var u := avgUp[k];
      var d := avgDn[k];
      AveragesNonNegative(close, length, k);
      var v: Num;
      if u.None? || d.None? {
        v := NaN;
      } else if d.value == 0.0 {
        v := Some(100.0);
      } else {
        var rs := u.value / d.value;
        DivMonotone(0.0, u.value, d.value);
        v := Some(100.0 - 100.0 / (1.0 + rs));
      }
      out[k] := v;
    }
    rsi := out[..];
    warmup := length;
  }

  /** Gain and loss are never negative, never both positive, and differ by the change in close. */
  lemma GainLossSplit(c: seq<real>, i: nat)
    requires i < |c|
    ensures Gain(c, i) >= 0.0 && Loss(c, i) >= 0.0
    ensures Gain(c, i) == 0.0 || Loss(c, i) == 0.0
    ensures i >= 1 ==> Gain(c, i) - Loss(c, i) == c[i] - c[i - 1]
  {
  }

  /**
   * From non-negative averages the rsi lies in [0, 100]; it is 100 exactly
   * when the average loss is 0, and 0 when nothing was gained but something lost.
   */
  lemma RsiOfBounds(u: real, d: real)
    requires u >= 0.0 && d >= 0.0
    ensures RsiOf(Some(u), Some(d)).Some?
    ensures 0.0 <= RsiOf(Some(u), Some(d)).value <= 100.0
    ensures RsiOf(Some(u), Some(d)).value == 100.0 <==> d == 0.0
    ensures u == 0.0 && d > 0.0 ==> RsiOf(Some(u), Some(d)).value == 0.0
  {
    if d != 0.0 {
      var rs := u / d;
      DivMonotone(0.0, u, d);
      var q := 100.0 / (1.0 + rs);
      DivMonotone(1.0, 1.0 + rs, 100.0);
      assert 100.0 / (1.0 + rs) <= 100.0 / 1.0 by {
        DivShrinks(100.0, 1.0, 1.0 + rs);
      }
      assert q > 0.0;
    }
  }

  /** Dividing a positive value by a larger positive value gives a smaller result. */
  lemma DivShrinks(x: real, a: real, b: real)
    requires x >= 0.0 && 0.0 < a <= b
    ensures x / b <= x / a
  {
    assert x / b == (x / a) * (a / b);
    RatioBounds(a, b);
    ShrinkBy(x / a, a / b);
  }

  /** The rsi slot is filled exactly from index length - 1, one bar before the reported warmup. */
  lemma RsiValidIff(c: seq<real>, length: nat, i: nat)
    requires length >= 1 && i < |c|
    ensures RsiAt(c, length, i).Some? <==> i + 1 >= length
  {
  }

  /** The average gain and the average loss are never negative. */
  lemma AveragesNonNegative(c: seq<real>, length: nat, i: nat)
    requires length >= 1 && i < |c|
    ensures RmaAt(GainSpec(c), length, i).Some? ==> RmaAt(GainSpec(c), length, i).value >= 0.0
    ensures RmaAt(LossSpec(c), length, i).Some? ==> RmaAt(LossSpec(c), length, i).value >= 0.0
  {
    if i + 1 >= length {
      var gains := GainSpec(c);
      var losses := LossSpec(c);
      forall k | 0 <= k <= i
        ensures 0.0 <= gains[k] && 0.0 <= losses[k]
      {
        GainLossSplit(c, k);
      }
      RmaAtLeast(gains, length, i, 0.0);
      RmaAtLeast(losses, length, i, 0.0);
    }
  }

  /** Every filled rsi slot lies in [0, 100], and is 100 exactly when the average loss is 0. */
  lemma RsiBounds(c: seq<real>, length: nat, i: nat)
    requires length >= 1 && length - 1 <= i < |c|
    ensures RsiAt(c, length, i).Some?
    ensures 0.0 <= RsiAt(c, length, i).value <= 100.0
    ensures RsiAt(c, length, i).value == 100.0 <==> RmaValue(LossSpec(c), length, i) == 0.0
  {
    AveragesNonNegative(c, length, i);
    RsiOfBounds(RmaValue(GainSpec(c), length, i), RmaValue(LossSpec(c), length, i));
  }

  /** Closes that never fall leave the average loss at 0, so the rsi is 100. */
  lemma RsiOfNonFalling(c: seq<real>, length: nat, i: nat)
    requires length >= 1 && length - 1 <= i < |c|
    requires forall k :: 1 <= k <= i ==> c[k - 1] <= c[k]
    ensures RsiAt(c, length, i) == Some(100.0)
  {
    var losses := LossSpec(c);
    forall k | 0 <= k <= i
      ensures losses[k] == 0.0
    {
    }
    RmaWithinRange(losses, length, i, 0.0, 0.0);
  }
}
