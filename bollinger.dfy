/**
 * Bollinger Bands: the sma of the close as the middle line, and bands
 * `mult` standard deviations above and below it.
 */
module Bollinger {
  import opened Wrappers
  import opened Numeric
  import opened Primitives

  /** `mid + mult * sd`. */
  function UpperBand(mid: real, mult: real, sd: real): real
  {
    mid + mult * sd
  }

  /** `mid - mult * sd`. */
  function LowerBand(mid: real, mult: real, sd: real): real
  {
    mid - mult * sd
  }

  /** The upper band at i: NaN while either the sma or the stddev is. */
  function UpperAt(close: seq<real>, length: nat, mult: real, i: nat): Num
    requires length >= 1 && i < |close|
  {
    var mid := SmaAt(close, length, i);
    var sd := StddevAt(close, length, i);
    if mid.None? || sd.None? then NaN else Some(UpperBand(mid.value, mult, sd.value))
  }

  function LowerAt(close: seq<real>, length: nat, mult: real, i: nat): Num
    requires length >= 1 && i < |close|
  {
    var mid := SmaAt(close, length, i);
    var sd := StddevAt(close, length, i);
    if mid.None? || sd.None? then NaN else Some(LowerBand(mid.value, mult, sd.value))
  }

  /** The band width at i: upper minus lower, NaN where they are. */
  function WidthAt(close: seq<real>, length: nat, mult: real, i: nat): Num
    requires length >= 1 && i < |close|
  {
    var up := UpperAt(close, length, mult, i);
    var dn := LowerAt(close, length, mult, i);
    if up.None? then NaN else Some(up.value - dn.value)
  }

  /** The four output lines of one Bollinger computation. */
  datatype Bands = Bands(mid: seq<Num>, up: seq<Num>, dn: seq<Num>, width: seq<Num>)

  function BandsSpec(close: seq<real>, length: nat, mult: real): Bands
    requires length >= 1
  {
    var n := |close|;
    Bands(
      SmaSpec(close, length),
      seq(n, i requires 0 <= i < n => UpperAt(close, length, mult, i)),
      seq(n, i requires 0 <= i < n => LowerAt(close, length, mult, i)),
      seq(n, i requires 0 <= i < n => WidthAt(close, length, mult, i)))
  }

  /** The bb compute function: sma, stddev, and one loop filling the three derived lines. */
  method ComputeBb(close: seq<real>, length: nat, mult: real) returns (bands: Bands, warmup: int)
    requires length >= 1
    ensures bands == BandsSpec(close, length, mult)
    ensures warmup == length
  {
    var mid := Sma(close, length);
    var sd := Stddev(close, length);
    var n := |close|;
    var up := new Num[n];
    var dn := new Num[n];
    var width := new Num[n];
    for i := 0 to n
      invariant forall j :: 0 <= j < i ==>
        up[j] == UpperAt(close, length, mult, j) && dn[j] == LowerAt(close, length, mult, j)
        && width[j] == WidthAt(close, length, mult, j)
    {
      if mid[i].None? || sd[i].None? {
        up[i] := NaN;
        dn[i] := NaN;
        width[i] := NaN;
      } else {
        var u := UpperBand(mid[i].value, mult, sd[i].value);
        var d := LowerBand(mid[i].value, mult, sd[i].value);
        up[i] := Some(u);
        dn[i] := Some(d);
        width[i] := Some(u - d);
      }
    }
    bands := Bands(mid, up[..], dn[..], width[..]);
    warmup := length;
  }

  /** All four lines are filled exactly from index length - 1. */
  lemma BandsValidIff(close: seq<real>, length: nat, mult: real, i: nat)
    requires length >= 1 && i < |close|
    ensures SmaAt(close, length, i).Some? <==> i + 1 >= length
    ensures UpperAt(close, length, mult, i).Some? <==> i + 1 >= length
    ensures LowerAt(close, length, mult, i).Some? <==> i + 1 >= length
    ensures WidthAt(close, length, mult, i).Some? <==> i + 1 >= length
  {
  }

  /**
   * Where filled, the bands sit symmetrically around the middle line, `mult`
   * standard deviations away, so the width is `2 * mult * sd`; with mult >= 0
   * they are ordered lower <= middle <= upper and the width is not negative.
   */
  lemma BandsShape(close: seq<real>, length: nat, mult: real, i: nat)
    requires length >= 1 && length - 1 <= i < |close|
    ensures var mid := SmaAt(close, length, i).value;
            var sd := StddevAt(close, length, i).value;
            && UpperAt(close, length, mult, i).value - mid == mid - LowerAt(close, length, mult, i).value
            && WidthAt(close, length, mult, i).value == 2.0 * mult * sd
            && (mult >= 0.0 ==> LowerAt(close, length, mult, i).value <= mid <= UpperAt(close, length, mult, i).value)
            && (mult >= 0.0 ==> WidthAt(close, length, mult, i).value >= 0.0)
  {
    var sd := StddevAt(close, length, i).value;
    if mult >= 0.0 {
      MulNonNeg(mult, sd);
    }
  }

  /** A window of equal closes collapses all three bands onto that close, with width 0. */
  lemma BandsOfFlatWindow(close: seq<real>, length: nat, mult: real, i: nat, c: real)
    requires length >= 1 && length - 1 <= i < |close|
    requires forall k :: i + 1 - length <= k <= i ==> close[k] == c
    ensures SmaAt(close, length, i) == Some(c)
    ensures UpperAt(close, length, mult, i) == Some(c)
    ensures LowerAt(close, length, mult, i) == Some(c)
    ensures WidthAt(close, length, mult, i) == Some(0.0)
  {
    SmaWithinWindow(close, length, i, c, c);
    StddevOfFlatWindow(close, length, i, c);
  }
}
