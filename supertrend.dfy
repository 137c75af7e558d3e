/**
 * Supertrend over the atr: basic bands `hl2 +- mult * atr`, final bands
 * that only move towards price while price stays inside them, and a trend
 * that flips when a close crosses the previous final band.
 *
 * `StAt` follows the code as written, where the final bands start as NaN at
 * index 0 and a NaN previous band makes the next one NaN; `SeededAt` is the
 * intended recurrence, which starts a final band from the basic band.
 */
module Supertrend {
  import opened Wrappers
  import opened Numeric
  import opened Primitives
  import opened Series
  import opened Atr

  /** `(high + low) / 2` of bar i. */
  function Hl2(s: Series, i: nat): real
    requires WellFormed(s) && i < |s.time|
  {
    (s.high[i] + s.low[i]) / 2.0
  }

  /** `base + mult * x`. */
  function Above(base: real, mult: real, x: real): real
  {
    base + mult * x
  }

  /** `base - mult * x`. */
  function Below(base: real, mult: real, x: real): real
  {
    base - mult * x
  }

  /** The basic upper band at i: NaN while the atr is. */
  function BasicUpper(s: Series, atr: seq<Num>, mult: real, i: nat): Num
    requires WellFormed(s) && |atr| == |s.time| && i < |s.time|
  {
    if atr[i].None? then NaN else Some(Above(Hl2(s, i), mult, atr[i].value))
  }

  /** The basic lower band at i: NaN while the atr is. */
  function BasicLower(s: Series, atr: seq<Num>, mult: real, i: nat): Num
    requires WellFormed(s) && |atr| == |s.time| && i < |s.time|
  {
    if atr[i].None? then NaN else Some(Below(Hl2(s, i), mult, atr[i].value))
  }

  function BasicUpperSpec(s: Series, atr: seq<Num>, mult: real): (r: seq<Num>)
    requires WellFormed(s) && |atr| == |s.time|
    ensures |r| == |s.time|
  {
    seq(|s.time|, i requires 0 <= i < |s.time| => BasicUpper(s, atr, mult, i))
  }

  function BasicLowerSpec(s: Series, atr: seq<Num>, mult: real): (r: seq<Num>)
    requires WellFormed(s) && |atr| == |s.time|
    ensures |r| == |s.time|
  {
    seq(|s.time|, i requires 0 <= i < |s.time| => BasicLower(s, atr, mult, i))
  }

  /** The final upper band update as written: NaN if the basic or the previous final band is. */
  function NextUpper(bu: Num, prevFU: Num, prevClose: real): Num
  {
    if bu.None? || prevFU.None? then NaN
    else if bu.value < prevFU.value || prevClose > prevFU.value then bu
    else prevFU
  }

  /** The final lower band update as written: NaN if the basic or the previous final band is. */
  function NextLower(bl: Num, prevFL: Num, prevClose: real): Num
  {
    if bl.None? || prevFL.None? then NaN
    else if bl.value > prevFL.value || prevClose < prevFL.value then bl
    else prevFL
  }

  /** The trend at a bar: 1 above the previous upper band, -1 below the previous lower band, else unchanged. */
  function NextTrend(c: real, prevFU: Num, prevFL: Num, prevTrend: real): real
  {
    if prevFU.Some? && c > prevFU.value then 1.0
    else if prevFL.Some? && c < prevFL.value then -1.0
    else prevTrend
  }

  /** The state carried from bar to bar: final upper, final lower, trend. */
  datatype StState = StState(upper: Num, lower: Num, trend: real)

  /** One bar of the as-written loop: both final bands updated, then the trend from the previous bands. */
  function StStep(p: StState, bu: Num, bl: Num, prevClose: real, c: real): StState
  {
    StState(NextUpper(bu, p.upper, prevClose), NextLower(bl, p.lower, prevClose), NextTrend(c, p.upper, p.lower, p.trend))
  }

  /** Closes and the two basic bands line up bar for bar. */
  predicate Aligned(close: seq<real>, bu: seq<Num>, bl: seq<Num>)
  {
    |bu| == |close| && |bl| == |close|
  }

  /** The supertrend state at bar i, as written: both final bands start as NaN. */
  function StAt(close: seq<real>, bu: seq<Num>, bl: seq<Num>, i: nat): StState
    requires Aligned(close, bu, bl) && i < |close|
  {
    if i == 0 then StState(NaN, NaN, 0.0)
    else StStep(StAt(close, bu, bl, i - 1), bu[i], bl[i], close[i - 1], close[i])
  }

  /** The three output lines `st_trend`, `st_upper`, `st_lower`. */
  datatype StOutput = StOutput(trend: seq<Num>, upper: seq<Num>, lower: seq<Num>)

  function StSpec(close: seq<real>, bu: seq<Num>, bl: seq<Num>): StOutput
    requires Aligned(close, bu, bl)
  {
    var n := |close|;
    StOutput(
      seq(n, i requires 0 <= i < n => Some(StAt(close, bu, bl, i).trend)),
      seq(n, i requires 0 <= i < n => StAt(close, bu, bl, i).upper),
      seq(n, i requires 0 <= i < n => StAt(close, bu, bl, i).lower))
  }

  /** Supertrend of a series as the engine computes it: basic bands over the atr, then the final loop. */
  function SupertrendSpec(s: Series, atrLen: nat, mult: real): StOutput
    requires WellFormed(s) && atrLen >= 1
  {
    var atr := AtrSpec(s, atrLen);
    StSpec(s.close, BasicUpperSpec(s, atr, mult), BasicLowerSpec(s, atr, mult))
  }

  /** The first loop of the supertrend compute function: the basic bands. */
  method BasicBands(s: Series, atr: seq<Num>, mult: real) returns (upper: seq<Num>, lower: seq<Num>)
    requires WellFormed(s) && |atr| == |s.time|
    ensures upper == BasicUpperSpec(s, atr, mult)
    ensures lower == BasicLowerSpec(s, atr, mult)
  {
    var n := |s.close|;
    var basicUpper := new Num[n];
    var basicLower := new Num[n];
    for i := 0 to n
      invariant forall j :: 0 <= j < i ==>
        basicUpper[j] == BasicUpper(s, atr, mult, j) && basicLower[j] == BasicLower(s, atr, mult, j)
    {
      var hl2 := (s.high[i] + s.low[i]) / 2.0;
      var a := atr[i];
      if a.None? {
        basicUpper[i] := NaN;
        basicLower[i] := NaN;
      } else {
        basicUpper[i] := Some(Above(hl2, mult, a.value));
        basicLower[i] := Some(Below(hl2, mult, a.value));
      }
    }
    upper := basicUpper[..];
    lower := basicLower[..];
  }

  /** The second loop of the supertrend compute function: final bands and trend. */
  method FinalBands(close: seq<real>, basicUpper: seq<Num>, basicLower: seq<Num>) returns (out: StOutput)
    requires Aligned(close, basicUpper, basicLower)
    ensures out == StSpec(close, basicUpper, basicLower)
  {
    var n := |close|;
    var finalUpper := new Num[n];
    var finalLower := new Num[n];
    var trend := new real[n];
    if n > 0 {
      finalUpper[0] := NaN;
      finalLower[0] := NaN;
      trend[0] := 0.0;
      for i := 1 to n
        invariant forall j {:trigger StAt(close, basicUpper, basicLower, j)} :: 0 <= j < i ==>
          StState(finalUpper[j], finalLower[j], trend[j]) == StAt(close, basicUpper, basicLower, j)
      {
        var prev := StState(finalUpper[i - 1], finalLower[i - 1], trend[i - 1]);
        var next := StStep(prev, basicUpper[i], basicLower[i], close[i - 1], close[i]);
        finalUpper[i] := next.upper;
        finalLower[i] := next.lower;
        trend[i] := next.trend;
      }
    }
    assert forall j :: 0 <= j < n ==> Lift(trend[..])[j] == Some(StAt(close, basicUpper, basicLower, j).trend);
    out := StOutput(Lift(trend[..]), finalUpper[..], finalLower[..]);
  }

  /** The supertrend compute function: atr, basic bands, final bands and trend. */
  method ComputeSupertrend(s: Series, atrLen: nat, mult: real) returns (out: StOutput, warmup: int)
    requires WellFormed(s) && atrLen >= 1
    ensures out == SupertrendSpec(s, atrLen, mult)
    ensures warmup == atrLen + 2
  {
    var tmpAtr, _ := ComputeAtr(s, atrLen);
    var basicUpper, basicLower := BasicBands(s, tmpAtr, mult);
    out := FinalBands(s.close, basicUpper, basicLower);
    warmup := atrLen + 2;
  }

  /**
   * As written, the final bands are NaN at every bar and the trend is 0 at
   * every bar: a NaN previous band keeps the next one NaN, so neither
   * crossing test ever fires.
   */
  lemma {:induction false} StNeverValid(close: seq<real>, bu: seq<Num>, bl: seq<Num>, i: nat)
    requires Aligned(close, bu, bl) && i < |close|
    ensures StAt(close, bu, bl, i) == StState(NaN, NaN, 0.0)
  {
    if i > 0 {
      StNeverValid(close, bu, bl, i - 1);
    }
  }

  /** The whole as-written output: trend 0 everywhere, both bands NaN everywhere, whatever the input. */
  lemma SupertrendConstant(s: Series, atrLen: nat, mult: real)
    requires WellFormed(s) && atrLen >= 1
    ensures |SupertrendSpec(s, atrLen, mult).trend| == |s.time|
    ensures forall i :: 0 <= i < |s.time| ==> SupertrendSpec(s, atrLen, mult).trend[i] == Some(0.0)
    ensures forall i :: 0 <= i < |s.time| ==> SupertrendSpec(s, atrLen, mult).upper[i].None?
    ensures forall i :: 0 <= i < |s.time| ==> SupertrendSpec(s, atrLen, mult).lower[i].None?
  {
    var atr := AtrSpec(s, atrLen);
    var bu := BasicUpperSpec(s, atr, mult);
    var bl := BasicLowerSpec(s, atr, mult);
    forall i | 0 <= i < |s.time|
      ensures StAt(s.close, bu, bl, i) == StState(NaN, NaN, 0.0)
    {
      StNeverValid(s.close, bu, bl, i);
    }
  }

  // ------------------------------------------------------------ intended recurrence

  /** The intended upper update: a missing previous band is replaced by the basic band. */
  function SeededUpper(bu: Num, prevFU: Num, prevClose: real): (r: Num)
    ensures r.Some? <==> bu.Some?
  {
    if prevFU.None? then bu else NextUpper(bu, prevFU, prevClose)
  }

  /** The intended lower update: a missing previous band is replaced by the basic band. */
  function SeededLower(bl: Num, prevFL: Num, prevClose: real): (r: Num)
    ensures r.Some? <==> bl.Some?
  {
    if prevFL.None? then bl else NextLower(bl, prevFL, prevClose)
  }

  /** The intended supertrend state at bar i: the final bands start from the basic bands. */
  function SeededAt(close: seq<real>, bu: seq<Num>, bl: seq<Num>, i: nat): StState
    requires Aligned(close, bu, bl) && i < |close|
  {
    if i == 0 then StState(bu[0], bl[0], 0.0)
    else
      var p := SeededAt(close, bu, bl, i - 1);
      StState(
        SeededUpper(bu[i], p.upper, close[i - 1]),
        SeededLower(bl[i], p.lower, close[i - 1]),
        NextTrend(close[i], p.upper, p.lower, p.trend))
  }

  /** With seeding, a final band is present exactly where its basic band is. */
  lemma SeededValidIff(close: seq<real>, bu: seq<Num>, bl: seq<Num>, i: nat)
    requires Aligned(close, bu, bl) && i < |close|
    ensures SeededAt(close, bu, bl, i).upper.Some? <==> bu[i].Some?
    ensures SeededAt(close, bu, bl, i).lower.Some? <==> bl[i].Some?
  {
  }

  /** Over the engine's atr, the seeded bands are present exactly from index atrLen - 1. */
  lemma SeededValidFromAtrWarmup(s: Series, atrLen: nat, mult: real, i: nat)
    requires WellFormed(s) && atrLen >= 1 && i < |s.time|
    ensures |AtrSpec(s, atrLen)| == |s.time|
    ensures var atr := AtrSpec(s, atrLen);
            var st := SeededAt(s.close, BasicUpperSpec(s, atr, mult), BasicLowerSpec(s, atr, mult), i);
            && (st.upper.Some? <==> i + 1 >= atrLen)
            && (st.lower.Some? <==> i + 1 >= atrLen)
  {
    AtrValidIff(s, atrLen, i);
    var atr := AtrSpec(s, atrLen);
    SeededValidIff(s.close, BasicUpperSpec(s, atr, mult), BasicLowerSpec(s, atr, mult), i);
  }

  /**
   * The ratchet: while the previous close stayed at or below the upper band,
   * the upper band does not rise; while it stayed at or above the lower band,
   * the lower band does not fall.
   */
  lemma SeededRatchet(close: seq<real>, bu: seq<Num>, bl: seq<Num>, i: nat)
    requires Aligned(close, bu, bl) && 1 <= i < |close|
    ensures var p := SeededAt(close, bu, bl, i - 1);
            var q := SeededAt(close, bu, bl, i);
            && (p.upper.Some? && bu[i].Some? && close[i - 1] <= p.upper.value ==> q.upper.value <= p.upper.value)
            && (p.lower.Some? && bl[i].Some? && close[i - 1] >= p.lower.value ==> q.lower.value >= p.lower.value)
  {
  }

  /** A close above the previous upper band turns the trend up; one only below the previous lower band, down. */
  lemma SeededTrendFlips(close: seq<real>, bu: seq<Num>, bl: seq<Num>, i: nat)
    requires Aligned(close, bu, bl) && 1 <= i < |close|
    ensures var p := SeededAt(close, bu, bl, i - 1);
            && (p.upper.Some? && close[i] > p.upper.value ==> SeededAt(close, bu, bl, i).trend == 1.0)
            && (p.lower.Some? && close[i] < p.lower.value && !(p.upper.Some? && close[i] > p.upper.value)
                ==> SeededAt(close, bu, bl, i).trend == -1.0)
  {
  }

  /** The trend only ever takes the values -1, 0 and 1. */
  lemma {:induction false} SeededTrendValues(close: seq<real>, bu: seq<Num>, bl: seq<Num>, i: nat)
    requires Aligned(close, bu, bl) && i < |close|
    ensures SeededAt(close, bu, bl, i).trend == -1.0 || SeededAt(close, bu, bl, i).trend == 0.0
            || SeededAt(close, bu, bl, i).trend == 1.0
  {
    if i > 0 {
      SeededTrendValues(close, bu, bl, i - 1);
    }
  }

  /**
   * Closes 1, 1, 10 with both basic bands at the bar's price (a zero atr):
   * the third close is far above the upper band, which the intended
   * recurrence reports as an up-trend while the code as written keeps 0.
   */
  lemma BreakoutExample()
    ensures var close := [1.0, 1.0, 10.0];
            var band := [Some(1.0), Some(1.0), Some(10.0)];
            && Aligned(close, band, band)
            && SeededAt(close, band, band, 2).trend == 1.0
            && StAt(close, band, band, 2).trend == 0.0
  {
    var close := [1.0, 1.0, 10.0];
    var band := [Some(1.0), Some(1.0), Some(10.0)];
    assert SeededAt(close, band, band, 1).upper == Some(1.0);
    StNeverValid(close, band, band, 2);
  }
}
