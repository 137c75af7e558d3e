/**
 * The series builder of the indicator engine: candles become parallel
 * arrays (`toSeries`), and one price line is derived from them (`pickPrice`).
 */
module Series {
  import opened Wrappers
  import opened Numeric

  /** One OHLCV bar: time, open, high, low, close, volume. */
  datatype Candle = Candle(t: real, o: real, h: real, l: real, c: real, v: real)

  /** Parallel arrays built once per computation. */
  datatype Series = Series(
    time: seq<real>, open: seq<real>, high: seq<real>,
    low: seq<real>, close: seq<real>, volume: seq<real>)

  /** The price line that single-line indicators read. */
  datatype PriceSource = Close | Hl2 | Hlc3 | Ohlc4

  /** All six arrays have the same length. */
  predicate WellFormed(s: Series)
  {
    && |s.open| == |s.time| && |s.high| == |s.time| && |s.low| == |s.time|
    && |s.close| == |s.time| && |s.volume| == |s.time|
  }

  /** The bar that index i of a well-formed series describes. */
  function CandleAt(s: Series, i: nat): Candle
    requires WellFormed(s) && i < |s.time|
  {
    Candle(s.time[i], s.open[i], s.high[i], s.low[i], s.close[i], s.volume[i])
  }

  /** Specification of `toSeries`: one array per field. */
  function ToSeriesSpec(candles: seq<Candle>): Series
  {
    var n := |candles|;
    Series(
      seq(n, i requires 0 <= i < n => candles[i].t),
      seq(n, i requires 0 <= i < n => candles[i].o),
      seq(n, i requires 0 <= i < n => candles[i].h),
      seq(n, i requires 0 <= i < n => candles[i].l),
      seq(n, i requires 0 <= i < n => candles[i].c),
      seq(n, i requires 0 <= i < n => candles[i].v))
  }

  /** `toSeries` reads back as the candles it was built from. */
  lemma ToSeriesRoundTrip(candles: seq<Candle>)
    ensures WellFormed(ToSeriesSpec(candles))
    ensures |ToSeriesSpec(candles).time| == |candles|
    ensures forall i :: 0 <= i < |candles| ==> CandleAt(ToSeriesSpec(candles), i) == candles[i]
  {
  }

  /** `toSeries`: fills six fresh arrays in one pass over the candles. */
  method ToSeries(candles: seq<Candle>) returns (s: Series)
    ensures s == ToSeriesSpec(candles)
  {
    var n := |candles|;
    var time := new real[n];
    var open := new real[n];
    var high := new real[n];
    var low := new real[n];
    var close := new real[n];
    var volume := new real[n];
    for i := 0 to n
      invariant forall j :: 0 <= j < i ==> time[j] == candles[j].t
      invariant forall j :: 0 <= j < i ==> open[j] == candles[j].o
      invariant forall j :: 0 <= j < i ==> high[j] == candles[j].h
      invariant forall j :: 0 <= j < i ==> low[j] == candles[j].l
      invariant forall j :: 0 <= j < i ==> close[j] == candles[j].c
      invariant forall j :: 0 <= j < i ==> volume[j] == candles[j].v
    {
      var k := candles[i];
      time[i] := k.t;
      open[i] := k.o;
      high[i] := k.h;
      low[i] := k.l;
      close[i] := k.c;
      volume[i] := k.v;
    }
    s := Series(time[..], open[..], high[..], low[..], close[..], volume[..]);
    assert s.time == ToSeriesSpec(candles).time;
    assert s.open == ToSeriesSpec(candles).open;
    assert s.high == ToSeriesSpec(candles).high;
    assert s.low == ToSeriesSpec(candles).low;
    assert s.close == ToSeriesSpec(candles).close;
  }

  /** The derived price of bar i. */
  function PriceAt(source: PriceSource, s: Series, i: nat): real
    requires WellFormed(s) && i < |s.time|
  {
    match source
    case Close => s.close[i]
    case Hl2 => (s.high[i] + s.low[i]) / 2.0
    case Hlc3 => (s.high[i] + s.low[i] + s.close[i]) / 3.0
    case Ohlc4 => (s.open[i] + s.high[i] + s.low[i] + s.close[i]) / 4.0
  }

  /** Specification of `pickPrice`; `close` hands back the close array itself. */
  function PickPriceSpec(source: PriceSource, s: Series): (r: seq<real>)
    requires WellFormed(s)
    ensures |r| == |s.close|
  {
    if source == Close then s.close
    else seq(|s.close|, i requires 0 <= i < |s.close| => PriceAt(source, s, i))
  }

  /** Every derived price is an average of the bar's own prices, so it lies within them. */
  lemma PickPriceWithinBar(source: PriceSource, s: Series, i: nat, lo: real, hi: real)
    requires WellFormed(s) && i < |s.time|
    requires lo <= s.open[i] <= hi && lo <= s.high[i] <= hi
    requires lo <= s.low[i] <= hi && lo <= s.close[i] <= hi
    ensures |PickPriceSpec(source, s)| == |s.time|
    ensures lo <= PickPriceSpec(source, s)[i] <= hi
    ensures PickPriceSpec(source, s)[i] == PriceAt(source, s, i)
  {
  }

  /** `pickPrice`: the close array, or a fresh array filled with the derived price. */
  method PickPrice(source: PriceSource, s: Series) returns (p: seq<real>)
    requires WellFormed(s)
    ensures p == PickPriceSpec(source, s)
  {
    var n := |s.close|;
    if source == Close {
      return s.close;
    }
    var out := new real[n];
    for i := 0 to n
      invariant forall j :: 0 <= j < i ==> out[j] == PriceAt(source, s, j)
    {
      match source
      case Hl2 => out[i] := (s.high[i] + s.low[i]) / 2.0;
      case Hlc3 => out[i] := (s.high[i] + s.low[i] + s.close[i]) / 3.0;
      case Ohlc4 => out[i] := (s.open[i] + s.high[i] + s.low[i] + s.close[i]) / 4.0;
    }
    p := out[..];
  }

  /** `lastValue`: the last slot of an array, or undefined for an empty one. */
  function LastValue(arr: seq<Num>): (r: Option<Num>)
    ensures r.None? <==> |arr| == 0
    ensures r.Some? ==> r.value == arr[|arr| - 1]
  {
    if |arr| > 0 then Some(arr[|arr| - 1]) else None
  }
}
