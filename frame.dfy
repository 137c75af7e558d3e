/**
 * One timeframe's opinion in the setup scorer: the indicator request,
 * the trend direction (HMA slope and close against KAMA), the structure
 * direction (the last two pivots, then Supertrend), and the volatility
 * regime (normalised ATR and Bollinger width against their medians).
 */
module SetupFrame {
  import opened Wrappers
  import opened Numeric
  import opened Series
  import opened Hma
  import opened Kama
  import opened Atr
  import opened Bollinger
  import opened Supertrend
  import opened Indicators
  import opened SetupHelpers

  /** The scorer's configuration once every default is filled in. */
  datatype Config = Config(
    hmaLen: real, kamaLen: real,
    atrLen: real, bbLen: real, bbTightPct: real,
    pivotLeft: nat, pivotRight: nat,
    wTrend: real, wStructure: real, wVolatility: real,
    alignMin: real)

  /** The configuration as the caller passes it: every field may be missing. */
  datatype RawConfig = RawConfig(
    hmaLen: Option<real>, kamaLen: Option<real>,
    atrLen: Option<real>, bbLen: Option<real>, bbTightPct: Option<real>,
    pivotLeft: Option<nat>, pivotRight: Option<nat>,
    wTrend: Option<real>, wStructure: Option<real>, wVolatility: Option<real>,
    alignMin: Option<real>)

  function DefaultConfig(): Config
  {
    Config(55.0, 30.0, 14.0, 20.0, 0.12, 2, 2, 0.5, 0.35, 0.15, 0.67)
  }

  /** A parsed field: the given value when there is one, the default otherwise. */
  predicate KeptOr<T(==)>(given: Option<T>, parsed: T, fallback: T) {
    if given.Some? then parsed == given.value else parsed == fallback
  }

  /** The schema's defaults: a missing configuration, or a missing field, takes the default value. */
  function ParseConfig(raw: Option<RawConfig>): (cfg: Config)
    ensures raw.None? ==> cfg == DefaultConfig()
    ensures raw.Some? ==> KeptOr(raw.value.hmaLen, cfg.hmaLen, 55.0)
    ensures raw.Some? ==> KeptOr(raw.value.kamaLen, cfg.kamaLen, 30.0)
    ensures raw.Some? ==> KeptOr(raw.value.atrLen, cfg.atrLen, 14.0)
    ensures raw.Some? ==> KeptOr(raw.value.bbLen, cfg.bbLen, 20.0)
    ensures raw.Some? ==> KeptOr(raw.value.bbTightPct, cfg.bbTightPct, 0.12)
    ensures raw.Some? ==> KeptOr(raw.value.pivotLeft, cfg.pivotLeft, 2)
    ensures raw.Some? ==> KeptOr(raw.value.pivotRight, cfg.pivotRight, 2)
    ensures raw.Some? ==> KeptOr(raw.value.wTrend, cfg.wTrend, 0.5)
    ensures raw.Some? ==> KeptOr(raw.value.wStructure, cfg.wStructure, 0.35)
    ensures raw.Some? ==> KeptOr(raw.value.wVolatility, cfg.wVolatility, 0.15)
    ensures raw.Some? ==> KeptOr(raw.value.alignMin, cfg.alignMin, 0.67)
  {
    if raw.None? then DefaultConfig()
    else
      var r := raw.value;
      var d := DefaultConfig();
      Config(r.hmaLen.GetOr(d.hmaLen), r.kamaLen.GetOr(d.kamaLen),
             r.atrLen.GetOr(d.atrLen), r.bbLen.GetOr(d.bbLen), r.bbTightPct.GetOr(d.bbTightPct),
             r.pivotLeft.GetOr(d.pivotLeft), r.pivotRight.GetOr(d.pivotRight),
             r.wTrend.GetOr(d.wTrend), r.wStructure.GetOr(d.wStructure), r.wVolatility.GetOr(d.wVolatility),
             r.alignMin.GetOr(d.alignMin))
  }

  /** One timeframe of the input. */
  datatype Frame = Frame(tf: string, candles: seq<Candle>)

  datatype Regime = Trend | Range | Volatile

  /** The three evidence lines of a frame, before their text is formatted. */
  datatype FrameEvidence =
    | TrendEvidence(dir: int)
    | StructEvidence(dir: int)
    | RegimeEvidence(regime: Regime, natrLast: Num, bwLast: Num)

  datatype Opinion = Opinion(tf: string, trendDir: int, structDir: int, regime: Regime, regEase: real, evidences: seq<FrameEvidence>)

  /** Why the scorer throws: the engine rejected a request, an output it reads is missing, or `input.config` is undefined. */
  datatype AgentError = EngineFailed(error: EngineError) | MissingOutput(key: OutKey) | MissingConfig

  // ------------------------------------------------------------ the indicator request

  /** The six requests every frame sends to the engine. */
  function FrameRequests(cfg: Config): seq<Request>
  {
    [Request(HmaName, Some(map["length" := Number(cfg.hmaLen)])),
     Request(KamaName, Some(map["length" := Number(cfg.kamaLen)])),
     Request(AtrName, Some(map["length" := Number(cfg.atrLen)])),
     Request(BbName, Some(map["length" := Number(cfg.bbLen), "mult" := Number(2.0)])),
     Request(RsiName, Some(map["length" := Number(14.0)])),
     Request(SupertrendName, Some(map["atrLen" := Number(cfg.atrLen), "mult" := Number(3.0)]))]
  }

  function EngineInput(cfg: Config, f: Frame): IndicatorsInput
  {
    IndicatorsInput(f.tf, f.candles, FrameRequests(cfg), Close)
  }

  /**
   * `r.outputs[key]` where the key is spelled from a configured length:
   * a length that is not an integer spells a key no indicator stores, and
   * reading from the missing array throws.
   */
  function Line(out: map<OutKey, seq<Num>>, k: OutKey, spelled: bool): (r: Result<seq<Num>, AgentError>)
    ensures r.Ok? <==> spelled && k in out
    ensures r.Ok? ==> r.value == out[k]
  {
    if spelled && k in out then Ok(out[k]) else Err(MissingOutput(k))
  }

  function Highs(candles: seq<Candle>): (r: seq<real>)
    ensures |r| == |candles|
  {
    seq(|candles|, i requires 0 <= i < |candles| => candles[i].h)
  }

  function Lows(candles: seq<Candle>): (r: seq<real>)
    ensures |r| == |candles|
  {
    seq(|candles|, i requires 0 <= i < |candles| => candles[i].l)
  }

  function Closes(candles: seq<Candle>): (r: seq<real>)
    ensures |r| == |candles|
  {
    seq(|candles|, i requires 0 <= i < |candles| => candles[i].c)
  }

  // ------------------------------------------------------------ trend direction

  /** The step of HMA into its last valid slot, or 0 when the slot before it is NaN or there is none. */
  function Slope(hma: seq<Num>): real
  {
    var li := LastValidIndexSpec(hma);
    if li >= 1 && hma[li - 1].Some? then hma[li].value - hma[li - 1].value else 0.0
  }

  /** The last close against the last valid KAMA value; 0 when either is missing. */
  function KamaDir(kama: seq<Num>, candles: seq<Candle>): int
  {
    var kc := LastValidSpec(kama);
    if kc.Some? && |candles| > 0 then Sign(candles[|candles| - 1].c - kc.value) else 0
  }

  function TrendDir(hma: seq<Num>, kama: seq<Num>, candles: seq<Candle>): (d: int)
    ensures -1 <= d <= 1
  {
    var total := Sign(Slope(hma)) + KamaDir(kama, candles);
    if total >= 1 then 1 else if total <= -1 then -1 else 0
  }

  /** No slot after i is valid. */
  predicate NoneAfter(arr: seq<Num>, i: int)
  {
    forall j :: 0 <= j < |arr| && i < j ==> arr[j].None?
  }

  /** HMA's last valid value rose from a valid value right before it. */
  predicate HmaRising(hma: seq<Num>)
  {
    exists i :: (1 <= i < |hma| && hma[i].Some? && hma[i - 1].Some? && hma[i - 1].value < hma[i].value && NoneAfter(hma, i))
  }

  /** HMA's last valid value fell from a valid value right before it. */
  predicate HmaFalling(hma: seq<Num>)
  {
    exists i :: (1 <= i < |hma| && hma[i].Some? && hma[i - 1].Some? && hma[i - 1].value > hma[i].value && NoneAfter(hma, i))
  }

  /** The last close is above the last valid KAMA value. */
  predicate CloseAboveKama(kama: seq<Num>, candles: seq<Candle>)
  {
    |candles| > 0 &&
    exists i :: (0 <= i < |kama| && kama[i].Some? && kama[i].value < candles[|candles| - 1].c && NoneAfter(kama, i))
  }

  /** The last close is below the last valid KAMA value. */
  predicate CloseBelowKama(kama: seq<Num>, candles: seq<Candle>)
  {
    |candles| > 0 &&
    exists i :: (0 <= i < |kama| && kama[i].Some? && kama[i].value > candles[|candles| - 1].c && NoneAfter(kama, i))
  }

  /** Only one slot can be the last valid one. */
  lemma {:induction false} LastValidUnique(arr: seq<Num>, i: int)
    requires 0 <= i < |arr| && arr[i].Some? && NoneAfter(arr, i)
    ensures LastValidIndexSpec(arr) == i
  {
    if i < |arr| - 1 {
      LastValidUnique(arr[..|arr| - 1], i);
    }
  }

  /** The slope is positive exactly when HMA is rising, negative exactly when it is falling. */
  lemma SlopeSign(hma: seq<Num>)
    ensures Slope(hma) > 0.0 <==> HmaRising(hma)
    ensures Slope(hma) < 0.0 <==> HmaFalling(hma)
  {
    var li := LastValidIndexSpec(hma);
    if i :| (1 <= i < |hma| && hma[i].Some? && hma[i - 1].Some? && hma[i - 1].value < hma[i].value && NoneAfter(hma, i)) {
      LastValidUnique(hma, i);
    }
    if i :| (1 <= i < |hma| && hma[i].Some? && hma[i - 1].Some? && hma[i - 1].value > hma[i].value && NoneAfter(hma, i)) {
      LastValidUnique(hma, i);
    }
    if li >= 1 && hma[li - 1].Some? {
      assert hma[li].Some?;
    }
  }

  /** KAMA's vote is 1 exactly when the close is above it, -1 exactly when below. */
  lemma KamaDirSign(kama: seq<Num>, candles: seq<Candle>)
    ensures KamaDir(kama, candles) == 1 <==> CloseAboveKama(kama, candles)
    ensures KamaDir(kama, candles) == -1 <==> CloseBelowKama(kama, candles)
  {
    LastValidIndexIff(kama);
    if |candles| > 0 {
      var c := candles[|candles| - 1].c;
      if i :| (0 <= i < |kama| && kama[i].Some? && kama[i].value < c && NoneAfter(kama, i)) {
        LastValidUnique(kama, i);
      }
      if i :| (0 <= i < |kama| && kama[i].Some? && kama[i].value > c && NoneAfter(kama, i)) {
        LastValidUnique(kama, i);
      }
      var li := LastValidIndexSpec(kama);
      if li >= 0 {
        assert kama[li].Some? && NoneAfter(kama, li);
      }
    }
  }

  /**
   * The frame is bullish when one of the two signals is bullish and
   * neither is bearish, and bearish in the mirror case; otherwise neutral.
   */
  lemma TrendDirMeaning(hma: seq<Num>, kama: seq<Num>, candles: seq<Candle>)
    ensures TrendDir(hma, kama, candles) in {-1, 0, 1}
    ensures TrendDir(hma, kama, candles) == 1 <==>
              (HmaRising(hma) || CloseAboveKama(kama, candles)) && !HmaFalling(hma) && !CloseBelowKama(kama, candles)
    ensures TrendDir(hma, kama, candles) == -1 <==>
              (HmaFalling(hma) || CloseBelowKama(kama, candles)) && !HmaRising(hma) && !CloseAboveKama(kama, candles)
  {
    SlopeSign(hma);
    KamaDirSign(kama, candles);
  }

  // ------------------------------------------------------------ structure direction

  /** a and b are the last two pivot highs. */
  ghost predicate LastTwoHighs(high: seq<real>, left: nat, right: nat, a: int, b: int)
  {
    a < b && IsPivotHigh(high, left, right, a) && IsPivotHigh(high, left, right, b) &&
    forall k :: a < k && IsPivotHigh(high, left, right, k) ==> k == b
  }

  /** c and d are the last two pivot lows. */
  ghost predicate LastTwoLows(low: seq<real>, left: nat, right: nat, c: int, d: int)
  {
    c < d && IsPivotLow(low, left, right, c) && IsPivotLow(low, left, right, d) &&
    forall k :: c < k && IsPivotLow(low, left, right, k) ==> k == d
  }

  /** The last two entries of a strictly increasing sequence are the two members with no other member above the first. */
  lemma LastTwoOfIncreasing(s: seq<int>, a: int, b: int)
    requires StrictlyIncreasing(s)
    ensures (|s| >= 2 && s[|s| - 2] == a && s[|s| - 1] == b) <==>
            (a < b && a in s && b in s && forall k :: k in s && a < k ==> k == b)
  {
    if a < b && a in s && b in s && forall k :: k in s && a < k ==> k == b {
      var ia :| 0 <= ia < |s| && s[ia] == a;
      var ib :| 0 <= ib < |s| && s[ib] == b;
      assert ia < ib;
      assert s[|s| - 1] in s && s[ia + 1] in s;
    }
    if |s| >= 2 && s[|s| - 2] == a && s[|s| - 1] == b {
      forall k | k in s && a < k
        ensures k == b
      {
        var m :| 0 <= m < |s| && s[m] == k;
      }
    }
  }

  /** The last two entries of each pivot list are bar indices. */
  lemma LastPivotsInRange(high: seq<real>, low: seq<real>, left: nat, right: nat)
    requires |low| == |high|
    ensures var p := PivotsSpec(high, low, left, right);
            && (|p.ph| >= 2 ==> 0 <= p.ph[|p.ph| - 2] < |high| && 0 <= p.ph[|p.ph| - 1] < |high|)
            && (|p.pl| >= 2 ==> 0 <= p.pl[|p.pl| - 2] < |low| && 0 <= p.pl[|p.pl| - 1] < |low|)
  {
    var p := PivotsSpec(high, low, left, right);
    PivotHighsExact(high, left, right, |high| - right);
    PivotLowsExact(low, left, right, |high| - right);
    if |p.ph| >= 2 {
      assert p.ph[|p.ph| - 2] in p.ph && p.ph[|p.ph| - 1] in p.ph;
    }
    if |p.pl| >= 2 {
      assert p.pl[|p.pl| - 2] in p.pl && p.pl[|p.pl| - 1] in p.pl;
    }
  }

  /** The verdict of the last two pivots: higher highs and higher lows, or lower highs and lower lows. */
  function PivotDir(high: seq<real>, low: seq<real>, left: nat, right: nat): (r: int)
    requires |low| == |high|
    ensures -1 <= r <= 1
  {
    var p := PivotsSpec(high, low, left, right);
    if |p.ph| >= 2 && |p.pl| >= 2 then
      LastPivotsInRange(high, low, left, right);
      var ph2 := p.ph[|p.ph| - 2];
      var ph1 := p.ph[|p.ph| - 1];
      var pl2 := p.pl[|p.pl| - 2];
      var pl1 := p.pl[|p.pl| - 1];
      if high[ph1] > high[ph2] && low[pl1] > low[pl2] then 1
      else if high[ph1] < high[ph2] && low[pl1] < low[pl2] then -1
      else 0
    else 0
  }

  /** The pivot-high list ends with exactly the last two pivot highs. */
  lemma LastTwoHighsExact(high: seq<real>, left: nat, right: nat, a: int, b: int)
    ensures var ph := PivotHighsBelow(high, left, right, |high| - right);
            (|ph| >= 2 && ph[|ph| - 2] == a && ph[|ph| - 1] == b) <==> LastTwoHighs(high, left, right, a, b)
  {
    PivotHighsExact(high, left, right, |high| - right);
    LastTwoOfIncreasing(PivotHighsBelow(high, left, right, |high| - right), a, b);
  }

  /** The pivot-low list ends with exactly the last two pivot lows. */
  lemma LastTwoLowsExact(low: seq<real>, left: nat, right: nat, c: int, d: int)
    ensures var pl := PivotLowsBelow(low, left, right, |low| - right);
            (|pl| >= 2 && pl[|pl| - 2] == c && pl[|pl| - 1] == d) <==> LastTwoLows(low, left, right, c, d)
  {
    PivotLowsExact(low, left, right, |low| - right);
    LastTwoOfIncreasing(PivotLowsBelow(low, left, right, |low| - right), c, d);
  }

  /** The last pivot high is above the one before it. */
  ghost predicate HigherHighs(high: seq<real>, left: nat, right: nat)
  {
    exists a, b :: LastTwoHighs(high, left, right, a, b) && high[a] < high[b]
  }

  /** The last pivot high is below the one before it. */
  ghost predicate LowerHighs(high: seq<real>, left: nat, right: nat)
  {
    exists a, b :: LastTwoHighs(high, left, right, a, b) && high[a] > high[b]
  }

  /** The last pivot low is above the one before it. */
  ghost predicate HigherLows(low: seq<real>, left: nat, right: nat)
  {
    exists c, d :: LastTwoLows(low, left, right, c, d) && low[c] < low[d]
  }

  /** The last pivot low is below the one before it. */
  ghost predicate LowerLows(low: seq<real>, left: nat, right: nat)
  {
    exists c, d :: LastTwoLows(low, left, right, c, d) && low[c] > low[d]
  }

  /** The comparison of the last two entries of the pivot-high list is the comparison of the last two pivot highs. */
  lemma HighsCompared(high: seq<real>, left: nat, right: nat)
    ensures var ph := PivotHighsBelow(high, left, right, |high| - right);
            && ((|ph| >= 2 && 0 <= ph[|ph| - 2] < |high| && 0 <= ph[|ph| - 1] < |high| &&
                 high[ph[|ph| - 2]] < high[ph[|ph| - 1]]) <==> HigherHighs(high, left, right))
            && ((|ph| >= 2 && 0 <= ph[|ph| - 2] < |high| && 0 <= ph[|ph| - 1] < |high| &&
                 high[ph[|ph| - 2]] > high[ph[|ph| - 1]]) <==> LowerHighs(high, left, right))
  {
    var ph := PivotHighsBelow(high, left, right, |high| - right);
    if |ph| >= 2 {
      var a, b := ph[|ph| - 2], ph[|ph| - 1];
      LastTwoHighsExact(high, left, right, a, b);
      forall a', b' | LastTwoHighs(high, left, right, a', b')
        ensures a' == a && b' == b
      {
        LastTwoHighsExact(high, left, right, a', b');
      }
    } else {
      forall a, b | LastTwoHighs(high, left, right, a, b)
        ensures false
      {
        LastTwoHighsExact(high, left, right, a, b);
      }
    }
  }

  /** The comparison of the last two entries of the pivot-low list is the comparison of the last two pivot lows. */
  lemma LowsCompared(low: seq<real>, left: nat, right: nat)
    ensures var pl := PivotLowsBelow(low, left, right, |low| - right);
            && ((|pl| >= 2 && 0 <= pl[|pl| - 2] < |low| && 0 <= pl[|pl| - 1] < |low| &&
                 low[pl[|pl| - 2]] < low[pl[|pl| - 1]]) <==> HigherLows(low, left, right))
            && ((|pl| >= 2 && 0 <= pl[|pl| - 2] < |low| && 0 <= pl[|pl| - 1] < |low| &&
                 low[pl[|pl| - 2]] > low[pl[|pl| - 1]]) <==> LowerLows(low, left, right))
  {
    var pl := PivotLowsBelow(low, left, right, |low| - right);
    if |pl| >= 2 {
      var c, d := pl[|pl| - 2], pl[|pl| - 1];
      LastTwoLowsExact(low, left, right, c, d);
      forall c', d' | LastTwoLows(low, left, right, c', d')
        ensures c' == c && d' == d
      {
        LastTwoLowsExact(low, left, right, c', d');
      }
    } else {
      forall c, d | LastTwoLows(low, left, right, c, d)
        ensures false
      {
        LastTwoLowsExact(low, left, right, c, d);
      }
    }
  }

  /**
   * The pivot verdict is bullish exactly when the last two pivot highs
   * and the last two pivot lows both rise (HH/HL), bearish exactly when
   * both fall (LH/LL).
   */
  lemma PivotDirMeaning(high: seq<real>, low: seq<real>, left: nat, right: nat)
    requires |low| == |high|
    ensures PivotDir(high, low, left, right) == 1 <==> HigherHighs(high, left, right) && HigherLows(low, left, right)
    ensures PivotDir(high, low, left, right) == -1 <==> LowerHighs(high, left, right) && LowerLows(low, left, right)
  {
    var ph := PivotHighsBelow(high, left, right, |high| - right);
    var pl := PivotLowsBelow(low, left, right, |low| - right);
    var d := PivotDir(high, low, left, right);
    LastPivotsInRange(high, low, left, right);
    assert PivotsSpec(high, low, left, right) == Pivots(ph, pl);
    var both := |ph| >= 2 && |pl| >= 2;
    var up := both && high[ph[|ph| - 2]] < high[ph[|ph| - 1]] && low[pl[|pl| - 2]] < low[pl[|pl| - 1]];
    var down := both && high[ph[|ph| - 2]] > high[ph[|ph| - 1]] && low[pl[|pl| - 2]] > low[pl[|pl| - 1]];
    assert (d == 1 <==> up) && (d == -1 <==> down);
    HighsCompared(high, left, right);
    LowsCompared(low, left, right);
  }

  /** The pivot verdict, then Supertrend's last direction where the pivots give no opposite verdict. */
  function StructDir(high: seq<real>, low: seq<real>, left: nat, right: nat, st: seq<Num>): (d: int)
    requires |low| == |high|
    ensures -1 <= d <= 1
    ensures PivotDir(high, low, left, right) != 0 ==> d == PivotDir(high, low, left, right)
  {
    var d := PivotDir(high, low, left, right);
    var stLast := LastValidSpec(st);
    var d1 := if stLast == Some(1.0) && d != -1 then 1 else d;
    if stLast == Some(-1.0) && d1 != 1 then -1 else d1
  }

  /**
   * Supertrend never overturns a pivot verdict: it only fills in a
   * neutral one, and it has no say unless its last value is 1 or -1.
   */
  lemma StructDirFillsIn(high: seq<real>, low: seq<real>, left: nat, right: nat, st: seq<Num>)
    requires |low| == |high|
    ensures var d := PivotDir(high, low, left, right);
            var stLast := LastValidSpec(st);
            && (d != 0 ==> StructDir(high, low, left, right, st) == d)
            && (d == 0 && stLast == Some(1.0) ==> StructDir(high, low, left, right, st) == 1)
            && (d == 0 && stLast == Some(-1.0) ==> StructDir(high, low, left, right, st) == -1)
            && (stLast != Some(1.0) && stLast != Some(-1.0) ==> StructDir(high, low, left, right, st) == d)
  {
  }

  // ------------------------------------------------------------ volatility regime

  /** A line divided by the bar's close; NaN where the line is NaN or the close is 0. */
  function NormalizedAt(line: seq<Num>, close: seq<real>, i: int): Num
    requires 0 <= i < |line|
  {
    if line[i].None? || i >= |close| || close[i] == 0.0 then NaN else Some(line[i].value / close[i])
  }

  function Normalized(line: seq<Num>, close: seq<real>): (r: seq<Num>)
    ensures |r| == |line|
  {
    seq(|line|, i requires 0 <= i < |line| => NormalizedAt(line, close, i))
  }

  /** Normalising loses nothing: a valid slot times its close gives back the line's value. */
  lemma NormalizedRoundTrip(line: seq<Num>, close: seq<real>)
    ensures forall i :: 0 <= i < |line| ==>
              (Normalized(line, close)[i].Some? <==> line[i].Some? && i < |close| && close[i] != 0.0)
    ensures forall i :: 0 <= i < |line| && Normalized(line, close)[i].Some? ==>
              Normalized(line, close)[i].value * close[i] == line[i].value
  {
    forall i | 0 <= i < |line| && Normalized(line, close)[i].Some?
      ensures Normalized(line, close)[i].value * close[i] == line[i].value
    {
      MulDivCancel(line[i].value, close[i]);
    }
  }

  /** The `natrArr` / `bwNorm` loops. */
  method Normalize(line: seq<Num>, close: seq<real>) returns (r: seq<Num>)
    ensures r == Normalized(line, close)
  {
    var a := new Num[|line|];
    for i := 0 to |line|
      invariant forall j :: 0 <= j < i ==> a[j] == NormalizedAt(line, close, j)
    {
      a[i] := if line[i].None? || i >= |close| || close[i] == 0.0 then NaN else Some(line[i].value / close[i]);
    }
    r := a[..];
  }

  /** High volatility when both lines end above their medians, low when both end at or below, trend otherwise. */
  function RegimeOf(natr: seq<Num>, bw: seq<Num>): (g: Regime)
    ensures g != Trend ==> LastValidSpec(natr).Some? && LastValidSpec(bw).Some?
    ensures g != Trend ==> MedianSpec(natr).Some? && MedianSpec(bw).Some?
  {
    var natrMed := MedianSpec(natr);
    var bwMed := MedianSpec(bw);
    var natrLast := LastValidSpec(natr);
    var bwLast := LastValidSpec(bw);
    if natrLast.Some? && bwLast.Some? && natrMed.Some? && bwMed.Some? then
      if natrLast.value > natrMed.value && bwLast.value > bwMed.value then Volatile
      else if natrLast.value <= natrMed.value && bwLast.value <= bwMed.value then Range
      else Trend
    else Trend
  }

  predicate HasValid(arr: seq<Num>)
  {
    exists i :: 0 <= i < |arr| && arr[i].Some?
  }

  /** Both values are present and the first exceeds the second. */
  predicate Exceeds(x: Num, y: Num)
  {
    x.Some? && y.Some? && x.value > y.value
  }

  /** Both values are present and the first is at most the second. */
  predicate AtMost(x: Num, y: Num)
  {
    x.Some? && y.Some? && x.value <= y.value
  }

  /**
   * High volatility exactly when both lines end above their medians, low
   * exactly when both end at or below them; a line that is NaN throughout
   * leaves the frame in the trend regime.
   */
  lemma RegimeMeaning(natr: seq<Num>, bw: seq<Num>)
    ensures RegimeOf(natr, bw) == Volatile <==>
              Exceeds(LastValidSpec(natr), MedianSpec(natr)) && Exceeds(LastValidSpec(bw), MedianSpec(bw))
    ensures RegimeOf(natr, bw) == Range <==>
              AtMost(LastValidSpec(natr), MedianSpec(natr)) && AtMost(LastValidSpec(bw), MedianSpec(bw))
    ensures !HasValid(natr) || !HasValid(bw) ==> RegimeOf(natr, bw) == Trend
  {
    LastValidIndexIff(natr);
    LastValidIndexIff(bw);
  }

  /** How easy the regime is to trade. */
  function RegEase(regime: Regime): (r: real)
    ensures 0.3 <= r <= 1.0
    ensures r == 1.0 <==> regime == Trend
  {
    match regime
    case Trend => 1.0
    case Range => 0.5
    case Volatile => 0.3
  }

  // ------------------------------------------------------------ the frame

  /** The opinion of one frame, given the five lines it reads from the engine. */
  function OpinionOf(f: Frame, cfg: Config, hma: seq<Num>, kama: seq<Num>, atr: seq<Num>, bbW: seq<Num>, st: seq<Num>): Opinion
  {
    var trendDir := TrendDir(hma, kama, f.candles);
    var structDir := StructDir(Highs(f.candles), Lows(f.candles), cfg.pivotLeft, cfg.pivotRight, st);
    var natr := Normalized(atr, Closes(f.candles));
    var bw := Normalized(bbW, Closes(f.candles));
    var regime := RegimeOf(natr, bw);
    Opinion(f.tf, trendDir, structDir, regime, RegEase(regime),
            [TrendEvidence(trendDir), StructEvidence(structDir), RegimeEvidence(regime, LastValidSpec(natr), LastValidSpec(bw))])
  }

  /** One iteration of the frame loop: run the engine, read the five lines, form the opinion. */
  function FrameSpec(defs: map<IndicatorName, IndicatorDef>, cfg: Config, f: Frame): Result<Opinion, AgentError>
  {
    var r := ComputeIndicatorsSpec(defs, EngineInput(cfg, f));
    if r.Err? then Err(EngineFailed(r.error))
    else
      var out := r.value.outputs;
      var hma :- Line(out, HmaKey(cfg.hmaLen.Floor), IsInt(cfg.hmaLen));
      var kama :- Line(out, KamaKey(cfg.kamaLen.Floor), IsInt(cfg.kamaLen));
      var st :- Line(out, StTrendKey, true);
      var atr :- Line(out, AtrKey(cfg.atrLen.Floor), IsInt(cfg.atrLen));
      var bbW :- Line(out, BbWidthKey(cfg.bbLen.Floor), IsInt(cfg.bbLen));
      Ok(OpinionOf(f, cfg, hma, kama, atr, bbW, st))
  }

  /** The trend block of the loop body. */
  method TrendDirOf(hma: seq<Num>, kama: seq<Num>, candles: seq<Candle>) returns (trendDir: int)
    ensures trendDir == TrendDir(hma, kama, candles)
  {
    var li := LastValidIndex(hma);
    var slope := if li >= 1 && hma[li - 1].Some? then hma[li].value - hma[li - 1].value else 0.0;
    var kc := LastValid(kama);
    var dirKama := if kc.Some? && |candles| > 0 then Sign(candles[|candles| - 1].c - kc.value) else 0;
    var total := Sign(slope) + dirKama;
    trendDir := if total >= 1 then 1 else if total <= -1 then -1 else 0;
  }

  /** The structure block of the loop body. */
  method StructDirOf(high: seq<real>, low: seq<real>, left: nat, right: nat, st: seq<Num>) returns (structDir: int)
    requires |low| == |high|
    ensures structDir == StructDir(high, low, left, right, st)
  {
    var p := FindPivots(high, low, left, right);
    structDir := 0;
    if |p.ph| >= 2 && |p.pl| >= 2 {
      LastPivotsInRange(high, low, left, right);
      var ph2, ph1 := p.ph[|p.ph| - 2], p.ph[|p.ph| - 1];
      var pl2, pl1 := p.pl[|p.pl| - 2], p.pl[|p.pl| - 1];
      if high[ph1] > high[ph2] && low[pl1] > low[pl2] {
        structDir := 1;
      } else if high[ph1] < high[ph2] && low[pl1] < low[pl2] {
        structDir := -1;
      }
    }
    var stLast := LastValid(st);
    if stLast == Some(1.0) && structDir != -1 {
      structDir := 1;
    }
    if stLast == Some(-1.0) && structDir != 1 {
      structDir := -1;
    }
  }

  /** The regime block of the loop body, with the two last values it reports. */
  method RegimeBlock(atr: seq<Num>, bbW: seq<Num>, closes: seq<real>) returns (regime: Regime, natrLast: Num, bwLast: Num)
    ensures regime == RegimeOf(Normalized(atr, closes), Normalized(bbW, closes))
    ensures natrLast == LastValidSpec(Normalized(atr, closes)) && bwLast == LastValidSpec(Normalized(bbW, closes))
  {
    var natr := Normalize(atr, closes);
    var bw := Normalize(bbW, closes);
    var natrMed := MedianIgnoreNaN(natr);
    var bwMed := MedianIgnoreNaN(bw);
    natrLast := LastValid(natr);
    bwLast := LastValid(bw);
    regime := Trend;
    if natrLast.Some? && bwLast.Some? && natrMed.Some? && bwMed.Some? {
      if natrLast.value > natrMed.value && bwLast.value > bwMed.value {
        regime := Volatile;
      } else if natrLast.value <= natrMed.value && bwLast.value <= bwMed.value {
        regime := Range;
      }
    }
  }

  /** The frame's opinion from the five lines, computed the way the loop body does. */
  method Opine(f: Frame, cfg: Config, hma: seq<Num>, kama: seq<Num>, atr: seq<Num>, bbW: seq<Num>, st: seq<Num>) returns (op: Opinion)
    ensures op == OpinionOf(f, cfg, hma, kama, atr, bbW, st)
  {
    var trendDir := TrendDirOf(hma, kama, f.candles);
    var structDir := StructDirOf(Highs(f.candles), Lows(f.candles), cfg.pivotLeft, cfg.pivotRight, st);
    var regime, natrLast, bwLast := RegimeBlock(atr, bbW, Closes(f.candles));
    op := Opinion(f.tf, trendDir, structDir, regime, RegEase(regime),
                  [TrendEvidence(trendDir), StructEvidence(structDir), RegimeEvidence(regime, natrLast, bwLast)]);
  }

  /** One iteration of the frame loop. */
  method FrameOpinion(reg: Registry, cfg: Config, f: Frame) returns (res: Result<Opinion, AgentError>)
    ensures res == FrameSpec(reg.defs, cfg, f)
  {
    var r := reg.ComputeIndicators(EngineInput(cfg, f));
    if r.Err? {
      return Err(EngineFailed(r.error));
    }
    var out := r.value.outputs;
    var hma :- Line(out, HmaKey(cfg.hmaLen.Floor), IsInt(cfg.hmaLen));
    var kama :- Line(out, KamaKey(cfg.kamaLen.Floor), IsInt(cfg.kamaLen));
    var st :- Line(out, StTrendKey, true);
    var atr :- Line(out, AtrKey(cfg.atrLen.Floor), IsInt(cfg.atrLen));
    var bbW :- Line(out, BbWidthKey(cfg.bbLen.Floor), IsInt(cfg.bbLen));
    var op := Opine(f, cfg, hma, kama, atr, bbW, st);
    return Ok(op);
  }
}
