/**
 * The multi-timeframe fusion of the setup scorer: the frames' trend votes
 * give a direction, the trend, structure and volatility sub-scores are
 * percentages of the frame count, their weighted sum is the score (capped
 * at 70 when most frames are volatile), and a long or short decision needs
 * a score of at least 65 and an agreed direction.
 */
module SetupFusion {
  import opened Wrappers
  import opened Numeric
  import opened SetupFrame

  datatype Decision = Long | Short | Neutral

  /** The three sub-scores, each `Math.round` of a percentage. */
  datatype Breakdown = Breakdown(trend: int, structure: int, volatility: int)

  /** The evidence lines of the result, before their text is formatted. */
  datatype EvidenceLine =
    | AlignLine(pos: nat, neg: nat, frames: nat)
    | StructLine(aligned: nat, frames: nat)
    | VolLine(volScore: Option<int>)
    | FrameLine(tf: string, evidences: seq<FrameEvidence>)

  /**
   * `TASetupScore`. With no frames every ratio is 0/0, so the score and
   * the breakdown are NaN: both are then None.
   */
  datatype SetupScore = SetupScore(
    decision: Decision, regime: Regime, score: Option<int>, breakdown: Option<Breakdown>,
    evidence: seq<EvidenceLine>, frameAlignment: map<string, int>)

  /** What a frame's opinion always satisfies: directions in {-1, 0, 1}, ease matching the regime. */
  predicate WellFormedOpinion(o: Opinion)
  {
    -1 <= o.trendDir <= 1 && -1 <= o.structDir <= 1 && o.regEase == RegEase(o.regime)
  }

  // ------------------------------------------------------------ counting

  /** `ops.filter(p).length`. */
  function Count(ops: seq<Opinion>, p: Opinion -> bool): (r: nat)
    ensures r <= |ops|
    decreases |ops|
  {
    if |ops| == 0 then 0
    else Count(ops[..|ops| - 1], p) + (if p(ops[|ops| - 1]) then 1 else 0)
  }

  /** No opinion is counted exactly when none satisfies the filter; all are exactly when all do. */
  lemma {:induction false} CountExtremes(ops: seq<Opinion>, p: Opinion -> bool)
    ensures Count(ops, p) == 0 <==> forall i :: 0 <= i < |ops| ==> !p(ops[i])
    ensures Count(ops, p) == |ops| <==> forall i :: 0 <= i < |ops| ==> p(ops[i])
    decreases |ops|
  {
    if |ops| > 0 {
      var n := |ops| - 1;
      CountExtremes(ops[..n], p);
      assert forall i :: 0 <= i < n ==> ops[..n][i] == ops[i];
    }
  }

  /** Two filters no opinion passes together count at most the whole sequence. */
  lemma {:induction false} CountDisjoint(ops: seq<Opinion>, p: Opinion -> bool, q: Opinion -> bool)
    requires forall o :: p(o) ==> !q(o)
    ensures Count(ops, p) + Count(ops, q) <= |ops|
    decreases |ops|
  {
    if |ops| > 0 {
      CountDisjoint(ops[..|ops| - 1], p, q);
    }
  }

  /** Three filters every opinion passes exactly one of count the whole sequence. */
  lemma {:induction false} CountPartition(ops: seq<Opinion>, p: Opinion -> bool, q: Opinion -> bool, u: Opinion -> bool)
    requires forall o :: p(o) ==> !q(o) && !u(o)
    requires forall o :: q(o) ==> !u(o)
    requires forall o :: p(o) || q(o) || u(o)
    ensures Count(ops, p) + Count(ops, q) + Count(ops, u) == |ops|
    decreases |ops|
  {
    if |ops| > 0 {
      CountPartition(ops[..|ops| - 1], p, q, u);
    }
  }

  /** The filter `(x) => x.trendDir === d`. */
  function TrendIs(d: int): Opinion -> bool
  {
    (o: Opinion) => o.trendDir == d
  }

  /** The filter `(x) => x.regime === g`. */
  function RegimeIs(g: Regime): Opinion -> bool
  {
    (o: Opinion) => o.regime == g
  }

  /** The structure filter: with no direction a frame counts when it has any structure, otherwise when it agrees. */
  function StructAgrees(dir: int): Opinion -> bool
  {
    (o: Opinion) => if dir == 0 then o.structDir != 0 else o.structDir == dir
  }

  /** `frameOpinions.filter((x) => x.trendDir === d).length`. */
  function Votes(ops: seq<Opinion>, d: int): nat
  {
    Count(ops, TrendIs(d))
  }

  /** `frameOpinions.filter((x) => x.regime === g).length`. */
  function RegimeCount(ops: seq<Opinion>, g: Regime): nat
  {
    Count(ops, RegimeIs(g))
  }

  /** `structAligned`. */
  function Aligned(ops: seq<Opinion>, dir: int): nat
  {
    Count(ops, StructAgrees(dir))
  }

  /** Long and short votes never exceed the frame count together. */
  lemma VotesWithin(ops: seq<Opinion>)
    ensures Votes(ops, 1) + Votes(ops, -1) <= |ops|
  {
    CountDisjoint(ops, TrendIs(1), TrendIs(-1));
  }

  /** Every frame is in exactly one regime. */
  lemma RegimesPartition(ops: seq<Opinion>)
    ensures RegimeCount(ops, Trend) + RegimeCount(ops, Range) + RegimeCount(ops, Volatile) == |ops|
  {
    CountPartition(ops, RegimeIs(Trend), RegimeIs(Range), RegimeIs(Volatile));
  }

  /** The eases of the frames, in order. */
  function Eases(ops: seq<Opinion>): (r: seq<real>)
    ensures |r| == |ops| && forall i :: 0 <= i < |ops| ==> r[i] == ops[i].regEase
  {
    seq(|ops|, i requires 0 <= i < |ops| => ops[i].regEase)
  }

  // ------------------------------------------------------------ direction and scores

  /**
   * `alignPos >= alignMin ? 1 : alignNeg >= alignMin ? -1 : 0`, where a
   * missing threshold compares false and so do the NaN ratios of zero frames.
   */
  function Direction(pos: nat, neg: nat, nF: nat, alignMin: Option<real>): (d: int)
    ensures -1 <= d <= 1
    ensures d != 0 ==> nF > 0 && alignMin.Some?
    ensures d == 1 ==> pos as real / nF as real >= alignMin.value
    ensures d == -1 ==> neg as real / nF as real >= alignMin.value
  {
    if nF == 0 || alignMin.None? then 0
    else if pos as real / nF as real >= alignMin.value then 1
    else if neg as real / nF as real >= alignMin.value then -1
    else 0
  }

  /**
   * Long is tested first: the direction is long exactly when the long votes
   * reach the threshold's share of the frames, and short exactly when they
   * do not but the short votes do. With a threshold above one half at most
   * one side can reach it, so the order of the tests no longer matters.
   */
  lemma DirectionMeaning(pos: nat, neg: nat, nF: nat, a: real)
    ensures var d := Direction(pos, neg, nF, Some(a));
            && -1 <= d <= 1
            && (d == 1 <==> nF > 0 && pos as real >= a * nF as real)
            && (d == -1 <==> nF > 0 && pos as real < a * nF as real && neg as real >= a * nF as real)
            && (a > 0.5 && pos + neg <= nF ==> (d == -1 <==> nF > 0 && neg as real >= a * nF as real))
  {
    if nF > 0 {
      var n := nF as real;
      RatioAtLeast(pos as real, n, a);
      RatioAtLeast(neg as real, n, a);
      if a > 0.5 && pos + neg <= nF {
        var an := a * n;
        assert 2.0 * an > n by {
          MulMonotone(n, 0.5, a);
          assert n * a == an;
          assert n * (a - 0.5) > 0.0 by { MulStrictPos(n, a - 0.5); }
        }
        assert !(pos as real >= an && neg as real >= an);
      }
    }
  }

  /** `Math.round((x / nF) * 100)`. */
  function Percent(x: real, nF: nat): int
    requires nF > 0
  {
    Round(x / nF as real * 100.0)
  }

  /** A share between lo and hi of nF gives a percentage between the rounded bounds. */
  lemma PercentBounds(x: real, nF: nat, lo: int, hi: int)
    requires nF > 0 && lo as real * nF as real <= 100.0 * x <= hi as real * nF as real
    ensures lo <= Percent(x, nF) <= hi
  {
    var n := nF as real;
    MeanBetween(100.0 * x, n, lo as real, hi as real);
    assert x / n * 100.0 == (100.0 * x) / n;
    RoundBounds(x / n * 100.0, lo, hi);
  }

  /** `w.trend * t + w.structure * s + w.volatility * v`. */
  function Weighted(cfg: Config, b: Breakdown): real {
    cfg.wTrend * b.trend as real + cfg.wStructure * b.structure as real + cfg.wVolatility * b.volatility as real
  }

  /** `Math.round(w.trend * t + w.structure * s + w.volatility * v)`, capped at 70 when most frames are volatile. */
  function Total(cfg: Config, b: Breakdown, volatile: nat, nF: nat): (t: int)
    requires nF > 0
    ensures t <= Round(Weighted(cfg, b))
    ensures volatile as real / nF as real > 0.5 ==> t <= 70
  {
    var total := Round(Weighted(cfg, b));
    if volatile as real / nF as real > 0.5 && total > 70 then 70 else total
  }

  /** The sub-scores of a non-empty set of frames. */
  function BreakdownOf(ops: seq<Opinion>, dir: int): Breakdown
    requires |ops| > 0
  {
    var pos := Votes(ops, 1);
    var neg := Votes(ops, -1);
    Breakdown(Percent(Max(pos as real, neg as real), |ops|), Percent(Aligned(ops, dir) as real, |ops|), Percent(Sum(Eases(ops)), |ops|))
  }

  /** `volatileRatio > 0.5` wins, then `rangeRatio > 0.5`, else trend; zero frames give NaN ratios, so trend. */
  function OverallRegime(volatile: nat, range: nat, nF: nat): (g: Regime)
    ensures g == Volatile <==> nF > 0 && volatile as real / nF as real > 0.5
    ensures g == Range ==> nF > 0 && range as real / nF as real > 0.5
  {
    if nF > 0 && volatile as real / nF as real > 0.5 then Volatile
    else if nF > 0 && range as real / nF as real > 0.5 then Range
    else Trend
  }

  /** Long or short only with a score of at least 65 (a NaN score compares false) and an agreed direction. */
  function DecisionOf(score: Option<int>, dir: int): (d: Decision)
    ensures d != Neutral ==> score.Some? && score.value >= 65
    ensures d == Long ==> dir == 1
    ensures d == Short ==> dir == -1
  {
    if score.Some? && score.value >= 65 then
      (if dir == 1 then Long else if dir == -1 then Short else Neutral)
    else Neutral
  }

  // ------------------------------------------------------------ evidence and alignment

  /** One evidence line per frame, in order. */
  function FrameLines(ops: seq<Opinion>): (r: seq<EvidenceLine>)
    ensures |r| == |ops|
  {
    seq(|ops|, i requires 0 <= i < |ops| => FrameLine(ops[i].tf, ops[i].evidences))
  }

  /** The frames' tags with their trend direction, a later frame of the same tag overwriting an earlier one. */
  function AlignmentSpec(ops: seq<Opinion>): map<string, int>
    decreases |ops|
  {
    if |ops| == 0 then map[]
    else AlignmentSpec(ops[..|ops| - 1])[ops[|ops| - 1].tf := ops[|ops| - 1].trendDir]
  }

  /** No later frame carries the tag of frame i. */
  predicate LastOfTag(ops: seq<Opinion>, i: int)
  {
    0 <= i < |ops| && forall j :: i < j < |ops| ==> ops[j].tf != ops[i].tf
  }

  /** The alignment's keys are exactly the frames' tags. */
  lemma {:induction false} AlignmentKeys(ops: seq<Opinion>)
    ensures forall k :: k in AlignmentSpec(ops) <==> exists i :: 0 <= i < |ops| && ops[i].tf == k
    decreases |ops|
  {
    if |ops| > 0 {
      var n := |ops| - 1;
      var prefix := ops[..n];
      AlignmentKeys(prefix);
      forall k | exists i :: 0 <= i < |ops| && ops[i].tf == k
        ensures k in AlignmentSpec(ops)
      {
        var i :| 0 <= i < |ops| && ops[i].tf == k;
        if i < n {
          assert prefix[i].tf == k;
        }
      }
      assert AlignmentSpec(ops) == AlignmentSpec(prefix)[ops[n].tf := ops[n].trendDir];
      forall k | k in AlignmentSpec(ops)
        ensures exists i :: 0 <= i < |ops| && ops[i].tf == k
      {
        if k != ops[n].tf {
          assert k in AlignmentSpec(prefix);
          var i :| 0 <= i < n && prefix[i].tf == k;
          assert ops[i].tf == k;
        }
      }
    }
  }

  /** Each tag maps to the trend direction of the last frame carrying it. */
  lemma {:induction false} AlignmentLast(ops: seq<Opinion>)
    ensures forall i :: LastOfTag(ops, i) ==> ops[i].tf in AlignmentSpec(ops) && AlignmentSpec(ops)[ops[i].tf] == ops[i].trendDir
    decreases |ops|
  {
    if |ops| > 0 {
      var n := |ops| - 1;
      var prefix := ops[..n];
      AlignmentLast(prefix);
      forall i | LastOfTag(ops, i)
        ensures ops[i].tf in AlignmentSpec(ops) && AlignmentSpec(ops)[ops[i].tf] == ops[i].trendDir
      {
        if i < n {
          assert prefix[i] == ops[i];
          assert LastOfTag(prefix, i);
        }
      }
    }
  }

  /** The `frameAlignment` loop. */
  method BuildAlignment(ops: seq<Opinion>) returns (m: map<string, int>)
    ensures m == AlignmentSpec(ops)
  {
    m := map[];
    for i := 0 to |ops|
      invariant m == AlignmentSpec(ops[..i])
    {
      assert ops[..i + 1][..i] == ops[..i];
      m := m[ops[i].tf := ops[i].trendDir];
    }
    assert ops[..|ops|] == ops;
  }

  /** The evidence loop: the three summary lines, then one line per frame. */
  method BuildEvidence(pos: nat, neg: nat, aligned: nat, volScore: Option<int>, ops: seq<Opinion>) returns (ev: seq<EvidenceLine>)
    ensures ev == [AlignLine(pos, neg, |ops|), StructLine(aligned, |ops|), VolLine(volScore)] + FrameLines(ops)
  {
    ev := [AlignLine(pos, neg, |ops|), StructLine(aligned, |ops|), VolLine(volScore)];
    for i := 0 to |ops|
      invariant ev == [AlignLine(pos, neg, |ops|), StructLine(aligned, |ops|), VolLine(volScore)] + FrameLines(ops[..i])
    {
      assert FrameLines(ops[..i + 1]) == FrameLines(ops[..i]) + [FrameLine(ops[i].tf, ops[i].evidences)];
      ev := ev + [FrameLine(ops[i].tf, ops[i].evidences)];
    }
    assert ops[..|ops|] == ops;
  }

  // ------------------------------------------------------------ the fusion

  /** The direction the frames agree on, against the given threshold. */
  function DirOf(ops: seq<Opinion>, alignMin: Option<real>): int
  {
    Direction(Votes(ops, 1), Votes(ops, -1), |ops|, alignMin)
  }

  /** The breakdown, None (NaN) without frames. */
  function BreakdownSpec(ops: seq<Opinion>, alignMin: Option<real>): Option<Breakdown>
  {
    if |ops| == 0 then None else Some(BreakdownOf(ops, DirOf(ops, alignMin)))
  }

  /** The score, None (NaN) without frames. */
  function ScoreSpec(ops: seq<Opinion>, cfg: Config, alignMin: Option<real>): Option<int>
  {
    if |ops| == 0 then None
    else Some(Total(cfg, BreakdownOf(ops, DirOf(ops, alignMin)), RegimeCount(ops, Volatile), |ops|))
  }

  /** Everything after the frame loop, with the direction threshold passed separately. */
  function Fuse(ops: seq<Opinion>, cfg: Config, alignMin: Option<real>): SetupScore
  {
    var dir := DirOf(ops, alignMin);
    var b := BreakdownSpec(ops, alignMin);
    var score := ScoreSpec(ops, cfg, alignMin);
    SetupScore(
      DecisionOf(score, dir),
      OverallRegime(RegimeCount(ops, Volatile), RegimeCount(ops, Range), |ops|),
      score, b,
      [AlignLine(Votes(ops, 1), Votes(ops, -1), |ops|), StructLine(Aligned(ops, dir), |ops|),
       VolLine(if b.Some? then Some(b.value.volatility) else None)] + FrameLines(ops),
      AlignmentSpec(ops))
  }

  /** The fusion as the agent runs it: counts, scores, then the evidence and alignment loops. */
  method FuseOpinions(ops: seq<Opinion>, cfg: Config, alignMin: Option<real>) returns (r: SetupScore)
    ensures r == Fuse(ops, cfg, alignMin)
  {
    var nF := |ops|;
    var pos := Votes(ops, 1);
    var neg := Votes(ops, -1);
    var dir := Direction(pos, neg, nF, alignMin);
    var aligned := Aligned(ops, dir);
    var b: Option<Breakdown> := None;
    var score: Option<int> := None;
    var volScore: Option<int> := None;
    if nF > 0 {
      var bd := BreakdownOf(ops, dir);
      b := Some(bd);
      volScore := Some(bd.volatility);
      score := Some(Total(cfg, bd, RegimeCount(ops, Volatile), nF));
    }
    var regime := OverallRegime(RegimeCount(ops, Volatile), RegimeCount(ops, Range), nF);
    var decision := DecisionOf(score, dir);
    var evidence := BuildEvidence(pos, neg, aligned, volScore, ops);
    var alignment := BuildAlignment(ops);
    r := SetupScore(decision, regime, score, b, evidence, alignment);
  }

  // ------------------------------------------------------------ properties of the fusion

  /** With no frames nothing is scored: neutral, trend, NaN score and breakdown, empty alignment. */
  lemma FuseNoFrames(cfg: Config, alignMin: Option<real>)
    ensures var r := Fuse([], cfg, alignMin);
            && r.decision == Neutral && r.regime == Trend && r.score.None? && r.breakdown.None?
            && r.evidence == [AlignLine(0, 0, 0), StructLine(0, 0), VolLine(None)] && r.frameAlignment == map[]
  {
  }

  /**
   * The sub-scores are percentages: trend and structure in [0, 100], and
   * volatility in [30, 100] because every frame's ease is in [0.3, 1].
   */
  lemma BreakdownBounds(ops: seq<Opinion>, dir: int)
    requires |ops| > 0 && forall i :: 0 <= i < |ops| ==> WellFormedOpinion(ops[i])
    ensures var b := BreakdownOf(ops, dir);
            && 0 <= b.trend <= 100 && 0 <= b.structure <= 100 && 30 <= b.volatility <= 100
  {
    var n := |ops|;
    var pos, neg := Votes(ops, 1), Votes(ops, -1);
    PercentBounds(Max(pos as real, neg as real), n, 0, 100);
    PercentBounds(Aligned(ops, dir) as real, n, 0, 100);
    var e := Eases(ops);
    forall k | 0 <= k < |e|
      ensures 0.3 <= e[k] <= 1.0
    {
      assert WellFormedOpinion(ops[k]);
    }
    SumBounds(e, 0.3, 1.0);
    PercentBounds(Sum(e), n, 30, 100);
  }

  /** Adding three inequalities. */
  lemma AddThree(a1: real, b1: real, a2: real, b2: real, a3: real, b3: real)
    requires a1 <= b1 && a2 <= b2 && a3 <= b3
    ensures a1 + a2 + a3 <= b1 + b2 + b3
  {
  }

  /** A weighted sum of three values in [0, hi] under non-negative weights summing to 1 stays in [0, hi]. */
  lemma WeightedBounds(wt: real, ws: real, wv: real, t: real, s: real, v: real, hi: real)
    requires wt >= 0.0 && ws >= 0.0 && wv >= 0.0 && wt + ws + wv == 1.0
    requires 0.0 <= t <= hi && 0.0 <= s <= hi && 0.0 <= v <= hi
    ensures 0.0 <= wt * t + ws * s + wv * v <= hi
  {
    MulNonNeg(wt, t);
    MulNonNeg(ws, s);
    MulNonNeg(wv, v);
    AddThree(0.0, wt * t, 0.0, ws * s, 0.0, wv * v);
    MulMonotone(wt, t, hi);
    MulMonotone(ws, s, hi);
    MulMonotone(wv, v, hi);
    AddThree(wt * t, wt * hi, ws * s, ws * hi, wv * v, wv * hi);
    assert wt * hi + ws * hi + wv * hi == (wt + ws + wv) * hi;
  }

  /** Non-negative weights summing to 1 keep the weighted score in [0, 100]. */
  lemma TotalBounds(cfg: Config, b: Breakdown, volatile: nat, nF: nat)
    requires nF > 0
    requires 0 <= b.trend <= 100 && 0 <= b.structure <= 100 && 0 <= b.volatility <= 100
    requires cfg.wTrend >= 0.0 && cfg.wStructure >= 0.0 && cfg.wVolatility >= 0.0
    requires cfg.wTrend + cfg.wStructure + cfg.wVolatility == 1.0
    ensures 0 <= Total(cfg, b, volatile, nF) <= 100
  {
    assert 0.0 <= Weighted(cfg, b) <= 100.0 by {
      WeightedBounds(cfg.wTrend, cfg.wStructure, cfg.wVolatility, b.trend as real, b.structure as real, b.volatility as real, 100.0);
    }
    RoundBounds(Weighted(cfg, b), 0, 100);
  }

  /** When more than half the frames are volatile the score is at most 70. */
  lemma VolatileCap(cfg: Config, b: Breakdown, volatile: nat, nF: nat)
    requires nF > 0 && 2 * volatile > nF
    ensures Total(cfg, b, volatile, nF) <= 70
  {
    RatioAbove(volatile as real, nF as real, 0.5);
  }

  /** The overall regime is volatile on a strict volatile majority, else range on a strict range majority, else trend. */
  lemma OverallRegimeMeaning(ops: seq<Opinion>)
    ensures var volatile, range, nF := RegimeCount(ops, Volatile), RegimeCount(ops, Range), |ops|;
            && (OverallRegime(volatile, range, nF) == Volatile <==> 2 * volatile > nF)
            && (OverallRegime(volatile, range, nF) == Range <==> 2 * volatile <= nF && 2 * range > nF)
  {
    var volatile, range, nF := RegimeCount(ops, Volatile), RegimeCount(ops, Range), |ops|;
    if nF > 0 {
      RatioAbove(volatile as real, nF as real, 0.5);
      RatioAbove(range as real, nF as real, 0.5);
    }
  }

  /** A decision is taken exactly when the score reaches 65 and the frames agree on a direction. */
  lemma DecisionMeaning(ops: seq<Opinion>, cfg: Config, alignMin: Option<real>)
    ensures var r := Fuse(ops, cfg, alignMin);
            && (r.decision == Long <==> r.score.Some? && r.score.value >= 65 && DirOf(ops, alignMin) == 1)
            && (r.decision == Short <==> r.score.Some? && r.score.value >= 65 && DirOf(ops, alignMin) == -1)
            && (r.decision != Neutral ==> |ops| > 0)
  {
  }

  /**
   * Scores of well-formed frames under convex weights: every sub-score a
   * percentage, the score in [0, 100], at most 70 on a volatile majority,
   * and the regime volatile exactly on that majority.
   */
  lemma FuseBounds(ops: seq<Opinion>, cfg: Config, alignMin: Option<real>)
    requires |ops| > 0 && forall i :: 0 <= i < |ops| ==> WellFormedOpinion(ops[i])
    requires cfg.wTrend >= 0.0 && cfg.wStructure >= 0.0 && cfg.wVolatility >= 0.0
    requires cfg.wTrend + cfg.wStructure + cfg.wVolatility == 1.0
    ensures var r := Fuse(ops, cfg, alignMin);
            && r.score.Some? && r.breakdown.Some?
            && 0 <= r.breakdown.value.trend <= 100 && 0 <= r.breakdown.value.structure <= 100
            && 30 <= r.breakdown.value.volatility <= 100
            && 0 <= r.score.value <= 100
            && (r.regime == Volatile <==> 2 * RegimeCount(ops, Volatile) > |ops|)
            && (r.regime == Volatile ==> r.score.value <= 70)
  {
    var dir := DirOf(ops, alignMin);
    var b := BreakdownOf(ops, dir);
    BreakdownBounds(ops, dir);
    TotalBounds(cfg, b, RegimeCount(ops, Volatile), |ops|);
    OverallRegimeMeaning(ops);
    if 2 * RegimeCount(ops, Volatile) > |ops| {
      VolatileCap(cfg, b, RegimeCount(ops, Volatile), |ops|);
    }
  }

  /**
   * With a threshold of at most 1, frames that all vote long give the
   * long direction and a trend sub-score of 100.
   */
  lemma UnanimousLong(ops: seq<Opinion>, a: real)
    requires |ops| > 0 && forall i :: 0 <= i < |ops| ==> ops[i].trendDir == 1
    requires a <= 1.0
    ensures DirOf(ops, Some(a)) == 1
    ensures BreakdownOf(ops, 1).trend == 100
  {
    CountExtremes(ops, TrendIs(1));
    VotesWithin(ops);
    var n := |ops| as real;
    DivSelf(n);
    assert Max(Votes(ops, 1) as real, Votes(ops, -1) as real) == n;
  }
}
