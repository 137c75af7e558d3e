/**
 * `taSetupAgent`: parse the configuration, form one opinion per frame in
 * order (the first frame that throws ends the run), then fuse them.  The
 * direction threshold is read from the caller's raw `config`, not from the
 * parsed one: with no `config` at all that read throws, and without an
 * `alignMin` the comparison is against `undefined` and always false.
 */
module SetupAgent {
  import opened Wrappers
  import opened Numeric
  import opened Indicators
  import opened SetupFrame
  import opened FrameEngine
  import opened SetupFusion
  import opened Gathering

  /** `TASetupInput` as the caller passes it. */
  datatype AgentInput = AgentInput(symbol: string, frames: seq<Frame>, config: Option<RawConfig>)

  /** The per-frame results, in order. */
  function FrameResults(defs: map<IndicatorName, IndicatorDef>, cfg: Config, frames: seq<Frame>): (r: seq<Result<Opinion, AgentError>>)
    ensures |r| == |frames| && forall i :: 0 <= i < |frames| ==> r[i] == FrameSpec(defs, cfg, frames[i])
  {
    seq(|frames|, i requires 0 <= i < |frames| => FrameSpec(defs, cfg, frames[i]))
  }

  /** The frame loop: every frame's opinion in order, or the error of the first frame that throws. */
  function OpinionsSpec(defs: map<IndicatorName, IndicatorDef>, cfg: Config, frames: seq<Frame>): Result<seq<Opinion>, AgentError>
  {
    Gather(FrameResults(defs, cfg, frames))
  }

  /** What the agent returns or throws. */
  function AgentSpec(defs: map<IndicatorName, IndicatorDef>, input: AgentInput): Result<SetupScore, AgentError>
  {
    var cfg := ParseConfig(input.config);
    var ops :- OpinionsSpec(defs, cfg, input.frames);
    if input.config.None? then Err(MissingConfig)
    else Ok(Fuse(ops, cfg, input.config.value.alignMin))
  }

  /** The frame loop of `taSetupAgent`: one opinion per frame, in order; the first frame that throws ends it. */
  method FrameOpinions(reg: Registry, cfg: Config, frames: seq<Frame>) returns (res: Result<seq<Opinion>, AgentError>)
    ensures res == OpinionsSpec(reg.defs, cfg, frames)
  {
    ghost var rs := FrameResults(reg.defs, cfg, frames);
    var ops: seq<Opinion> := [];
    for i := 0 to |frames|
      invariant Gather(rs[..i]) == Ok(ops)
    {
      var o := FrameOpinion(reg, cfg, frames[i]);
      assert rs[i] == o;
      if o.Err? {
        GatherStop(rs, i);
        return Err(o.error);
      }
      GatherPush(rs, i, ops);
      ops := ops + [o.value];
    }
    assert rs[..|rs|] == rs;
    res := Ok(ops);
  }

  /** `taSetupAgent` on the given registry. */
  method TaSetupAgent(reg: Registry, input: AgentInput) returns (res: Result<SetupScore, AgentError>)
    ensures res == AgentSpec(reg.defs, input)
  {
    var cfg := ParseConfig(input.config);
    var ops := FrameOpinions(reg, cfg, input.frames);
    if ops.Err? {
      return Err(ops.error);
    }
    if input.config.None? {
      return Err(MissingConfig);
    }
    var score := FuseOpinions(ops.value, cfg, input.config.value.alignMin);
    res := Ok(score);
  }

  // ------------------------------------------------------------ properties of the agent

  /** An opinion is well formed and carries its frame's tag, whatever lines it is formed from. */
  lemma OpinionOfWellFormed(f: Frame, cfg: Config, hma: seq<Num>, kama: seq<Num>, atr: seq<Num>, bbW: seq<Num>, st: seq<Num>)
    ensures WellFormedOpinion(OpinionOf(f, cfg, hma, kama, atr, bbW, st)) && OpinionOf(f, cfg, hma, kama, atr, bbW, st).tf == f.tf
  {
  }

  /** Every opinion a frame yields is well formed and carries the frame's tag. */
  lemma FrameOpinionWellFormed(defs: map<IndicatorName, IndicatorDef>, cfg: Config, f: Frame)
    requires FrameSpec(defs, cfg, f).Ok?
    ensures WellFormedOpinion(FrameSpec(defs, cfg, f).value) && FrameSpec(defs, cfg, f).value.tf == f.tf
  {
    var out := ComputeIndicatorsSpec(defs, EngineInput(cfg, f)).value.outputs;
    var hma := Line(out, HmaKey(cfg.hmaLen.Floor), IsInt(cfg.hmaLen)).value;
    var kama := Line(out, KamaKey(cfg.kamaLen.Floor), IsInt(cfg.kamaLen)).value;
    var st := Line(out, StTrendKey, true).value;
    var atr := Line(out, AtrKey(cfg.atrLen.Floor), IsInt(cfg.atrLen)).value;
    var bbW := Line(out, BbWidthKey(cfg.bbLen.Floor), IsInt(cfg.bbLen)).value;
    assert FrameSpec(defs, cfg, f) == Ok(OpinionOf(f, cfg, hma, kama, atr, bbW, st));
    OpinionOfWellFormed(f, cfg, hma, kama, atr, bbW, st);
  }

  /**
   * Scores of a successful run on at least one frame under convex weights:
   * sub-scores are percentages (volatility at least 30), the score is in
   * [0, 100], and a volatile majority caps it at 70.
   */
  lemma AgentScoreBounds(defs: map<IndicatorName, IndicatorDef>, input: AgentInput)
    requires AgentSpec(defs, input).Ok? && |input.frames| > 0
    requires var cfg := ParseConfig(input.config);
             cfg.wTrend >= 0.0 && cfg.wStructure >= 0.0 && cfg.wVolatility >= 0.0 &&
             cfg.wTrend + cfg.wStructure + cfg.wVolatility == 1.0
    ensures var r := AgentSpec(defs, input).value;
            && r.score.Some? && r.breakdown.Some?
            && 0 <= r.breakdown.value.trend <= 100 && 0 <= r.breakdown.value.structure <= 100
            && 30 <= r.breakdown.value.volatility <= 100
            && 0 <= r.score.value <= 100
            && (r.regime == Volatile ==> r.score.value <= 70)
  {
    var cfg := ParseConfig(input.config);
    GatherOk(FrameResults(defs, cfg, input.frames));
    var ops := OpinionsSpec(defs, cfg, input.frames).value;
    forall i | 0 <= i < |ops|
      ensures WellFormedOpinion(ops[i])
    {
      FrameOpinionWellFormed(defs, cfg, input.frames[i]);
    }
    FuseBounds(ops, cfg, input.config.value.alignMin);
  }

  /**
   * With the built-in registry the agent throws exactly when there is a
   * frame and a configured length is rejected (the engine's error on the
   * first frame), or when `config` is missing; otherwise it scores.
   */
  lemma AgentWithBuiltins(input: AgentInput)
    ensures var cfg := ParseConfig(input.config);
            var r := AgentSpec(BuiltinDefs(), input);
            && (r.Err? <==> (|input.frames| > 0 && !LengthsAccepted(cfg)) || input.config.None?)
            && (r.Err? && |input.frames| > 0 && !LengthsAccepted(cfg) ==> r.error == EngineFailed(InvalidParam("length")))
            && (r.Err? && (|input.frames| == 0 || LengthsAccepted(cfg)) ==> r.error == MissingConfig)
  {
    var defs, cfg := BuiltinDefs(), ParseConfig(input.config);
    var rs := FrameResults(defs, cfg, input.frames);
    GatherFirstFailure(rs);
    forall i | 0 <= i < |input.frames|
      ensures FrameSpec(defs, cfg, input.frames[i]).Ok? <==> LengthsAccepted(cfg)
      ensures FrameSpec(defs, cfg, input.frames[i]).Err? ==> FrameSpec(defs, cfg, input.frames[i]).error == EngineFailed(InvalidParam("length"))
    {
      FrameWithBuiltins(cfg, input.frames[i]);
    }
    if OpinionsSpec(defs, cfg, input.frames).Err? {
      var i :| FailsFirstAt(rs, i, Gather(rs).error);
    } else if |input.frames| > 0 {
      assert FrameSpec(defs, cfg, input.frames[0]).Ok?;
    }
  }

  // ------------------------------------------------------------ the direction threshold

  /**
   * As written: when the caller's `config` has no `alignMin`, the frames
   * never agree on a direction, so the decision is neutral whatever the
   * score, although the parsed configuration holds the default 0.67.
   */
  lemma AsWrittenNeverDecides(defs: map<IndicatorName, IndicatorDef>, input: AgentInput)
    requires input.config.Some? && input.config.value.alignMin.None?
    requires AgentSpec(defs, input).Ok?
    ensures AgentSpec(defs, input).value.decision == Neutral
    ensures ParseConfig(input.config).alignMin == 0.67
  {
  }

  /** One long, well-structured, trending frame. */
  function BullishFrame(): Opinion
  {
    Opinion("1h", 1, 1, Trend, RegEase(Trend), [TrendEvidence(1), StructEvidence(1), RegimeEvidence(Trend, None, None)])
  }

  /**
   * The same bullish frame scores 100 under the default configuration, yet
   * the threshold as read gives a neutral decision while the parsed
   * threshold gives a long one.
   */
  lemma AlignMinExample()
    ensures Fuse([BullishFrame()], DefaultConfig(), None).score == Some(100)
    ensures Fuse([BullishFrame()], DefaultConfig(), None).decision == Neutral
    ensures Fuse([BullishFrame()], DefaultConfig(), Some(DefaultConfig().alignMin)).decision == Long
  {
    var ops := [BullishFrame()];
    assert ops[..0] == [];
    assert Votes(ops, 1) == 1 && Votes(ops, -1) == 0;
    assert Aligned(ops, 0) == 1 && Aligned(ops, 1) == 1;
    assert RegimeCount(ops, Volatile) == 0;
    assert Sum(Eases(ops)) == 1.0 by {
      assert Eases(ops)[..0] == [];
    }
  }

  /** The agent with the threshold taken from the parsed configuration, so a missing `config` or `alignMin` takes the default. */
  function CorrectedAgentSpec(defs: map<IndicatorName, IndicatorDef>, input: AgentInput): Result<SetupScore, AgentError>
  {
    var cfg := ParseConfig(input.config);
    var ops :- OpinionsSpec(defs, cfg, input.frames);
    Ok(Fuse(ops, cfg, Some(cfg.alignMin)))
  }

  /** Every frame yields an opinion that votes long. */
  ghost predicate AllFramesLong(defs: map<IndicatorName, IndicatorDef>, cfg: Config, frames: seq<Frame>)
  {
    forall i :: 0 <= i < |frames| ==> FrameSpec(defs, cfg, frames[i]).Ok? && FrameSpec(defs, cfg, frames[i]).value.trendDir == 1
  }

  /**
   * Corrected: the run fails only when a frame does, and when every frame
   * votes long and the score reaches 65 the decision is long, whenever the
   * threshold is at most 1 (the default is 0.67).
   */
  lemma CorrectedUnanimousLong(defs: map<IndicatorName, IndicatorDef>, input: AgentInput)
    ensures CorrectedAgentSpec(defs, input).Ok? <==> OpinionsSpec(defs, ParseConfig(input.config), input.frames).Ok?
    ensures var cfg := ParseConfig(input.config);
            var r := CorrectedAgentSpec(defs, input);
            r.Ok? && |input.frames| > 0 && cfg.alignMin <= 1.0 && AllFramesLong(defs, cfg, input.frames) &&
            r.value.score.Some? && r.value.score.value >= 65
            ==> r.value.decision == Long
  {
    var cfg := ParseConfig(input.config);
    if OpinionsSpec(defs, cfg, input.frames).Ok? && |input.frames| > 0 && cfg.alignMin <= 1.0 &&
       AllFramesLong(defs, cfg, input.frames) {
      GatherOk(FrameResults(defs, cfg, input.frames));
      var ops := OpinionsSpec(defs, cfg, input.frames).value;
      forall i | 0 <= i < |ops|
        ensures ops[i].trendDir == 1
      {
        assert FrameSpec(defs, cfg, input.frames[i]) == Ok(ops[i]);
      }
      UnanimousLong(ops, cfg.alignMin);
      DecisionMeaning(ops, cfg, Some(cfg.alignMin));
    }
  }
}
