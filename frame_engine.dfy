/**
 * What the engine hands one frame of the setup scorer when the registry
 * holds the six built-in indicators: each of the frame's six requests
 * resolved on its own, then the five lines the frame reads.
 */
module FrameEngine {
  import opened Wrappers
  import opened Numeric
  import opened Series
  import opened Hma
  import opened Kama
  import opened Atr
  import opened Rsi
  import opened Bollinger
  import opened Supertrend
  import opened Indicators
  import opened SetupFrame
  import opened SetupHelpers

  /** The four configured lengths the engine checks: integers, at least 2 (at least 1 for ATR). */
  predicate LengthsAccepted(cfg: Config)
  {
    IsInt(cfg.hmaLen) && cfg.hmaLen >= 2.0 && IsInt(cfg.kamaLen) && cfg.kamaLen >= 2.0 &&
    IsInt(cfg.atrLen) && cfg.atrLen >= 1.0 && IsInt(cfg.bbLen) && cfg.bbLen >= 2.0
  }

  /** The series the engine builds from the frame's candles with `price: 'close'`. */
  lemma EngineSeriesOfFrame(cfg: Config, f: Frame)
    ensures EngineSeries(EngineInput(cfg, f)) == ToSeriesSpec(f.candles)
    ensures ToSeriesSpec(f.candles).close == Closes(f.candles)
  {
  }

  /** The frame's HMA request resolves exactly when its length is an integer of at least 2. */
  lemma HmaRequest(cfg: Config)
    ensures |FrameRequests(cfg)| == 6
    ensures Resolve(BuiltinDefs(), FrameRequests(cfg)[0]) ==
              if IsInt(cfg.hmaLen) && cfg.hmaLen >= 2.0 then Ok(HmaParams(cfg.hmaLen.Floor)) else Err(InvalidParam("length"))
  {
    assert HmaName in BuiltinDefs();
  }

  /** The frame's KAMA request resolves exactly when its length is an integer of at least 2; fast and slow keep 2 and 30. */
  lemma KamaRequest(cfg: Config)
    ensures |FrameRequests(cfg)| == 6
    ensures Resolve(BuiltinDefs(), FrameRequests(cfg)[1]) ==
              if IsInt(cfg.kamaLen) && cfg.kamaLen >= 2.0 then Ok(KamaParams(cfg.kamaLen.Floor, 2, 30)) else Err(InvalidParam("length"))
  {
    assert KamaName in BuiltinDefs();
  }

  /** The frame's ATR request resolves exactly when its length is an integer of at least 1. */
  lemma AtrRequest(cfg: Config)
    ensures |FrameRequests(cfg)| == 6
    ensures Resolve(BuiltinDefs(), FrameRequests(cfg)[2]) ==
              if IsInt(cfg.atrLen) && cfg.atrLen >= 1.0 then Ok(AtrParams(cfg.atrLen.Floor)) else Err(InvalidParam("length"))
  {
    assert AtrName in BuiltinDefs();
  }

  /** The frame's Bollinger request resolves exactly when its length is an integer of at least 2. */
  lemma BbRequest(cfg: Config)
    ensures |FrameRequests(cfg)| == 6
    ensures Resolve(BuiltinDefs(), FrameRequests(cfg)[3]) ==
              if IsInt(cfg.bbLen) && cfg.bbLen >= 2.0 then Ok(BbParams(cfg.bbLen.Floor, 2.0)) else Err(InvalidParam("length"))
  {
    assert BbName in BuiltinDefs();
  }

  /** The frame's RSI request always resolves. */
  lemma RsiRequest(cfg: Config)
    ensures |FrameRequests(cfg)| == 6
    ensures Resolve(BuiltinDefs(), FrameRequests(cfg)[4]) == Ok(RsiParams(14))
  {
    assert RsiName in BuiltinDefs();
  }

  /** The frame's Supertrend request resolves exactly when its ATR length is an integer of at least 1. */
  lemma SupertrendRequest(cfg: Config)
    ensures |FrameRequests(cfg)| == 6
    ensures Resolve(BuiltinDefs(), FrameRequests(cfg)[5]) ==
              if IsInt(cfg.atrLen) && cfg.atrLen >= 1.0 then Ok(StParams(cfg.atrLen.Floor, 3.0)) else Err(InvalidParam("atrLen"))
  {
    assert SupertrendName in BuiltinDefs();
  }

  /** With accepted lengths every request resolves, so the request loop succeeds. */
  lemma FrameAccepted(cfg: Config, s: Series)
    requires WellFormed(s) && LengthsAccepted(cfg)
    ensures Steps(BuiltinDefs(), s, FrameRequests(cfg)).Ok?
  {
    var defs, reqs := BuiltinDefs(), FrameRequests(cfg);
    HmaRequest(cfg); KamaRequest(cfg); AtrRequest(cfg); BbRequest(cfg); RsiRequest(cfg); SupertrendRequest(cfg);
    StepsAllResolve(defs, s, reqs);
    forall j | 0 <= j < |reqs|
      ensures Resolve(defs, reqs[j]).Ok?
    {
      if j == 0 {} else if j == 1 {} else if j == 2 {} else if j == 3 {} else if j == 4 {} else {}
    }
  }

  /** With a rejected length one of the first four requests fails to resolve. */
  lemma FrameRejectedFails(cfg: Config, s: Series)
    requires WellFormed(s) && !LengthsAccepted(cfg)
    ensures Steps(BuiltinDefs(), s, FrameRequests(cfg)).Err?
  {
    var defs, reqs := BuiltinDefs(), FrameRequests(cfg);
    HmaRequest(cfg); KamaRequest(cfg); AtrRequest(cfg); BbRequest(cfg);
    StepsAllResolve(defs, s, reqs);
    assert !(Resolve(defs, reqs[0]).Ok? && Resolve(defs, reqs[1]).Ok? &&
             Resolve(defs, reqs[2]).Ok? && Resolve(defs, reqs[3]).Ok?);
  }

  /** With a rejected length the first failing request is one checked under the key `length`. */
  lemma FrameRejected(cfg: Config, s: Series)
    requires WellFormed(s) && !LengthsAccepted(cfg)
    ensures Steps(BuiltinDefs(), s, FrameRequests(cfg)) == Err(InvalidParam("length"))
  {
    var defs, reqs := BuiltinDefs(), FrameRequests(cfg);
    FrameRejectedFails(cfg, s);
    StepsFirstFailure(defs, s, reqs);
    var j :| RejectsFirstAt(defs, reqs, j, Steps(defs, s, reqs).error);
    if j == 0 {
      HmaRequest(cfg);
    } else if j == 1 {
      KamaRequest(cfg);
    } else if j == 2 {
      AtrRequest(cfg);
    } else if j == 3 {
      BbRequest(cfg);
    } else if j == 4 {
      RsiRequest(cfg);
    } else {
      AtrRequest(cfg);
      SupertrendRequest(cfg);
    }
  }

  /** The frame's request loop succeeds exactly when the lengths are accepted, and otherwise rejects a `length`. */
  lemma FrameSteps(cfg: Config, s: Series)
    requires WellFormed(s)
    ensures var r := Steps(BuiltinDefs(), s, FrameRequests(cfg));
            && (r.Ok? <==> LengthsAccepted(cfg))
            && (r.Err? ==> r.error == InvalidParam("length"))
  {
    if LengthsAccepted(cfg) {
      FrameAccepted(cfg, s);
    } else {
      FrameRejected(cfg, s);
    }
  }

  /** The six steps of an accepted frame. */
  function AcceptedSteps(cfg: Config, s: Series): (r: seq<Step>)
    requires WellFormed(s) && LengthsAccepted(cfg)
    ensures |r| == 6
  {
    FrameAccepted(cfg, s);
    StepsOk(BuiltinDefs(), s, FrameRequests(cfg));
    Steps(BuiltinDefs(), s, FrameRequests(cfg)).value
  }

  /** Step 0 of an accepted frame outputs the HMA line under its configured length. */
  lemma Step0Output(cfg: Config, s: Series)
    requires WellFormed(s) && LengthsAccepted(cfg)
    ensures AcceptedSteps(cfg, s)[0].computed.output == map[HmaKey(cfg.hmaLen.Floor) := HmaSpec(s.close, cfg.hmaLen.Floor)]
  {
    var defs, reqs := BuiltinDefs(), FrameRequests(cfg);
    FrameAccepted(cfg, s);
    StepsOk(defs, s, reqs);
    HmaRequest(cfg);
    StepResolved(defs, s, reqs[0], HmaParams(cfg.hmaLen.Floor));
    assert defs[reqs[0].name].kind == HmaName;
  }

  /** Step 1 of an accepted frame outputs the KAMA line under its configured length. */
  lemma Step1Output(cfg: Config, s: Series)
    requires WellFormed(s) && LengthsAccepted(cfg)
    ensures AcceptedSteps(cfg, s)[1].computed.output == map[KamaKey(cfg.kamaLen.Floor) := KamaSpec(s.close, cfg.kamaLen.Floor, 2, 30)]
    ensures AcceptedSteps(cfg, s)[1].computed.output.Keys == {KamaKey(cfg.kamaLen.Floor)}
  {
    var defs, reqs := BuiltinDefs(), FrameRequests(cfg);
    FrameAccepted(cfg, s);
    StepsOk(defs, s, reqs);
    KamaRequest(cfg);
    StepResolved(defs, s, reqs[1], KamaParams(cfg.kamaLen.Floor, 2, 30));
    assert defs[reqs[1].name].kind == KamaName;
  }

  /** Step 2 of an accepted frame outputs the ATR line under its configured length. */
  lemma Step2Output(cfg: Config, s: Series)
    requires WellFormed(s) && LengthsAccepted(cfg)
    ensures AcceptedSteps(cfg, s)[2].computed.output == map[AtrKey(cfg.atrLen.Floor) := AtrSpec(s, cfg.atrLen.Floor)]
    ensures AcceptedSteps(cfg, s)[2].computed.output.Keys == {AtrKey(cfg.atrLen.Floor)}
  {
    var defs, reqs := BuiltinDefs(), FrameRequests(cfg);
    FrameAccepted(cfg, s);
    StepsOk(defs, s, reqs);
    AtrRequest(cfg);
    StepResolved(defs, s, reqs[2], AtrParams(cfg.atrLen.Floor));
    assert defs[reqs[2].name].kind == AtrName;
  }

  /** Step 3 of an accepted frame outputs the four Bollinger lines. */
  lemma Step3Output(cfg: Config, s: Series)
    requires WellFormed(s) && LengthsAccepted(cfg)
    ensures AcceptedSteps(cfg, s)[3].computed.output == ComputeSpec(BbName, s, BbParams(cfg.bbLen.Floor, 2.0)).output
    ensures AcceptedSteps(cfg, s)[3].computed.output.Keys == {BbMidKey(cfg.bbLen.Floor), BbUpKey(cfg.bbLen.Floor, 2.0), BbDnKey(cfg.bbLen.Floor, 2.0), BbWidthKey(cfg.bbLen.Floor)}
  {
    var defs, reqs := BuiltinDefs(), FrameRequests(cfg);
    FrameAccepted(cfg, s);
    StepsOk(defs, s, reqs);
    BbRequest(cfg);
    StepResolved(defs, s, reqs[3], BbParams(cfg.bbLen.Floor, 2.0));
    assert defs[reqs[3].name].kind == BbName;
  }

  /** Step 4 of an accepted frame outputs the RSI line of length 14. */
  lemma Step4Output(cfg: Config, s: Series)
    requires WellFormed(s) && LengthsAccepted(cfg)
    ensures AcceptedSteps(cfg, s)[4].computed.output == map[RsiKey(14) := RsiSpec(s.close, 14)]
    ensures AcceptedSteps(cfg, s)[4].computed.output.Keys == {RsiKey(14)}
  {
    var defs, reqs := BuiltinDefs(), FrameRequests(cfg);
    FrameAccepted(cfg, s);
    StepsOk(defs, s, reqs);
    RsiRequest(cfg);
    StepResolved(defs, s, reqs[4], RsiParams(14));
    assert defs[reqs[4].name].kind == RsiName;
  }

  /** Step 5 of an accepted frame outputs the three Supertrend lines. */
  lemma Step5Output(cfg: Config, s: Series)
    requires WellFormed(s) && LengthsAccepted(cfg)
    ensures AcceptedSteps(cfg, s)[5].computed.output == ComputeSpec(SupertrendName, s, StParams(cfg.atrLen.Floor, 3.0)).output
    ensures AcceptedSteps(cfg, s)[5].computed.output.Keys == {StTrendKey, StUpperKey, StLowerKey}
  {
    var defs, reqs := BuiltinDefs(), FrameRequests(cfg);
    FrameAccepted(cfg, s);
    StepsOk(defs, s, reqs);
    SupertrendRequest(cfg);
    StepResolved(defs, s, reqs[5], StParams(cfg.atrLen.Floor, 3.0));
    assert defs[reqs[5].name].kind == SupertrendName;
  }

  /** Every step of an accepted frame. */
  lemma StepOutputs(cfg: Config, s: Series)
    requires WellFormed(s) && LengthsAccepted(cfg)
    ensures AcceptedSteps(cfg, s)[0].computed.output == map[HmaKey(cfg.hmaLen.Floor) := HmaSpec(s.close, cfg.hmaLen.Floor)]
    ensures AcceptedSteps(cfg, s)[1].computed.output == map[KamaKey(cfg.kamaLen.Floor) := KamaSpec(s.close, cfg.kamaLen.Floor, 2, 30)]
    ensures AcceptedSteps(cfg, s)[2].computed.output == map[AtrKey(cfg.atrLen.Floor) := AtrSpec(s, cfg.atrLen.Floor)]
    ensures AcceptedSteps(cfg, s)[3].computed.output == ComputeSpec(BbName, s, BbParams(cfg.bbLen.Floor, 2.0)).output
    ensures AcceptedSteps(cfg, s)[4].computed.output == map[RsiKey(14) := RsiSpec(s.close, 14)]
    ensures AcceptedSteps(cfg, s)[5].computed.output == ComputeSpec(SupertrendName, s, StParams(cfg.atrLen.Floor, 3.0)).output
  {
    Step0Output(cfg, s); Step1Output(cfg, s); Step2Output(cfg, s);
    Step3Output(cfg, s); Step4Output(cfg, s); Step5Output(cfg, s);
  }

  /** An accepted frame reads the HMA line from the step that produced it. */
  lemma HmaLine(cfg: Config, s: Series)
    requires WellFormed(s) && LengthsAccepted(cfg)
    ensures Line(Fold(AcceptedSteps(cfg, s)).outputs, HmaKey(cfg.hmaLen.Floor), IsInt(cfg.hmaLen)) == Ok(HmaSpec(s.close, cfg.hmaLen.Floor))
  {
    var steps, k := AcceptedSteps(cfg, s), HmaKey(cfg.hmaLen.Floor);
    Step0Output(cfg, s); Step1Output(cfg, s); Step2Output(cfg, s); Step3Output(cfg, s); Step4Output(cfg, s); Step5Output(cfg, s);
    forall j | 0 < j < 6
      ensures k !in steps[j].computed.output
    {
      if j == 1 {} else if j == 2 {} else if j == 3 {} else if j == 4 {} else {}
    }
    FoldLastProducer(steps, 0, k);
  }

  /** An accepted frame reads the KAMA line from the step that produced it. */
  lemma KamaLine(cfg: Config, s: Series)
    requires WellFormed(s) && LengthsAccepted(cfg)
    ensures Line(Fold(AcceptedSteps(cfg, s)).outputs, KamaKey(cfg.kamaLen.Floor), IsInt(cfg.kamaLen)) == Ok(KamaSpec(s.close, cfg.kamaLen.Floor, 2, 30))
  {
    var steps, k := AcceptedSteps(cfg, s), KamaKey(cfg.kamaLen.Floor);
    Step1Output(cfg, s); Step2Output(cfg, s); Step3Output(cfg, s); Step4Output(cfg, s); Step5Output(cfg, s);
    forall j | 1 < j < 6
      ensures k !in steps[j].computed.output
    {
      if j == 2 {} else if j == 3 {} else if j == 4 {} else {}
    }
    FoldLastProducer(steps, 1, k);
  }

  /** An accepted frame reads the ATR line from the step that produced it. */
  lemma AtrLine(cfg: Config, s: Series)
    requires WellFormed(s) && LengthsAccepted(cfg)
    ensures Line(Fold(AcceptedSteps(cfg, s)).outputs, AtrKey(cfg.atrLen.Floor), IsInt(cfg.atrLen)) == Ok(AtrSpec(s, cfg.atrLen.Floor))
  {
    var steps, k := AcceptedSteps(cfg, s), AtrKey(cfg.atrLen.Floor);
    Step2Output(cfg, s); Step3Output(cfg, s); Step4Output(cfg, s); Step5Output(cfg, s);
    forall j | 2 < j < 6
      ensures k !in steps[j].computed.output
    {
      if j == 3 {} else if j == 4 {} else {}
    }
    FoldLastProducer(steps, 2, k);
  }

  /** An accepted frame reads the Bollinger width from the step that produced it. */
  lemma BbWidthLine(cfg: Config, s: Series)
    requires WellFormed(s) && LengthsAccepted(cfg)
    ensures Line(Fold(AcceptedSteps(cfg, s)).outputs, BbWidthKey(cfg.bbLen.Floor), IsInt(cfg.bbLen)) == Ok(BandsSpec(s.close, cfg.bbLen.Floor, 2.0).width)
  {
    var steps, k := AcceptedSteps(cfg, s), BbWidthKey(cfg.bbLen.Floor);
    Step3Output(cfg, s); Step4Output(cfg, s); Step5Output(cfg, s);
    forall j | 3 < j < 6
      ensures k !in steps[j].computed.output
    {
      if j == 4 {} else {}
    }
    FoldLastProducer(steps, 3, k);
  }

  /** An accepted frame reads the Supertrend direction from the step that produced it. */
  lemma StTrendLine(cfg: Config, s: Series)
    requires WellFormed(s) && LengthsAccepted(cfg)
    ensures Line(Fold(AcceptedSteps(cfg, s)).outputs, StTrendKey, true) == Ok(SupertrendSpec(s, cfg.atrLen.Floor, 3.0).trend)
  {
    Step5Output(cfg, s);
    FoldLastProducer(AcceptedSteps(cfg, s), 5, StTrendKey);
  }

  /** Reading the five lines off the tables of an accepted frame. */
  lemma FrameLines(cfg: Config, s: Series)
    requires WellFormed(s) && LengthsAccepted(cfg)
    ensures var out := Fold(AcceptedSteps(cfg, s)).outputs;
            && Line(out, HmaKey(cfg.hmaLen.Floor), IsInt(cfg.hmaLen)) == Ok(HmaSpec(s.close, cfg.hmaLen.Floor))
            && Line(out, KamaKey(cfg.kamaLen.Floor), IsInt(cfg.kamaLen)) == Ok(KamaSpec(s.close, cfg.kamaLen.Floor, 2, 30))
            && Line(out, AtrKey(cfg.atrLen.Floor), IsInt(cfg.atrLen)) == Ok(AtrSpec(s, cfg.atrLen.Floor))
            && Line(out, BbWidthKey(cfg.bbLen.Floor), IsInt(cfg.bbLen)) == Ok(BandsSpec(s.close, cfg.bbLen.Floor, 2.0).width)
            && Line(out, StTrendKey, true) == Ok(SupertrendSpec(s, cfg.atrLen.Floor, 3.0).trend)
  {
    HmaLine(cfg, s); KamaLine(cfg, s); AtrLine(cfg, s); BbWidthLine(cfg, s); StTrendLine(cfg, s);
  }

  /**
   * With the built-in registry a frame fails exactly when a configured
   * length is rejected, and otherwise reads the specified HMA, KAMA (fast
   * 2, slow 30), ATR, Bollinger width (multiplier 2) and Supertrend
   * direction (multiplier 3, on the frame's ATR length).
   */
  lemma FrameWithBuiltins(cfg: Config, f: Frame)
    ensures var res := FrameSpec(BuiltinDefs(), cfg, f);
            && (res.Ok? <==> LengthsAccepted(cfg))
            && (res.Err? ==> res.error == EngineFailed(InvalidParam("length")))
            && (res.Ok? ==>
                  var s := ToSeriesSpec(f.candles);
                  var c := Closes(f.candles);
                  res.value == OpinionOf(f, cfg, HmaSpec(c, cfg.hmaLen.Floor), KamaSpec(c, cfg.kamaLen.Floor, 2, 30),
                                         AtrSpec(s, cfg.atrLen.Floor), BandsSpec(c, cfg.bbLen.Floor, 2.0).width,
                                         SupertrendSpec(s, cfg.atrLen.Floor, 3.0).trend))
  {
    var s := EngineSeries(EngineInput(cfg, f));
    EngineSeriesOfFrame(cfg, f);
    FrameSteps(cfg, s);
    if LengthsAccepted(cfg) {
      FrameLines(cfg, s);
    }
  }

  /**
   * As the engine computes Supertrend, its direction line is 0 throughout,
   * so a frame's structure direction is the pivot verdict alone.
   */
  lemma FrameStructureIsPivots(cfg: Config, f: Frame)
    requires FrameSpec(BuiltinDefs(), cfg, f).Ok?
    ensures FrameSpec(BuiltinDefs(), cfg, f).value.structDir ==
              PivotDir(Highs(f.candles), Lows(f.candles), cfg.pivotLeft, cfg.pivotRight)
  {
    FrameWithBuiltins(cfg, f);
    var s := ToSeriesSpec(f.candles);
    ToSeriesRoundTrip(f.candles);
    var st := SupertrendSpec(s, cfg.atrLen.Floor, 3.0).trend;
    SupertrendConstant(s, cfg.atrLen.Floor, 3.0);
    LastValidIndexIff(st);
    StructDirFillsIn(Highs(f.candles), Lows(f.candles), cfg.pivotLeft, cfg.pivotRight, st);
  }
}
