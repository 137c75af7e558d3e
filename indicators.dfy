/**
 * The indicator registry and `computeIndicators`: each request names an
 * indicator, its parameters are the registered defaults overridden by the
 * request's own and then checked against the indicator's schema, and every
 * output line it produces is stored under its key together with
 * `{warmup, params}`.  A later request that produces the same key
 * overwrites the earlier one.
 */
module Indicators {
  import opened Wrappers
  import opened Gathering
  import opened Numeric
  import opened Primitives
  import opened Series
  import opened Hma
  import opened Kama
  import opened Atr
  import opened Rsi
  import opened Bollinger
  import opened Supertrend

  /** The six indicator names the input schema accepts. */
  datatype IndicatorName = HmaName | KamaName | SupertrendName | AtrName | RsiName | BbName

  /** A raw parameter value: a number, an explicit `undefined`, or anything else. */
  datatype ParamValue = Number(x: real) | Undefined | Other

  type RawParams = map<string, ParamValue>

  /**
   * A registered definition.  `kind` says which of the six built-in
   * schema-and-compute pairs it uses; `defaults` are merged under the
   * request's parameters.
   */
  datatype IndicatorDef = IndicatorDef(name: IndicatorName, kind: IndicatorName, defaults: RawParams)

  /** One entry of `requests`. */
  datatype Request = Request(name: IndicatorName, params: Option<RawParams>)

  /** The already-parsed input: zod's defaulting of `price` is applied by the caller. */
  datatype IndicatorsInput = IndicatorsInput(tf: string, candles: seq<Candle>, requests: seq<Request>, price: PriceSource)

  /** Parameters after schema parsing: only the schema's own keys survive. */
  datatype Params =
    | HmaParams(length: int)
    | KamaParams(length: int, fast: int, slow: int)
    | AtrParams(length: int)
    | RsiParams(length: int)
    | BbParams(length: int, mult: real)
    | StParams(atrLen: int, mult: real)

  /**
   * Output keys.  The source builds them as strings (`hma_55`,
   * `bb_up_20_2`); number-to-string is injective on the values that reach
   * here, so distinct constructors and arguments are distinct strings.
   */
  datatype OutKey =
    | HmaKey(length: int)
    | KamaKey(length: int)
    | AtrKey(length: int)
    | RsiKey(length: int)
    | BbMidKey(length: int)
    | BbUpKey(length: int, mult: real)
    | BbDnKey(length: int, mult: real)
    | BbWidthKey(length: int)
    | StTrendKey
    | StUpperKey
    | StLowerKey

  datatype Meta = Meta(warmup: int, params: Params)

  /** What one compute function returns. */
  datatype Computed = Computed(output: map<OutKey, seq<Num>>, warmup: int)

  /** The two dictionaries `computeIndicators` fills. */
  datatype Tables = Tables(outputs: map<OutKey, seq<Num>>, meta: map<OutKey, Meta>)

  datatype IndicatorsOutput = IndicatorsOutput(tf: string, len: int, outputs: map<OutKey, seq<Num>>, meta: map<OutKey, Meta>)

  /** The two ways `computeIndicators` throws. */
  datatype EngineError = Unregistered(name: IndicatorName) | InvalidParam(key: string)

  // ------------------------------------------------------------ parameters

  predicate IsInt(x: real)
  {
    x == x.Floor as real
  }

  /** `{ ...defaults, ...(params || {}) }`: the request's keys win. */
  function Merge(defaults: RawParams, params: Option<RawParams>): (r: RawParams)
    ensures forall k :: k in r <==> k in defaults || (params.Some? && k in params.value)
    ensures forall k :: k in r ==> r[k] == (if params.Some? && k in params.value then params.value[k] else defaults[k])
  {
    if params.None? then defaults else defaults + params.value
  }

  /** `z.number().int().min(min).default(default)` applied to key `key`. */
  function IntField(raw: RawParams, key: string, default: int, min: int): (r: Result<int, EngineError>)
    requires default >= min
    ensures r.Ok? ==> r.value >= min
    ensures r.Ok? <==> key !in raw || raw[key].Undefined? || (raw[key].Number? && IsInt(raw[key].x) && raw[key].x >= min as real)
    ensures r.Ok? && (key !in raw || raw[key].Undefined?) ==> r.value == default
    ensures r.Ok? && key in raw && raw[key].Number? ==> r.value as real == raw[key].x
    ensures r.Err? ==> r.error == InvalidParam(key)
  {
    if key !in raw then Ok(default)
    else match raw[key]
      case Undefined => Ok(default)
      case Other => Err(InvalidParam(key))
      case Number(x) => if IsInt(x) && x >= min as real then Ok(x.Floor) else Err(InvalidParam(key))
  }

  /** `z.number().positive().default(default)` applied to key `key`. */
  function PositiveField(raw: RawParams, key: string, default: real): (r: Result<real, EngineError>)
    requires default > 0.0
    ensures r.Ok? ==> r.value > 0.0
    ensures r.Ok? <==> key !in raw || raw[key].Undefined? || (raw[key].Number? && raw[key].x > 0.0)
    ensures r.Ok? && (key !in raw || raw[key].Undefined?) ==> r.value == default
    ensures r.Ok? && key in raw && raw[key].Number? ==> r.value == raw[key].x
    ensures r.Err? ==> r.error == InvalidParam(key)
  {
    if key !in raw then Ok(default)
    else match raw[key]
      case Undefined => Ok(default)
      case Other => Err(InvalidParam(key))
      case Number(x) => if x > 0.0 then Ok(x) else Err(InvalidParam(key))
  }

  /** The schema of each built-in indicator. */
  function Parse(kind: IndicatorName, raw: RawParams): Result<Params, EngineError>
  {
    match kind
    case HmaName =>
      var length :- IntField(raw, "length", 55, 2);
      Ok(HmaParams(length))
    case KamaName =>
      var length :- IntField(raw, "length", 30, 2);
      var fast :- IntField(raw, "fast", 2, 2);
      var slow :- IntField(raw, "slow", 30, 2);
      Ok(KamaParams(length, fast, slow))
    case AtrName =>
      var length :- IntField(raw, "length", 14, 1);
      Ok(AtrParams(length))
    case RsiName =>
      var length :- IntField(raw, "length", 14, 2);
      Ok(RsiParams(length))
    case BbName =>
      var length :- IntField(raw, "length", 20, 2);
      var mult :- PositiveField(raw, "mult", 2.0);
      Ok(BbParams(length, mult))
    case SupertrendName =>
      var atrLen :- IntField(raw, "atrLen", 10, 1);
      var mult :- PositiveField(raw, "mult", 3.0);
      Ok(StParams(atrLen, mult))
  }

  /** Parameters a compute function of this kind accepts: the right shape, within the schema's bounds. */
  predicate Fits(kind: IndicatorName, p: Params)
  {
    match kind
    case HmaName => p.HmaParams? && p.length >= 2
    case KamaName => p.KamaParams? && p.length >= 2 && p.fast >= 2 && p.slow >= 2
    case AtrName => p.AtrParams? && p.length >= 1
    case RsiName => p.RsiParams? && p.length >= 2
    case BbName => p.BbParams? && p.length >= 2 && p.mult > 0.0
    case SupertrendName => p.StParams? && p.atrLen >= 1 && p.mult > 0.0
  }

  /** Whatever the schema lets through is something the compute function accepts. */
  lemma ParseFits(kind: IndicatorName, raw: RawParams)
    ensures Parse(kind, raw).Ok? ==> Fits(kind, Parse(kind, raw).value)
  {
  }

  // ------------------------------------------------------------ built-in definitions

  function DefaultParams(name: IndicatorName): RawParams
  {
    match name
    case HmaName => map["length" := Number(55.0)]
    case KamaName => map["length" := Number(30.0), "fast" := Number(2.0), "slow" := Number(30.0)]
    case AtrName => map["length" := Number(14.0)]
    case RsiName => map["length" := Number(14.0)]
    case BbName => map["length" := Number(20.0), "mult" := Number(2.0)]
    case SupertrendName => map["atrLen" := Number(10.0), "mult" := Number(3.0)]
  }

  function BuiltinDef(name: IndicatorName): IndicatorDef
  {
    IndicatorDef(name, name, DefaultParams(name))
  }

  /** The registry after the module's six registrations. */
  function BuiltinDefs(): map<IndicatorName, IndicatorDef>
  {
    map[HmaName := BuiltinDef(HmaName), KamaName := BuiltinDef(KamaName), AtrName := BuiltinDef(AtrName),
        RsiName := BuiltinDef(RsiName), BbName := BuiltinDef(BbName), SupertrendName := BuiltinDef(SupertrendName)]
  }

  // ------------------------------------------------------------ compute dispatch

  /** The output of one compute function of the given kind. */
  function ComputeSpec(kind: IndicatorName, s: Series, p: Params): Computed
    requires WellFormed(s) && Fits(kind, p)
  {
    match kind
    case HmaName => Computed(map[HmaKey(p.length) := HmaSpec(s.close, p.length)], HmaWarmup(p.length))
    case KamaName => Computed(map[KamaKey(p.length) := KamaSpec(s.close, p.length, p.fast, p.slow)], p.length + p.slow)
    case AtrName => Computed(map[AtrKey(p.length) := AtrSpec(s, p.length)], p.length)
    case RsiName => Computed(map[RsiKey(p.length) := RsiSpec(s.close, p.length)], p.length)
    case BbName =>
      var b := BandsSpec(s.close, p.length, p.mult);
      Computed(map[BbMidKey(p.length) := b.mid, BbUpKey(p.length, p.mult) := b.up,
                   BbDnKey(p.length, p.mult) := b.dn, BbWidthKey(p.length) := b.width], p.length)
    case SupertrendName =>
      var o := SupertrendSpec(s, p.atrLen, p.mult);
      Computed(map[StTrendKey := o.trend, StUpperKey := o.upper, StLowerKey := o.lower], p.atrLen + 2)
  }

  /** `def.compute(series, params)` for a built-in kind. */
  method RunCompute(kind: IndicatorName, s: Series, p: Params) returns (c: Computed)
    requires WellFormed(s) && Fits(kind, p)
    ensures c == ComputeSpec(kind, s, p)
  {
    match kind
    case HmaName =>
      var hma, warmup := ComputeHma(s.close, p.length);
      c := Computed(map[HmaKey(p.length) := hma], warmup);
    case KamaName =>
      var kama, warmup := ComputeKama(s.close, p.length, p.fast, p.slow);
      c := Computed(map[KamaKey(p.length) := kama], warmup);
    case AtrName =>
      var atr, warmup := ComputeAtr(s, p.length);
      c := Computed(map[AtrKey(p.length) := atr], warmup);
    case RsiName =>
      var rsi, warmup := ComputeRsi(s.close, p.length);
      c := Computed(map[RsiKey(p.length) := rsi], warmup);
    case BbName =>
      var b, warmup := ComputeBb(s.close, p.length, p.mult);
      c := Computed(map[BbMidKey(p.length) := b.mid, BbUpKey(p.length, p.mult) := b.up,
                        BbDnKey(p.length, p.mult) := b.dn, BbWidthKey(p.length) := b.width], warmup);
    case SupertrendName =>
      var o, warmup := ComputeSupertrend(s, p.atrLen, p.mult);
      c := Computed(map[StTrendKey := o.trend, StUpperKey := o.upper, StLowerKey := o.lower], warmup);
  }

  // ------------------------------------------------------------ the request loop

  /** Look up the definition and resolve its parameters: the two ways a request throws. */
  function Resolve(defs: map<IndicatorName, IndicatorDef>, req: Request): Result<Params, EngineError>
  {
    if req.name !in defs then Err(Unregistered(req.name))
    else Parse(defs[req.name].kind, Merge(defs[req.name].defaults, req.params))
  }

  /** Every key of one output stored with its array and with `{warmup, params}`. */
  function Emitted(t: Tables, c: Computed, p: Params): Tables
  {
    Stored(t, c, p, c.output.Keys)
  }

  /** The tables after storing the keys in `done` of one output over the earlier ones. */
  function Stored(t: Tables, c: Computed, p: Params, done: set<OutKey>): Tables
    requires done <= c.output.Keys
  {
    Tables(
      map j | j in t.outputs.Keys + done :: if j in done then c.output[j] else t.outputs[j],
      map j | j in t.meta.Keys + done :: if j in done then Meta(c.warmup, p) else t.meta[j])
  }

  /** One request's parameters and output. */
  datatype Step = Step(computed: Computed, params: Params)

  /** One iteration of the request loop: resolve the parameters, then run the compute function. */
  function StepOf(defs: map<IndicatorName, IndicatorDef>, s: Series, req: Request): Result<Step, EngineError>
    requires WellFormed(s)
  {
    var p :- Resolve(defs, req);
    ParseFits(defs[req.name].kind, Merge(defs[req.name].defaults, req.params));
    Ok(Step(ComputeSpec(defs[req.name].kind, s, p), p))
  }

  /** Each request's own step or error, in order. */
  function StepResults(defs: map<IndicatorName, IndicatorDef>, s: Series, reqs: seq<Request>): (r: seq<Result<Step, EngineError>>)
    requires WellFormed(s)
    ensures |r| == |reqs| && forall j :: 0 <= j < |reqs| ==> r[j] == StepOf(defs, s, reqs[j])
  {
    seq(|reqs|, j requires 0 <= j < |reqs| => StepOf(defs, s, reqs[j]))
  }

  /** The steps of the given requests, in order; the first failing request aborts. */
  function Steps(defs: map<IndicatorName, IndicatorDef>, s: Series, reqs: seq<Request>): Result<seq<Step>, EngineError>
    requires WellFormed(s)
  {
    Gather(StepResults(defs, s, reqs))
  }

  /** The tables after storing the outputs of the given steps, in order. */
  function Fold(steps: seq<Step>): Tables
  {
    if |steps| == 0 then Tables(map[], map[])
    else
      var last := steps[|steps| - 1];
      Emitted(Fold(steps[..|steps| - 1]), last.computed, last.params)
  }

  /** The two dictionaries after the request loop. */
  function RunSpec(defs: map<IndicatorName, IndicatorDef>, s: Series, reqs: seq<Request>): Result<Tables, EngineError>
    requires WellFormed(s)
  {
    var steps :- Steps(defs, s, reqs);
    Ok(Fold(steps))
  }

  /** The series every compute function sees: `close` replaced by the selected price. */
  function EngineSeries(input: IndicatorsInput): (s: Series)
    ensures WellFormed(s) && |s.time| == |input.candles|
  {
    var s := ToSeriesSpec(input.candles);
    ToSeriesRoundTrip(input.candles);
    s.(close := PickPriceSpec(input.price, s))
  }

  function ComputeIndicatorsSpec(defs: map<IndicatorName, IndicatorDef>, input: IndicatorsInput): Result<IndicatorsOutput, EngineError>
  {
    var t :- RunSpec(defs, EngineSeries(input), input.requests);
    Ok(IndicatorsOutput(input.tf, |input.candles|, t.outputs, t.meta))
  }

  /** Storing one more key is one update of each dictionary. */
  lemma StoredStep(t: Tables, c: Computed, p: Params, done: set<OutKey>, k: OutKey)
    requires done <= c.output.Keys && k in c.output
    ensures Stored(t, c, p, done + {k}).outputs == Stored(t, c, p, done).outputs[k := c.output[k]]
    ensures Stored(t, c, p, done + {k}).meta == Stored(t, c, p, done).meta[k := Meta(c.warmup, p)]
  {
  }

  /** Storing one output, key by key (the inner `for ... of Object.entries(output)`). */
  method Emit(t: Tables, c: Computed, p: Params) returns (r: Tables)
    ensures r == Emitted(t, c, p)
  {
    var outputs := t.outputs;
    var meta := t.meta;
    var todo := c.output.Keys;
    ghost var done: set<OutKey> := {};
    while todo != {}
      invariant done <= c.output.Keys && todo == c.output.Keys - done
      invariant Tables(outputs, meta) == Stored(t, c, p, done)
      decreases todo
    {
      var k :| k in todo;
      StoredStep(t, c, p, done, k);
      outputs := outputs[k := c.output[k]];
      meta := meta[k := Meta(c.warmup, p)];
      todo := todo - {k};
      done := done + {k};
    }
    assert done == c.output.Keys;
    r := Tables(outputs, meta);
  }

  /** The module-level registry map and the functions that use it. */
  class Registry {
    var defs: map<IndicatorName, IndicatorDef>

    constructor ()
      ensures defs == map[]
    {
      defs := map[];
    }

    /** `registerIndicator`: a definition replaces any earlier one of the same name. */
    method Register(def: IndicatorDef)
      modifies this
      ensures defs == old(defs)[def.name := def]
    {
      defs := defs[def.name := def];
    }

    /** `computeIndicators`. */
    method ComputeIndicators(input: IndicatorsInput) returns (res: Result<IndicatorsOutput, EngineError>)
      ensures res == ComputeIndicatorsSpec(defs, input)
    {
      var series := ToSeries(input.candles);
      ToSeriesRoundTrip(input.candles);
      var src := PickPrice(input.price, series);
      var s := series.(close := src);
      assert s == EngineSeries(input);
      var t := Tables(map[], map[]);
      ghost var steps: seq<Step> := [];
      var requests := input.requests;
      ghost var rs := StepResults(defs, s, requests);
      for r := 0 to |requests|
        invariant Gather(rs[..r]) == Ok(steps)
        invariant t == Fold(steps)
      {
        var req := requests[r];
        if req.name !in defs {
          GatherStop(rs, r);
          return Err(Unregistered(req.name));
        }
        var def := defs[req.name];
        var params := Parse(def.kind, Merge(def.defaults, req.params));
        if params.Err? {
          GatherStop(rs, r);
          return Err(params.error);
        }
        StepResolved(defs, s, req, params.value);
        var c := RunCompute(def.kind, s, params.value);
        t := Emit(t, c, params.value);
        GatherPush(rs, r, steps);
        assert (steps + [Step(c, params.value)])[..|steps|] == steps;
        steps := steps + [Step(c, params.value)];
      }
      assert rs[..|rs|] == rs;
      res := Ok(IndicatorsOutput(input.tf, |series.close|, t.outputs, t.meta));
    }
  }

  /** The registry as the module leaves it: the six built-in definitions, registered in source order. */
  method NewBuiltinRegistry() returns (reg: Registry)
    ensures fresh(reg) && reg.defs == BuiltinDefs()
  {
    reg := new Registry();
    reg.Register(BuiltinDef(HmaName));
    reg.Register(BuiltinDef(KamaName));
    reg.Register(BuiltinDef(AtrName));
    reg.Register(BuiltinDef(RsiName));
    reg.Register(BuiltinDef(BbName));
    reg.Register(BuiltinDef(SupertrendName));
  }

  // ------------------------------------------------------------ properties

  /** Every array a compute function returns is as long as the series. */
  lemma ComputedLengths(kind: IndicatorName, s: Series, p: Params)
    requires WellFormed(s) && Fits(kind, p)
    ensures forall k :: k in ComputeSpec(kind, s, p).output ==> |ComputeSpec(kind, s, p).output[k]| == |s.time|
  {
  }

  /** Step j's output has key k. */
  predicate Produces(steps: seq<Step>, j: int, k: OutKey)
  {
    0 <= j < |steps| && k in steps[j].computed.output
  }

  function MetaOf(st: Step): Meta
  {
    Meta(st.computed.warmup, st.params)
  }

  /** Storing one output keeps the earlier keys it does not have and adds or overwrites the ones it has. */
  lemma EmittedFacts(t: Tables, c: Computed, p: Params)
    ensures forall k :: k in Emitted(t, c, p).outputs <==> k in t.outputs || k in c.output
    ensures forall k :: k in Emitted(t, c, p).meta <==> k in t.meta || k in c.output
    ensures forall k :: k in c.output ==> Emitted(t, c, p).outputs[k] == c.output[k] && Emitted(t, c, p).meta[k] == Meta(c.warmup, p)
    ensures forall k :: k !in c.output && k in t.outputs ==> Emitted(t, c, p).outputs[k] == t.outputs[k]
    ensures forall k :: k !in c.output && k in t.meta ==> Emitted(t, c, p).meta[k] == t.meta[k]
  {
  }

  /** After the request loop, outputs and meta have the same keys: those some step produced. */
  lemma {:induction false} FoldKeys(steps: seq<Step>)
    ensures Fold(steps).outputs.Keys == Fold(steps).meta.Keys
    ensures forall k :: k in Fold(steps).outputs <==> exists j :: Produces(steps, j, k)
    decreases |steps|
  {
    if |steps| > 0 {
      var n := |steps| - 1;
      var prefix := steps[..n];
      FoldKeys(prefix);
      EmittedFacts(Fold(prefix), steps[n].computed, steps[n].params);
      forall k
        ensures (exists j :: Produces(steps, j, k)) <==> (exists j :: Produces(prefix, j, k)) || k in steps[n].computed.output
      {
        if j :| Produces(steps, j, k) {
          if j < n {
            assert Produces(prefix, j, k);
          }
        }
        if j :| Produces(prefix, j, k) {
          assert Produces(steps, j, k);
        }
        if k in steps[n].computed.output {
          assert Produces(steps, n, k);
        }
      }
    }
  }

  /** Every stored key holds the array and the `{warmup, params}` of one of the steps that produced it. */
  lemma {:induction false} FoldFromProducer(steps: seq<Step>)
    ensures forall k :: k in Fold(steps).outputs ==> exists j :: (Produces(steps, j, k)
              && Fold(steps).outputs[k] == steps[j].computed.output[k] && k in Fold(steps).meta && Fold(steps).meta[k] == MetaOf(steps[j]))
    decreases |steps|
  {
    if |steps| > 0 {
      var n := |steps| - 1;
      var prefix := steps[..n];
      FoldFromProducer(prefix);
      FoldKeys(prefix);
      EmittedFacts(Fold(prefix), steps[n].computed, steps[n].params);
      forall k | k in Fold(steps).outputs
        ensures exists j :: (Produces(steps, j, k)
              && Fold(steps).outputs[k] == steps[j].computed.output[k] && k in Fold(steps).meta && Fold(steps).meta[k] == MetaOf(steps[j]))
      {
        if k in steps[n].computed.output {
          assert Produces(steps, n, k);
        } else {
          var j :| Produces(prefix, j, k)
              && Fold(prefix).outputs[k] == prefix[j].computed.output[k] && k in Fold(prefix).meta && Fold(prefix).meta[k] == MetaOf(prefix[j]);
          assert steps[j] == prefix[j];
          assert Produces(steps, j, k);
        }
      }
    }
  }

  /** A later request overwrites: the key holds what the last step that produced it stored. */
  lemma {:induction false} FoldLastProducer(steps: seq<Step>, j: nat, k: OutKey)
    requires Produces(steps, j, k)
    requires forall j' :: j < j' < |steps| ==> k !in steps[j'].computed.output
    ensures k in Fold(steps).outputs && k in Fold(steps).meta
    ensures Fold(steps).outputs[k] == steps[j].computed.output[k]
    ensures Fold(steps).meta[k] == MetaOf(steps[j])
    decreases |steps|
  {
    var n := |steps| - 1;
    var prefix := steps[..n];
    EmittedFacts(Fold(prefix), steps[n].computed, steps[n].params);
    if j < n {
      assert prefix[j] == steps[j];
      FoldLastProducer(prefix, j, k);
    }
  }

  /** A successful run has one step per request, each the result of that request alone. */
  lemma StepsOk(defs: map<IndicatorName, IndicatorDef>, s: Series, reqs: seq<Request>)
    requires WellFormed(s) && Steps(defs, s, reqs).Ok?
    ensures |Steps(defs, s, reqs).value| == |reqs|
    ensures forall j :: 0 <= j < |reqs| ==> StepOf(defs, s, reqs[j]) == Ok(Steps(defs, s, reqs).value[j])
  {
    GatherOk(StepResults(defs, s, reqs));
  }

  /** One request fails exactly when its resolution does, with the same error. */
  lemma StepOfResolve(defs: map<IndicatorName, IndicatorDef>, s: Series, req: Request)
    requires WellFormed(s)
    ensures StepOf(defs, s, req).Ok? <==> Resolve(defs, req).Ok?
    ensures StepOf(defs, s, req).Err? ==> StepOf(defs, s, req).error == Resolve(defs, req).error
  {
  }

  /** The step of a request whose parameters resolve: the registered kind's output with those parameters. */
  lemma StepResolved(defs: map<IndicatorName, IndicatorDef>, s: Series, req: Request, p: Params)
    requires WellFormed(s) && Resolve(defs, req) == Ok(p)
    ensures req.name in defs && Fits(defs[req.name].kind, p)
    ensures StepOf(defs, s, req) == Ok(Step(ComputeSpec(defs[req.name].kind, s, p), p))
  {
    ParseFits(defs[req.name].kind, Merge(defs[req.name].defaults, req.params));
  }

  /** Request j is rejected with e, and every request before it resolves. */
  ghost predicate RejectsFirstAt(defs: map<IndicatorName, IndicatorDef>, reqs: seq<Request>, j: int, e: EngineError)
  {
    0 <= j < |reqs| && Resolve(defs, reqs[j]) == Err(e) &&
    forall i :: 0 <= i < j ==> Resolve(defs, reqs[i]).Ok?
  }

  /** The request loop succeeds exactly when every request resolves. */
  lemma StepsAllResolve(defs: map<IndicatorName, IndicatorDef>, s: Series, reqs: seq<Request>)
    requires WellFormed(s)
    ensures Steps(defs, s, reqs).Ok? <==> forall j :: 0 <= j < |reqs| ==> Resolve(defs, reqs[j]).Ok?
  {
    var rs := StepResults(defs, s, reqs);
    GatherFirstFailure(rs);
    forall j | 0 <= j < |reqs|
      ensures rs[j].Ok? <==> Resolve(defs, reqs[j]).Ok?
    {
      StepOfResolve(defs, s, reqs[j]);
    }
  }

  /** A failing request loop throws the rejection of the first request that does not resolve. */
  lemma StepsFirstFailure(defs: map<IndicatorName, IndicatorDef>, s: Series, reqs: seq<Request>)
    requires WellFormed(s) && Steps(defs, s, reqs).Err?
    ensures exists j :: RejectsFirstAt(defs, reqs, j, Steps(defs, s, reqs).error)
  {
    var rs := StepResults(defs, s, reqs);
    GatherFirstFailure(rs);
    var j :| FailsFirstAt(rs, j, Gather(rs).error);
    StepOfResolve(defs, s, reqs[j]);
    forall i | 0 <= i < j
      ensures Resolve(defs, reqs[i]).Ok?
    {
      StepOfResolve(defs, s, reqs[i]);
    }
    assert RejectsFirstAt(defs, reqs, j, Steps(defs, s, reqs).error);
  }

  /** Every array one request stores is as long as the series. */
  lemma StepLengths(defs: map<IndicatorName, IndicatorDef>, s: Series, req: Request)
    requires WellFormed(s) && StepOf(defs, s, req).Ok?
    ensures forall k :: k in StepOf(defs, s, req).value.computed.output ==> |StepOf(defs, s, req).value.computed.output[k]| == |s.time|
  {
    var p := StepOf(defs, s, req).value.params;
    ComputedLengths(defs[req.name].kind, s, p);
  }

  /**
   * The shape of a successful `computeIndicators`: `len` is the candle
   * count, outputs and meta have the same keys, and every array has `len`
   * slots.  With the six built-in definitions it fails only on parameters
   * the schema rejects, never on an unregistered name.
   */
  lemma EngineShape(defs: map<IndicatorName, IndicatorDef>, input: IndicatorsInput)
    ensures var res := ComputeIndicatorsSpec(defs, input);
            && (res.Ok? ==> res.value.len == |input.candles|)
            && (res.Ok? ==> res.value.outputs.Keys == res.value.meta.Keys)
            && (res.Ok? ==> forall k :: k in res.value.outputs ==> |res.value.outputs[k]| == res.value.len)
            && (defs == BuiltinDefs() && res.Err? ==> res.error.InvalidParam?)
  {
    var s := EngineSeries(input);
    var reqs := input.requests;
    if Steps(defs, s, reqs).Ok? {
      var steps := Steps(defs, s, reqs).value;
      FoldKeys(steps);
      FoldFromProducer(steps);
      StepsOk(defs, s, reqs);
      forall k | k in Fold(steps).outputs
        ensures |Fold(steps).outputs[k]| == |s.time|
      {
        var j :| Produces(steps, j, k) && Fold(steps).outputs[k] == steps[j].computed.output[k];
        StepLengths(defs, s, reqs[j]);
      }
    } else if defs == BuiltinDefs() {
      StepsFirstFailure(defs, s, reqs);
      var j :| RejectsFirstAt(defs, reqs, j, Steps(defs, s, reqs).error);
      BuiltinResolveError(reqs[j]);
    }
  }

  /** Every name is registered in the built-in registry, so resolving fails only on a parameter. */
  lemma BuiltinResolveError(req: Request)
    ensures Resolve(BuiltinDefs(), req).Err? ==> Resolve(BuiltinDefs(), req).error.InvalidParam?
  {
    assert req.name in BuiltinDefs() by {
      match req.name
      case HmaName =>
      case KamaName =>
      case AtrName =>
      case RsiName =>
      case BbName =>
      case SupertrendName =>
    }
    var def := BuiltinDefs()[req.name];
    ParseErrorIsInvalidParam(def.kind, Merge(def.defaults, req.params));
  }

  /** The schema rejects a request only by naming one of its parameters. */
  lemma ParseErrorIsInvalidParam(kind: IndicatorName, raw: RawParams)
    ensures Parse(kind, raw).Err? ==> Parse(kind, raw).error.InvalidParam?
  {
    match kind
    case HmaName =>
    case KamaName =>
    case AtrName =>
    case RsiName =>
    case BbName =>
    case SupertrendName =>
  }

  /** HMA's `length` is accepted exactly when it is an integer of at least 2, and then used as given. */
  lemma HmaLengthChecked(x: real)
    ensures var res := Resolve(BuiltinDefs(), Request(HmaName, Some(map["length" := Number(x)])));
            && (res.Ok? <==> IsInt(x) && x >= 2.0)
            && (res.Ok? ==> res.value == HmaParams(x.Floor))
  {
  }

  /** Bollinger's `mult` is accepted exactly when it is positive; the length keeps its default. */
  lemma BbMultChecked(x: real)
    ensures var res := Resolve(BuiltinDefs(), Request(BbName, Some(map["mult" := Number(x)])));
            && (res.Ok? <==> x > 0.0)
            && (res.Ok? ==> res.value == BbParams(20, x))
  {
  }

  /** A request without parameters gets the registered defaults. */
  lemma DefaultsWhenAbsent(name: IndicatorName)
    ensures Resolve(BuiltinDefs(), Request(name, None)) == Ok(
      match name
      case HmaName => HmaParams(55)
      case KamaName => KamaParams(30, 2, 30)
      case AtrName => AtrParams(14)
      case RsiName => RsiParams(14)
      case BbName => BbParams(20, 2.0)
      case SupertrendName => StParams(10, 3.0))
  {
  }

  /** Only a supertrend computation has the `st_` keys. */
  lemma StKeysOnlyFromSupertrend(kind: IndicatorName, s: Series, p: Params)
    requires WellFormed(s) && Fits(kind, p)
    ensures var o := ComputeSpec(kind, s, p).output;
            (StTrendKey in o || StUpperKey in o || StLowerKey in o) ==> kind == SupertrendName
  {
  }

  /** With the built-in definitions, only a supertrend request stores the `st_` keys, and they are constant. */
  lemma BuiltinSupertrendStep(s: Series, req: Request)
    requires WellFormed(s) && StepOf(BuiltinDefs(), s, req).Ok?
    ensures var o := StepOf(BuiltinDefs(), s, req).value.computed.output;
            && (StTrendKey in o ==> StUpperKey in o && StLowerKey in o)
            && (StTrendKey in o ==> |o[StTrendKey]| == |s.time| && forall i :: 0 <= i < |s.time| ==> o[StTrendKey][i] == Some(0.0))
            && (StUpperKey in o ==> |o[StUpperKey]| == |s.time| && forall i :: 0 <= i < |s.time| ==> o[StUpperKey][i].None?)
            && (StLowerKey in o ==> |o[StLowerKey]| == |s.time| && forall i :: 0 <= i < |s.time| ==> o[StLowerKey][i].None?)
  {
    var st := StepOf(BuiltinDefs(), s, req).value;
    var kind := BuiltinDefs()[req.name].kind;
    var p := st.params;
    assert st.computed == ComputeSpec(kind, s, p);
    StKeysOnlyFromSupertrend(kind, s, p);
    if kind == SupertrendName {
      var o := SupertrendSpec(s, p.atrLen, p.mult);
      assert st.computed.output == map[StTrendKey := o.trend, StUpperKey := o.upper, StLowerKey := o.lower];
      SupertrendConstant(s, p.atrLen, p.mult);
    }
  }

  /**
   * Through the engine, the supertrend lines are constant: whenever
   * `st_trend` is stored it is 0 at every bar, and `st_upper` and
   * `st_lower`, stored with it, are NaN at every bar.
   */
  lemma EngineSupertrendConstant(input: IndicatorsInput)
    requires ComputeIndicatorsSpec(BuiltinDefs(), input).Ok?
    ensures var out := ComputeIndicatorsSpec(BuiltinDefs(), input).value;
            StTrendKey in out.outputs ==>
              && StUpperKey in out.outputs && StLowerKey in out.outputs
              && |out.outputs[StTrendKey]| == out.len && |out.outputs[StUpperKey]| == out.len && |out.outputs[StLowerKey]| == out.len
              && (forall i :: 0 <= i < out.len ==> out.outputs[StTrendKey][i] == Some(0.0))
              && (forall i :: 0 <= i < out.len ==> out.outputs[StUpperKey][i].None? && out.outputs[StLowerKey][i].None?)
  {
    var defs := BuiltinDefs();
    var s := EngineSeries(input);
    var reqs := input.requests;
    var steps := Steps(defs, s, reqs).value;
    var out := Fold(steps);
    FoldKeys(steps);
    FoldFromProducer(steps);
    StepsOk(defs, s, reqs);
    if StTrendKey in out.outputs {
      var j :| Produces(steps, j, StTrendKey) && out.outputs[StTrendKey] == steps[j].computed.output[StTrendKey];
      BuiltinSupertrendStep(s, reqs[j]);
      assert Produces(steps, j, StUpperKey) && Produces(steps, j, StLowerKey);
      var ju :| Produces(steps, ju, StUpperKey) && out.outputs[StUpperKey] == steps[ju].computed.output[StUpperKey];
      BuiltinSupertrendStep(s, reqs[ju]);
      var jl :| Produces(steps, jl, StLowerKey) && out.outputs[StLowerKey] == steps[jl].computed.output[StLowerKey];
      BuiltinSupertrendStep(s, reqs[jl]);
    }
  }
}
