# Technical-analysis setup scorer and news-formatting helpers, modelled in Dafny

This project models the deterministic core of a Mastra-based news and market-analysis service:

* **The indicator engine** (`src/mastra/tools/indicators-tool.ts`). It turns OHLCV candles into column series. It builds the moving-average primitives (SMA, WMA, EMA, Wilder's RMA, rolling standard deviation) and six registered indicators: HMA, KAMA, ATR, RSI, Bollinger Bands and Supertrend. It also models the registry and `computeIndicators`, which validates each request's parameters against the indicator's schema, throws on the first bad request, and otherwise merges every output series and its `meta` entry into one table.
* **The multi-timeframe setup scorer** (`src/mastra/agents/ta-setup-agent.ts`). For each timeframe it asks the engine for six indicators and derives three things:
  * a trend direction (HMA slope and close versus KAMA);
  * a structure direction (the last two pivot highs and lows, with the Supertrend trend as a fallback);
  * a volatility regime (ATR/close and band width/close against their medians).

  It then fuses the per-frame opinions into a score, a breakdown, a regime, a long/short/neutral decision, evidence lines and a per-timeframe alignment map.
* **The article helpers** of `src/mastra/tools/format-converter-tool.ts`: keyword extraction, titles, subtitle, paragraph layout, summary, tags, SEO title and description, and reading time.
* **The dedup and fallback helpers** of `src/mastra/workflows/news-processing-workflow.ts`:
  * title-based article de-duplication;
  * the source list;
  * the rule-based selection used when no analyser agent is available.

How the model represents the source:

* A JavaScript `number` is a `real`. The `NaN` entries of a `Float64Array` are `None` in `Num = Option<real>`.
* Every array-filling loop of the source is a `method` that fills a fresh `array` and is proved equal to a pointwise specification function. The properties are lemmas on those functions: valid exactly from the warm-up index, bounds, values on constant input, and the recurrence.
* The registry is a `class` whose map of definitions `Register` updates. `computeIndicators` is a method on it, proved equal to a functional specification. `Gather` states the engine's throw-on-first-failure behaviour.
* The setup scorer's loops (median, last valid value, pivot scan, per-frame loop, evidence and alignment) are methods proved against functions. The fusion rules are lemmas on those functions.
* Text is `seq<char>`. The `split(/[。！？]/)` regular expression is `Text.Split`, and `trim` is `Text.Trim` over the ECMAScript white-space set restricted to the characters listed in `Text.IsSpace`.

Modules: `Wrappers`, `Numeric`, `Series`, `Primitives`, `Hma`, `Kama`, `Atr`, `Rsi`, `Bollinger`, `Supertrend`, `Gathering`, `Indicators`, `SetupHelpers`, `SetupFrame`, `FrameEngine`, `SetupFusion`, `SetupAgent`, `Text`, `Keywords`, `Dedup`, `FormatConverter`, `NewsWorkflow`.

Where the prose description of the system and the code disagree, the model follows the code:

* The ATR, RSI and Bollinger series are valid from index `length - 1`, not from `length`. The reported `warmup` is still `length`.
* The Supertrend final bands never become valid, so `st_trend` is constantly 0. See Findings.
* The agent compares its alignment ratio against the raw `input.config.alignMin`, not against the parsed configuration's default. See Findings.

## Model

| member | source | states |
|---|---|---|
| Series.ToSeries | src/mastra/tools/indicators-tool.ts:64-82 | returns exactly the column view `ToSeriesSpec` of the candles |
| Series.ToSeriesRoundTrip | src/mastra/tools/indicators-tool.ts:64-82 | the columns have one entry per candle and reading candle i back from them gives the original candle |
| Series.PickPrice | src/mastra/tools/indicators-tool.ts:84-105 | the loop returns the price source's per-bar value for every bar |
| Series.PickPriceWithinBar | src/mastra/tools/indicators-tool.ts:84-105 | close, hl2, hlc3 and ohlc4 of a bar all lie within any range containing that bar's open, high, low and close |
| Series.PickPriceSpec | src/mastra/tools/indicators-tool.ts:84-105 | the price series has one value per bar of the input |
| Numeric.Round | src/mastra/agents/ta-setup-agent.ts:202 | `Math.round` yields the integer within half a unit of its argument, halves going up |
| Series.LastValue | src/mastra/tools/indicators-tool.ts:107-109 | undefined exactly for an empty array, otherwise the last element (NaN included) |
| Primitives.SlideWindow | src/mastra/tools/indicators-tool.ts:117-127 | adding the new value and dropping the one that leaves turns the previous window sum into the next window sum |
| Primitives.RunningSumIsWindowSum | src/mastra/tools/indicators-tool.ts:117-127 | the running sum kept by the loop equals the sum of the last `length` inputs |
| Primitives.Sma | src/mastra/tools/indicators-tool.ts:117-127 | the array loop produces the rolling mean, NaN before index length-1 |
| Primitives.SmaOfConstant | src/mastra/tools/indicators-tool.ts:117-127 | the SMA of a constant series is that constant once the window is full |
| Primitives.SmaWithinWindow | src/mastra/tools/indicators-tool.ts:117-127 | a full-window SMA lies between any lower and upper bound of its window |
| Primitives.Wma | src/mastra/tools/indicators-tool.ts:129-144 | the loop produces the linearly weighted mean (weights 1..length, newest heaviest), NaN while any input is NaN |
| Primitives.WeightedSumValid | src/mastra/tools/indicators-tool.ts:129-144 | the weighted sum is a number iff no entry of the window is NaN |
| Primitives.WmaValidIff | src/mastra/tools/indicators-tool.ts:129-144 | WMA at i is valid iff the window is full and all its entries are valid |
| Primitives.WeightedSumOfConstant | src/mastra/tools/indicators-tool.ts:129-144 | weighted sum of a constant c is c times the weight total length·(length+1)/2 |
| Primitives.WmaOfConstant | src/mastra/tools/indicators-tool.ts:129-144 | WMA of a constant series is that constant |
| Primitives.Ema | src/mastra/tools/indicators-tool.ts:146-158 | the loop produces the EMA seeded with the first value, k = 2/(length+1) |
| Primitives.EmaWithinRange | src/mastra/tools/indicators-tool.ts:146-158 | the EMA never leaves the range of the inputs seen so far |
| Primitives.Rma | src/mastra/tools/indicators-tool.ts:161-179 | the loop produces Wilder's average seeded with the first-window mean, NaN before length-1 |
| Primitives.RmaStep | src/mastra/tools/indicators-tool.ts:161-179 | after the seed each value moves 1/length of the way from the previous value to the new input |
| Primitives.RmaWithinRange | src/mastra/tools/indicators-tool.ts:161-179 | Wilder's average stays within the range of its inputs |
| Primitives.RmaAtLeast | src/mastra/tools/indicators-tool.ts:161-179 | a lower bound on all inputs is a lower bound on Wilder's average |
| Primitives.VarianceOfSums | src/mastra/tools/indicators-tool.ts:181-202 | the clamped variance `max(0, sumSq/L - mean²)` is never negative |
| Primitives.Variance | src/mastra/tools/indicators-tool.ts:181-202 | the variance of a window is never negative |
| Primitives.StddevFromSums | src/mastra/tools/indicators-tool.ts:181-202 | the value at i is sqrt of the variance computed from the running sums of values and of squares |
| Primitives.Stddev | src/mastra/tools/indicators-tool.ts:181-202 | the loop produces the rolling population standard deviation, NaN before length-1 |
| Primitives.StddevOfFlatWindow | src/mastra/tools/indicators-tool.ts:181-202 | a flat window has standard deviation 0 |
| Primitives.VarianceOfFlatWindow | src/mastra/tools/indicators-tool.ts:181-202 | a flat window has variance 0 |
| Primitives.VarianceOfConstantSums | src/mastra/tools/indicators-tool.ts:181-202 | sums L·c and L·c² give variance 0 |
| Hma.HalfLength | src/mastra/tools/indicators-tool.ts:247 | the half length is `max(2, floor(length/2))` |
| Hma.RootLength | src/mastra/tools/indicators-tool.ts:248 | the root length is `max(2, floor(sqrt(length)))`, with an exact integer square root |
| Hma.DiffOf | src/mastra/tools/indicators-tool.ts:256-258 | 2·wma(L/2) - wma(L) is a number iff both inputs are numbers |
| Hma.DiffLines | src/mastra/tools/indicators-tool.ts:253-259 | the difference line has the length of its inputs |
| Hma.Diff | src/mastra/tools/indicators-tool.ts:253-259 | the loop produces the difference line |
| Hma.ComputeHma | src/mastra/tools/indicators-tool.ts:245-263 | the HMA is wma(2·wma(L/2) - wma(L), sqrt L), and the reported warm-up (length-1)+(sqrtL-1) is exactly its first valid index |
| Hma.WmaOfFiniteValidIff | src/mastra/tools/indicators-tool.ts:129-144 | on a series without NaN, WMA is valid exactly from index length-1 |
| Hma.DiffValidIff | src/mastra/tools/indicators-tool.ts:249-259 | the difference line is valid exactly from index length-1 |
| Hma.HmaValidIff | src/mastra/tools/indicators-tool.ts:245-263 | the HMA has one entry per bar, valid exactly from index `HmaWarmup(length)` = length + sqrtL - 2 |
| Hma.HmaOfConstant | src/mastra/tools/indicators-tool.ts:245-263 | the HMA of a constant series is that constant once valid |
| Kama.SmoothingConstant | src/mastra/tools/indicators-tool.ts:277-278 | 2/(n+1) lies in (0, 1] for n ≥ 1 |
| Kama.PathLength | src/mastra/tools/indicators-tool.ts:290-293 | the volatility sum of absolute one-bar changes is non-negative |
| Kama.ComputeKama | src/mastra/tools/indicators-tool.ts:272-302 | the loop produces the KAMA: NaN before index erLen, seeded from `sma(close, erLen)[erLen]`, and the reported warm-up is `erLen + slow` |
| Kama.ChangeAtMostPath | src/mastra/tools/indicators-tool.ts:289-293 | the net change over a window is at most its path length |
| Kama.ErBounds | src/mastra/tools/indicators-tool.ts:289-294 | the efficiency ratio lies in [0, 1] |
| Kama.PathOfFlat | src/mastra/tools/indicators-tool.ts:290-293 | a flat window has path length 0 |
| Kama.ErOfFlat | src/mastra/tools/indicators-tool.ts:289-294 | a flat window has efficiency ratio 0 (the `vol !== 0` guard) |
| Kama.PathOfRising | src/mastra/tools/indicators-tool.ts:290-293 | a strictly rising window's path is its net change |
| Kama.PathOfFalling | src/mastra/tools/indicators-tool.ts:290-293 | a strictly falling window's path is its net fall |
| Kama.ErOfMonotone | src/mastra/tools/indicators-tool.ts:289-294 | a strictly monotone window has efficiency ratio 1 |
| Kama.ScBounds | src/mastra/tools/indicators-tool.ts:295 | for ER in [0, 1] the squared smoothing constant lies in (0, 1], so each step is a convex move towards the close |
| Kama.StepScBounds | src/mastra/tools/indicators-tool.ts:289-295 | the per-bar smoothing constant lies in (0, 1] |
| Kama.KamaWithinRange | src/mastra/tools/indicators-tool.ts:272-302 | the KAMA stays within the range of the closes seen so far |
| Kama.KamaOfConstant | src/mastra/tools/indicators-tool.ts:272-302 | the KAMA of a constant series is that constant |
| Atr.TrSpec | src/mastra/tools/indicators-tool.ts:314-323 | the true-range series has one entry per bar |
| Atr.ComputeAtr | src/mastra/tools/indicators-tool.ts:311-327 | the loop yields the RMA of the true range, with warm-up `length` |
| Atr.TrueRangeCovers | src/mastra/tools/indicators-tool.ts:315-322 | the true range is at least high-low and at least each gap to the previous close, equals one of them, and is non-negative |
| Atr.AtrValidIff | src/mastra/tools/indicators-tool.ts:311-327 | the ATR is valid exactly from index length-1 |
| Atr.AtrNonNegative | src/mastra/tools/indicators-tool.ts:311-327 | on bars with low ≤ high the ATR is non-negative |
| Atr.AtrOfFlat | src/mastra/tools/indicators-tool.ts:311-327 | bars with high = low = close = x have ATR 0 |
| Rsi.GainSpec | src/mastra/tools/indicators-tool.ts:339-346 | the gain series has one entry per bar |
| Rsi.LossSpec | src/mastra/tools/indicators-tool.ts:339-346 | the loss series has one entry per bar |
| Rsi.GainsAndLosses | src/mastra/tools/indicators-tool.ts:339-346 | the loop fills both series (0 at bar 0) |
| Rsi.ComputeRsi | src/mastra/tools/indicators-tool.ts:336-362 | the RSI is 100 - 100/(1+RS) over the Wilder averages, 100 when the average loss is 0, warm-up `length` |
| Rsi.GainLossSplit | src/mastra/tools/indicators-tool.ts:342-346 | gain and loss are non-negative, at most one is non-zero, and gain - loss is the bar's change |
| Rsi.RsiOfBounds | src/mastra/tools/indicators-tool.ts:350-358 | for non-negative averages the RSI lies in [0, 100], is 100 iff the average loss is 0, and is 0 when only losses |
| Rsi.RsiValidIff | src/mastra/tools/indicators-tool.ts:336-362 | the RSI is valid exactly from index length-1 |
| Rsi.AveragesNonNegative | src/mastra/tools/indicators-tool.ts:339-348 | both Wilder averages are non-negative |
| Rsi.RsiBounds | src/mastra/tools/indicators-tool.ts:336-362 | every valid RSI lies in [0, 100] and is 100 iff the average loss is 0 |
| Rsi.RsiOfNonFalling | src/mastra/tools/indicators-tool.ts:336-362 | a series that never falls has RSI 100 |
| Bollinger.ComputeBb | src/mastra/tools/indicators-tool.ts:371-395 | the loop yields mid = SMA, up/dn = mid ± mult·sd and width = up - dn, warm-up `length` |
| Bollinger.BandsValidIff | src/mastra/tools/indicators-tool.ts:371-395 | all four bands are valid exactly from index length-1 |
| Bollinger.BandsShape | src/mastra/tools/indicators-tool.ts:371-395 | the bands are symmetric around the mid, width = 2·mult·sd, and for mult ≥ 0, dn ≤ mid ≤ up and width ≥ 0 |
| Bollinger.BandsOfFlatWindow | src/mastra/tools/indicators-tool.ts:371-395 | on a flat window all bands equal the price and the width is 0 |
| Supertrend.BasicUpperSpec | src/mastra/tools/indicators-tool.ts:410-422 | one basic upper band value per bar |
| Supertrend.BasicLowerSpec | src/mastra/tools/indicators-tool.ts:410-422 | one basic lower band value per bar |
| Supertrend.BasicBands | src/mastra/tools/indicators-tool.ts:410-422 | the loop yields hl2 ± mult·ATR, NaN where the ATR is NaN |
| Supertrend.FinalBands | src/mastra/tools/indicators-tool.ts:423-452 | the loop yields the as-written ratchet and trend recurrence |
| Supertrend.ComputeSupertrend | src/mastra/tools/indicators-tool.ts:405-456 | the output is the as-written recurrence over the basic bands built from the ATR of length atrLen, with warm-up atrLen + 2 |
| Supertrend.StNeverValid | src/mastra/tools/indicators-tool.ts:423-452 | as written, every state has NaN bands and trend 0 |
| Supertrend.SupertrendConstant | src/mastra/tools/indicators-tool.ts:405-456 | as written, `st_trend` is 0 and both final bands are NaN at every bar |
| Supertrend.SeededUpper | src/mastra/tools/indicators-tool.ts:439-441 | corrected upper band (seeded with the basic band when there is no previous final band) is valid iff the basic band is valid |
| Supertrend.SeededLower | src/mastra/tools/indicators-tool.ts:443-445 | corrected lower band (seeded with the basic band when there is no previous final band) is valid iff the basic band is valid |
| Supertrend.SeededValidIff | src/mastra/tools/indicators-tool.ts:423-452 | corrected final bands are valid exactly where the basic bands are |
| Supertrend.SeededValidFromAtrWarmup | src/mastra/tools/indicators-tool.ts:405-456 | corrected final bands are valid exactly from index atrLen-1 |
| Supertrend.SeededRatchet | src/mastra/tools/indicators-tool.ts:439-445 | while the previous close is inside it, the upper band never rises and the lower band never falls |
| Supertrend.SeededTrendFlips | src/mastra/tools/indicators-tool.ts:448-451 | a close above the previous upper band gives trend 1, otherwise a close below the previous lower band gives trend -1 |
| Supertrend.SeededTrendValues | src/mastra/tools/indicators-tool.ts:448-451 | the trend is always -1, 0 or 1 |
| Supertrend.BreakoutExample | src/mastra/tools/indicators-tool.ts:423-452 | on closes 1, 1, 10 the corrected trend is 1 while the as-written trend is 0 |
| Gathering.GatherOk | src/mastra/tools/indicators-tool.ts:221-231 | when the request loop completes, it has one step per request, each the request's own successful result |
| Gathering.GatherFirstFailure | src/mastra/tools/indicators-tool.ts:221-231 | the loop completes iff every request succeeds; otherwise its error is that of the first failing request |
| Gathering.GatherPush | src/mastra/tools/indicators-tool.ts:221-231 | one more successful request appends its step |
| Gathering.GatherStop | src/mastra/tools/indicators-tool.ts:221-231 | the first failing request's error ends the whole call |
| Gathering.GatherErrorSticks | src/mastra/tools/indicators-tool.ts:221-231 | once a prefix of the requests has failed, later requests do not change the outcome |
| Indicators.Merge | src/mastra/tools/indicators-tool.ts:224 | `{...defaults, ...params}`: the merged keys are the union, and a request value overrides the default |
| Indicators.IntField | src/mastra/tools/indicators-tool.ts:240 | a `z.number().int().min(m).default(d)` field: absent or undefined gives d; accepted iff an integer ≥ m; otherwise an invalid-parameter error naming the key |
| Indicators.PositiveField | src/mastra/tools/indicators-tool.ts:366 | a `z.number().positive().default(d)` field: absent or undefined gives d; accepted iff > 0; otherwise an invalid-parameter error naming the key |
| Indicators.ParseFits | src/mastra/tools/indicators-tool.ts:224 | every parameter set a schema accepts meets the compute function's requirements |
| Indicators.RunCompute | src/mastra/tools/indicators-tool.ts:225 | dispatching to the indicator's compute returns that indicator's specified output and warm-up |
| Indicators.StepResults | src/mastra/tools/indicators-tool.ts:221-225 | one resolve-and-compute outcome per request, in request order |
| Indicators.EngineSeries | src/mastra/tools/indicators-tool.ts:215-225 | the series given to each compute is well formed, with one bar per candle |
| Indicators.StoredStep | src/mastra/tools/indicators-tool.ts:226-229 | storing one more output key writes that key's series into `outputs` and `{warmup, params}` into `meta` |
| Indicators.Emit | src/mastra/tools/indicators-tool.ts:226-229 | the key loop writes every output key of one compute, with its meta, over the tables |
| Indicators.Registry.constructor | src/mastra/tools/indicators-tool.ts:208 | a new registry holds no definitions |
| Indicators.Registry.Register | src/mastra/tools/indicators-tool.ts:210-212 | registering sets the definition under its name and leaves every other name as before |
| Indicators.Registry.ComputeIndicators | src/mastra/tools/indicators-tool.ts:214-233 | the request loop returns exactly `ComputeIndicatorsSpec`: the first error, or the tables of every request |
| Indicators.NewBuiltinRegistry | src/mastra/tools/indicators-tool.ts:240-457 | after the six registrations the registry holds exactly the six built-in definitions |
| Indicators.ComputedLengths | src/mastra/tools/indicators-tool.ts:245-456 | every output series of every indicator has one entry per bar |
| Indicators.EmittedFacts | src/mastra/tools/indicators-tool.ts:226-229 | after one compute, the keys are the old keys plus the computed ones; computed keys hold the new series and meta, the rest are unchanged |
| Indicators.FoldKeys | src/mastra/tools/indicators-tool.ts:221-231 | `outputs` and `meta` always have the same keys, namely the keys some request produced |
| Indicators.FoldFromProducer | src/mastra/tools/indicators-tool.ts:221-231 | every stored series and meta came from some request that produced that key |
| Indicators.FoldLastProducer | src/mastra/tools/indicators-tool.ts:226-229 | a key keeps the series and meta of the last request that produced it (later requests overwrite) |
| Indicators.StepsOk | src/mastra/tools/indicators-tool.ts:221-231 | a successful loop has one step per request, each that request's result |
| Indicators.StepOfResolve | src/mastra/tools/indicators-tool.ts:222-225 | a request computes iff its name is registered and its parameters parse, with the same error otherwise |
| Indicators.StepResolved | src/mastra/tools/indicators-tool.ts:222-225 | a resolved request runs its definition's compute on the parsed parameters |
| Indicators.StepsAllResolve | src/mastra/tools/indicators-tool.ts:221-231 | the call succeeds iff every request resolves |
| Indicators.StepsFirstFailure | src/mastra/tools/indicators-tool.ts:221-231 | a failed call reports the error of the first request that does not resolve |
| Indicators.StepLengths | src/mastra/tools/indicators-tool.ts:225 | every output of one step has one entry per bar |
| Indicators.EngineShape | src/mastra/tools/indicators-tool.ts:214-233 | `len` is the candle count; `outputs` and `meta` share keys; every series has `len` entries; with the built-in registry the only possible error is an invalid parameter |
| Indicators.BuiltinResolveError | src/mastra/tools/indicators-tool.ts:240-457 | every request name is registered by the built-ins, so resolution can fail only on parameters |
| Indicators.ParseErrorIsInvalidParam | src/mastra/tools/indicators-tool.ts:224 | a schema rejection is always an invalid-parameter error |
| Indicators.HmaLengthChecked | src/mastra/tools/indicators-tool.ts:240 | an HMA length is accepted iff it is an integer ≥ 2, and is then used as given |
| Indicators.BbMultChecked | src/mastra/tools/indicators-tool.ts:366 | a Bollinger multiplier is accepted iff it is positive; the length then defaults to 20 |
| Indicators.DefaultsWhenAbsent | src/mastra/tools/indicators-tool.ts:240-403 | without parameters each built-in uses its defaults: 55; 30/2/30; 14; 14; 20 and 2; 10 and 3 |
| Indicators.StKeysOnlyFromSupertrend | src/mastra/tools/indicators-tool.ts:455 | only the Supertrend produces the `st_*` keys |
| Indicators.BuiltinSupertrendStep | src/mastra/tools/indicators-tool.ts:405-456 | the built-in Supertrend step yields all three `st_*` keys, with trend 0 and NaN bands at every bar |
| Indicators.EngineSupertrendConstant | src/mastra/tools/indicators-tool.ts:214-233 | in any successful engine call with the built-ins, a stored `st_trend` is 0 throughout and the stored bands are NaN |
| SetupHelpers.Sign | src/mastra/agents/ta-setup-agent.ts:52-56 | the sign is 1 iff x > 0, -1 iff x < 0, and 0 iff x = 0 |
| SetupHelpers.Valid | src/mastra/agents/ta-setup-agent.ts:60 | the non-NaN values are no more than the entries |
| SetupHelpers.Insert | src/mastra/agents/ta-setup-agent.ts:62 | inserting into a sorted list adds exactly one element |
| SetupHelpers.InsertPerm | src/mastra/agents/ta-setup-agent.ts:62 | inserting adds exactly the new value to the multiset |
| SetupHelpers.InsertAbove | src/mastra/agents/ta-setup-agent.ts:62 | inserting keeps every element above a common lower bound |
| SetupHelpers.InsertSorted | src/mastra/agents/ta-setup-agent.ts:62 | inserting into a sorted list keeps it sorted |
| SetupHelpers.SortSpec | src/mastra/agents/ta-setup-agent.ts:62 | the ascending sort keeps the length |
| SetupHelpers.SortSpecSorted | src/mastra/agents/ta-setup-agent.ts:62 | `v.sort((a, b) => a - b)` yields an ascending permutation of v |
| SetupHelpers.SortedHeadLeast | src/mastra/agents/ta-setup-agent.ts:62 | the first element of a sorted list is its least value |
| SetupHelpers.TailValues | src/mastra/agents/ta-setup-agent.ts:62 | dropping the head removes exactly one copy of it |
| SetupHelpers.SortedTail | src/mastra/agents/ta-setup-agent.ts:62 | the tail of a sorted list is sorted |
| SetupHelpers.SortedUnique | src/mastra/agents/ta-setup-agent.ts:62 | two sorted permutations of the same values are equal, so the median does not depend on the sort algorithm |
| SetupHelpers.ValidMembers | src/mastra/agents/ta-setup-agent.ts:60 | the collected values are exactly the non-NaN entries |
| SetupHelpers.ValidEmptyIff | src/mastra/agents/ta-setup-agent.ts:60-61 | nothing is collected iff every entry is NaN |
| SetupHelpers.MedianNaNIff | src/mastra/agents/ta-setup-agent.ts:58-65 | the median is NaN iff every entry is NaN |
| SetupHelpers.MedianOfSortedBounds | src/mastra/agents/ta-setup-agent.ts:63-64 | the middle element, or the mean of the two middle elements, lies between the least and greatest values |
| SetupHelpers.MedianBetweenValid | src/mastra/agents/ta-setup-agent.ts:58-65 | a median lies between two valid entries of the array |
| SetupHelpers.SinkStep | src/mastra/agents/ta-setup-agent.ts:62 | one swap of the insertion step keeps the sinking invariant |
| SetupHelpers.SinkDone | src/mastra/agents/ta-setup-agent.ts:62 | when the element stops sinking, the prefix is sorted |
| SetupHelpers.SinkInto | src/mastra/agents/ta-setup-agent.ts:62 | inserting element i into the sorted prefix in place sorts the prefix through i and permutes the array |
| SetupHelpers.SortInPlace | src/mastra/agents/ta-setup-agent.ts:62 | the in-place sort leaves the array sorted and a permutation of its old contents |
| SetupHelpers.CollectValid | src/mastra/agents/ta-setup-agent.ts:59-60 | the push loop collects exactly the non-NaN values, in order |
| SetupHelpers.SortedCopy | src/mastra/agents/ta-setup-agent.ts:62 | copying into an array and sorting it yields the ascending permutation |
| SetupHelpers.MedianIgnoreNaN | src/mastra/agents/ta-setup-agent.ts:58-65 | the method returns the median of the non-NaN values, or NaN when there are none |
| SetupHelpers.LastValidIndexSpec | src/mastra/agents/ta-setup-agent.ts:72-75 | the result is -1 or an index of a valid entry, with no valid entry after it |
| SetupHelpers.LastValidIndexIff | src/mastra/agents/ta-setup-agent.ts:67-75 | the index is -1 iff all entries are NaN; lastValid is undefined exactly then, and otherwise is the value at that index |
| SetupHelpers.LastValidIndex | src/mastra/agents/ta-setup-agent.ts:72-75 | the backward scan returns the index of the last non-NaN entry, or -1 |
| SetupHelpers.LastValid | src/mastra/agents/ta-setup-agent.ts:67-70 | the backward scan returns the last non-NaN value, or undefined |
| SetupHelpers.PivotHighsExact | src/mastra/agents/ta-setup-agent.ts:78-94 | the recorded pivot highs are exactly the indices below the bound whose high is the maximum of its window, in increasing order |
| SetupHelpers.PivotLowsExact | src/mastra/agents/ta-setup-agent.ts:78-94 | the recorded pivot lows are exactly the indices below the bound whose low is the minimum of its window, in increasing order |
| SetupHelpers.ScanWindow | src/mastra/agents/ta-setup-agent.ts:83-89 | the window scan, with its early break, decides both pivot tests exactly |
| SetupHelpers.FindPivots | src/mastra/agents/ta-setup-agent.ts:78-94 | the loop returns exactly the pivot highs and lows for indices left ≤ i < n - right |
| SetupHelpers.PivotsBelowEnd | src/mastra/agents/ta-setup-agent.ts:82 | indices at or beyond n - right are never scanned |
| SetupHelpers.PivotsBelowStart | src/mastra/agents/ta-setup-agent.ts:82 | indices below left are never scanned |
| SetupFrame.ParseConfig | src/mastra/agents/ta-setup-agent.ts:23-35 | an omitted config gives all defaults; for each of the eleven settings a given value is kept and a missing one takes its schema default (55, 30, 14, 20, 0.12, 2, 2, 0.5, 0.35, 0.15, 0.67) |
| SetupFrame.Line | src/mastra/agents/ta-setup-agent.ts:126-131 | the output lookup succeeds iff the key the agent spells is among the outputs, and then returns that series |
| SetupFrame.Highs | src/mastra/agents/ta-setup-agent.ts:147 | one high per candle |
| SetupFrame.Lows | src/mastra/agents/ta-setup-agent.ts:148 | one low per candle |
| SetupFrame.Closes | src/mastra/agents/ta-setup-agent.ts:169 | one close per candle |
| SetupFrame.LastValidUnique | src/mastra/agents/ta-setup-agent.ts:135 | a valid entry with no valid entry after it is what lastValidIndex returns |
| SetupFrame.SlopeSign | src/mastra/agents/ta-setup-agent.ts:135-137 | the slope is positive iff the last two valid HMA points rise, and negative iff they fall |
| SetupFrame.KamaDirSign | src/mastra/agents/ta-setup-agent.ts:138-140 | the KAMA direction is 1 iff the last close is above the last valid KAMA, and -1 iff below |
| SetupFrame.TrendDirMeaning | src/mastra/agents/ta-setup-agent.ts:134-141 | the trend is -1, 0 or 1; it is 1 iff one signal is bullish and neither is bearish, -1 symmetrically |
| SetupFrame.TrendDir | src/mastra/agents/ta-setup-agent.ts:134-141 | the trend direction of a frame is -1, 0 or 1 |
| SetupFrame.LastTwoOfIncreasing | src/mastra/agents/ta-setup-agent.ts:152-153 | in an increasing index list, `slice(-2)` is the pair (a, b) with a < b and nothing in the list above a except b |
| SetupFrame.LastPivotsInRange | src/mastra/agents/ta-setup-agent.ts:151-157 | the last two pivot indices index the high and low series |
| SetupFrame.PivotDir | src/mastra/agents/ta-setup-agent.ts:150-160 | the pivot structure is -1, 0 or 1 |
| SetupFrame.LastTwoHighsExact | src/mastra/agents/ta-setup-agent.ts:152 | the last two pivot highs are characterised by the pivot definition alone |
| SetupFrame.LastTwoLowsExact | src/mastra/agents/ta-setup-agent.ts:153 | the last two pivot lows are characterised by the pivot definition alone |
| SetupFrame.HighsCompared | src/mastra/agents/ta-setup-agent.ts:154-156 | the higher-high and lower-high tests compare the last two pivot highs |
| SetupFrame.LowsCompared | src/mastra/agents/ta-setup-agent.ts:155-157 | the higher-low and lower-low tests compare the last two pivot lows |
| SetupFrame.PivotDirMeaning | src/mastra/agents/ta-setup-agent.ts:150-160 | the structure is 1 iff higher highs and higher lows, and -1 iff lower highs and lower lows |
| SetupFrame.StructDirFillsIn | src/mastra/agents/ta-setup-agent.ts:161-163 | a pivot verdict stands; when it is 0, a last Supertrend value of ±1 decides |
| SetupFrame.StructDir | src/mastra/agents/ta-setup-agent.ts:146-163 | the structure direction is -1, 0 or 1, and a non-zero pivot verdict is never overridden by the Supertrend |
| SetupFrame.Normalized | src/mastra/agents/ta-setup-agent.ts:171-174 | one normalised entry per indicator entry |
| SetupFrame.NormalizedRoundTrip | src/mastra/agents/ta-setup-agent.ts:171-174 | a normalised entry is valid iff the value is valid and the close is non-zero, and multiplying back by the close recovers the value |
| SetupFrame.Normalize | src/mastra/agents/ta-setup-agent.ts:171-174 | the loop divides each indicator value by its close, NaN where invalid or the close is 0 |
| SetupFrame.RegimeMeaning | src/mastra/agents/ta-setup-agent.ts:175-186 | volatile iff both last values exceed their medians; range iff both are at most their medians; trend when a series has no valid value |
| SetupFrame.RegimeOf | src/mastra/agents/ta-setup-agent.ts:175-186 | a frame is volatile or range only when both normalised series have a last valid value and a median |
| SetupFrame.RegEase | src/mastra/agents/ta-setup-agent.ts:187 | the ease is 1 for trend, 0.5 for range, 0.3 for volatile: it lies in [0.3, 1] and is 1 iff trend |
| SetupFrame.TrendDirOf | src/mastra/agents/ta-setup-agent.ts:134-141 | the trend block computes the specified trend direction |
| SetupFrame.StructDirOf | src/mastra/agents/ta-setup-agent.ts:146-163 | the structure block computes the specified structure direction |
| SetupFrame.RegimeBlock | src/mastra/agents/ta-setup-agent.ts:168-186 | the regime block computes the regime from the normalised ATR and band width, with their last values |
| SetupFrame.Opine | src/mastra/agents/ta-setup-agent.ts:134-190 | one frame's opinion: timeframe, trend, structure, regime and ease |
| SetupFrame.FrameOpinion | src/mastra/agents/ta-setup-agent.ts:115-190 | calling the engine and opining on one frame returns exactly `FrameSpec` |
| FrameEngine.EngineSeriesOfFrame | src/mastra/agents/ta-setup-agent.ts:124 | the engine sees the frame's candles, and the picked close price is the candle closes |
| FrameEngine.HmaRequest | src/mastra/agents/ta-setup-agent.ts:115-122 | the HMA request resolves iff hmaLen is an integer ≥ 2 |
| FrameEngine.KamaRequest | src/mastra/agents/ta-setup-agent.ts:115-122 | the KAMA request resolves iff kamaLen is an integer ≥ 2, with fast 2 and slow 30 |
| FrameEngine.AtrRequest | src/mastra/agents/ta-setup-agent.ts:115-122 | the ATR request resolves iff atrLen is an integer ≥ 1 |
| FrameEngine.BbRequest | src/mastra/agents/ta-setup-agent.ts:115-122 | the Bollinger request resolves iff bbLen is an integer ≥ 2, with multiplier 2 |
| FrameEngine.RsiRequest | src/mastra/agents/ta-setup-agent.ts:115-122 | the RSI request always resolves with length 14 |
| FrameEngine.SupertrendRequest | src/mastra/agents/ta-setup-agent.ts:115-122 | the Supertrend request resolves iff atrLen is an integer ≥ 1, with multiplier 3 |
| FrameEngine.FrameAccepted | src/mastra/agents/ta-setup-agent.ts:115-124 | with acceptable lengths, the engine call succeeds |
| FrameEngine.FrameRejectedFails | src/mastra/agents/ta-setup-agent.ts:115-124 | with an unacceptable length, the engine call fails |
| FrameEngine.FrameRejected | src/mastra/agents/ta-setup-agent.ts:115-124 | an unacceptable length makes the engine throw on the `length` parameter |
| FrameEngine.FrameSteps | src/mastra/agents/ta-setup-agent.ts:115-124 | the six requests succeed iff the configured lengths are acceptable; otherwise the error is on `length` |
| FrameEngine.AcceptedSteps | src/mastra/agents/ta-setup-agent.ts:115-124 | an accepted frame runs six steps |
| FrameEngine.Step0Output | src/mastra/agents/ta-setup-agent.ts:116 | the HMA step outputs only `hma_<hmaLen>` |
| FrameEngine.Step1Output | src/mastra/agents/ta-setup-agent.ts:117 | the KAMA step outputs only `kama_<kamaLen>` |
| FrameEngine.Step2Output | src/mastra/agents/ta-setup-agent.ts:118 | the ATR step outputs only `atr_<atrLen>` |
| FrameEngine.Step3Output | src/mastra/agents/ta-setup-agent.ts:119 | the Bollinger step outputs its four keys |
| FrameEngine.Step4Output | src/mastra/agents/ta-setup-agent.ts:120 | the RSI step outputs only `rsi_14` |
| FrameEngine.Step5Output | src/mastra/agents/ta-setup-agent.ts:121 | the Supertrend step outputs the three `st_*` keys |
| FrameEngine.StepOutputs | src/mastra/agents/ta-setup-agent.ts:115-124 | the six step outputs together |
| FrameEngine.HmaLine | src/mastra/agents/ta-setup-agent.ts:126 | `outputs['hma_'+hmaLen]` is the HMA of the closes |
| FrameEngine.KamaLine | src/mastra/agents/ta-setup-agent.ts:127 | `outputs['kama_'+kamaLen]` is the KAMA of the closes |
| FrameEngine.AtrLine | src/mastra/agents/ta-setup-agent.ts:128 | `outputs['atr_'+atrLen]` is the ATR of the frame |
| FrameEngine.BbWidthLine | src/mastra/agents/ta-setup-agent.ts:129 | `outputs['bb_width_'+bbLen]` is the Bollinger width |
| FrameEngine.StTrendLine | src/mastra/agents/ta-setup-agent.ts:130 | `outputs['st_trend']` is the Supertrend trend |
| FrameEngine.FrameLines | src/mastra/agents/ta-setup-agent.ts:126-130 | the five series the agent reads are the indicators it asked for |
| FrameEngine.FrameWithBuiltins | src/mastra/agents/ta-setup-agent.ts:115-190 | with the built-in registry a frame fails iff a length is unacceptable (error on `length`), and otherwise yields the opinion computed from the six indicators |
| FrameEngine.FrameStructureIsPivots | src/mastra/agents/ta-setup-agent.ts:146-163 | since `st_trend` is always 0, the structure direction is the pivot verdict alone |
| SetupFusion.Count | src/mastra/agents/ta-setup-agent.ts:195-196 | a filter count never exceeds the number of frames |
| SetupFusion.CountExtremes | src/mastra/agents/ta-setup-agent.ts:195-196 | a count is 0 iff no frame matches, and equals the frame count iff all match |
| SetupFusion.CountDisjoint | src/mastra/agents/ta-setup-agent.ts:195-197 | counts of disjoint predicates add up to at most the frame count |
| SetupFusion.CountPartition | src/mastra/agents/ta-setup-agent.ts:210-216 | counts of a three-way partition add up to the frame count |
| SetupFusion.VotesWithin | src/mastra/agents/ta-setup-agent.ts:195-197 | pos + neg ≤ nF |
| SetupFusion.RegimesPartition | src/mastra/agents/ta-setup-agent.ts:210-216 | trend, range and volatile frames add up to nF |
| SetupFusion.Eases | src/mastra/agents/ta-setup-agent.ts:205 | one regime ease per frame, in frame order |
| SetupFusion.DirectionMeaning | src/mastra/agents/ta-setup-agent.ts:200 | long is tested first: dir is 1 iff nF > 0 and pos ≥ alignMin·nF, and -1 iff nF > 0, pos < alignMin·nF and neg ≥ alignMin·nF; for alignMin > 0.5 the order does not matter |
| SetupFusion.Direction | src/mastra/agents/ta-setup-agent.ts:194-200 | dir is -1, 0 or 1; it is 0 with no frames or no threshold, and a side is chosen only when its share reaches the threshold |
| SetupFusion.PercentBounds | src/mastra/agents/ta-setup-agent.ts:202-205 | `Math.round(x/nF·100)` stays within integer bounds of the ratio |
| SetupFusion.FrameLines | src/mastra/agents/ta-setup-agent.ts:229 | one `[tf] …` evidence line per frame |
| SetupFusion.AlignmentKeys | src/mastra/agents/ta-setup-agent.ts:231-232 | the alignment map's keys are exactly the frames' timeframes |
| SetupFusion.AlignmentLast | src/mastra/agents/ta-setup-agent.ts:231-232 | a repeated timeframe keeps the trend of its last frame |
| SetupFusion.BuildAlignment | src/mastra/agents/ta-setup-agent.ts:231-232 | the loop builds the alignment map |
| SetupFusion.BuildEvidence | src/mastra/agents/ta-setup-agent.ts:225-229 | the three summary lines, then one line per frame |
| SetupFusion.FuseOpinions | src/mastra/agents/ta-setup-agent.ts:193-240 | fusing the opinions returns exactly `Fuse` |
| SetupFusion.FuseNoFrames | src/mastra/agents/ta-setup-agent.ts:193-240 | with no frames: neutral, trend regime, NaN score and breakdown, empty alignment |
| SetupFusion.BreakdownBounds | src/mastra/agents/ta-setup-agent.ts:202-205 | the trend and structure scores lie in [0, 100], and the volatility score in [30, 100] |
| SetupFusion.WeightedBounds | src/mastra/agents/ta-setup-agent.ts:208-209 | weights summing to 1 keep the weighted score within the component bounds |
| SetupFusion.TotalBounds | src/mastra/agents/ta-setup-agent.ts:208-211 | with weights summing to 1, the total lies in [0, 100] |
| SetupFusion.VolatileCap | src/mastra/agents/ta-setup-agent.ts:210-211 | when more than half the frames are volatile the total is at most 70 |
| SetupFusion.OverallRegimeMeaning | src/mastra/agents/ta-setup-agent.ts:213-216 | the overall regime is volatile iff more than half are volatile, otherwise range iff more than half are range |
| SetupFusion.OverallRegime | src/mastra/agents/ta-setup-agent.ts:213-216 | volatile exactly when more than half the frames are volatile; range only when more than half are range |
| SetupFusion.Total | src/mastra/agents/ta-setup-agent.ts:209-211 | the total never exceeds the rounded weighted score, and is at most 70 when more than half the frames are volatile |
| SetupFusion.DecisionMeaning | src/mastra/agents/ta-setup-agent.ts:218-223 | long iff total ≥ 65 and dir 1; short iff total ≥ 65 and dir -1; a decision needs at least one frame |
| SetupFusion.DecisionOf | src/mastra/agents/ta-setup-agent.ts:218-223 | a decision other than neutral needs a score of at least 65; long needs dir 1 and short dir -1 |
| SetupFusion.FuseBounds | src/mastra/agents/ta-setup-agent.ts:193-240 | with frames and weights summing to 1, score and breakdown are numbers in [0, 100] (volatility ≥ 30); the regime is volatile iff more than half the frames are, and then the score is at most 70 |
| SetupFusion.UnanimousLong | src/mastra/agents/ta-setup-agent.ts:195-202 | when every frame's trend is 1 and alignMin ≤ 1, dir is 1 and the trend score is 100 |
| SetupAgent.FrameResults | src/mastra/agents/ta-setup-agent.ts:114-191 | one frame result per frame, each the frame's own opinion or error |
| SetupAgent.FrameOpinions | src/mastra/agents/ta-setup-agent.ts:114-191 | the frame loop stops at the first failing frame, else collects every opinion |
| SetupAgent.TaSetupAgent | src/mastra/agents/ta-setup-agent.ts:100-242 | the agent returns exactly `AgentSpec`: the error, or the fused score over all frames |
| SetupAgent.OpinionOfWellFormed | src/mastra/agents/ta-setup-agent.ts:134-190 | every opinion has trend and structure in {-1, 0, 1} and ease in [0.3, 1], tagged with its frame's timeframe |
| SetupAgent.FrameOpinionWellFormed | src/mastra/agents/ta-setup-agent.ts:115-190 | every successful frame opinion is well formed |
| SetupAgent.AgentScoreBounds | src/mastra/agents/ta-setup-agent.ts:193-240 | with frames and weights summing to 1, the score and breakdown lie in [0, 100] |
| SetupAgent.AgentWithBuiltins | src/mastra/agents/ta-setup-agent.ts:100-242 | with the built-ins the agent fails iff some frame has an unacceptable length (the engine error on `length`) or the config is omitted (reading `input.config.alignMin` throws) |
| SetupAgent.AsWrittenNeverDecides | src/mastra/agents/ta-setup-agent.ts:200 | as written, a config without alignMin makes every decision neutral, although the parsed default is 0.67 |
| SetupAgent.AlignMinExample | src/mastra/agents/ta-setup-agent.ts:200 | one bullish frame scoring 100 stays neutral as written, and is long with the parsed alignMin |
| SetupAgent.CorrectedUnanimousLong | src/mastra/agents/ta-setup-agent.ts:193-223 | corrected: it fails only where the frames fail, and unanimous long frames with score ≥ 65 give a long decision |
| Text.TrimStartMeaning | src/mastra/tools/format-converter-tool.ts:300 | trimming the start removes exactly a leading run of white space, leaving a suffix that does not start with white space |
| Text.TrimEndMeaning | src/mastra/tools/format-converter-tool.ts:300 | trimming the end removes exactly a trailing run of white space, leaving a prefix that does not end with white space |
| Text.TrimShorter | src/mastra/tools/format-converter-tool.ts:300 | `trim` never lengthens a string |
| Text.TrimEmpty | src/mastra/tools/format-converter-tool.ts:300 | `s.trim()` is empty iff s is all white space |
| Text.NonBlankExtended | src/mastra/tools/format-converter-tool.ts:300 | appending to a non-blank string keeps it non-blank |
| Text.TrimKeeps | src/mastra/tools/format-converter-tool.ts:300 | a string with no white space at either end is its own trim |
| Text.Split | src/mastra/tools/format-converter-tool.ts:295 | `split(/[。！？]/)` yields at least one piece, and no piece contains a stop |
| Text.NormalizeStops | src/mastra/tools/format-converter-tool.ts:295 | rewriting every stop as 。 keeps the length |
| Text.JoinSplit | src/mastra/tools/format-converter-tool.ts:295 | joining the split pieces with 。 gives back the text with every stop written as 。 |
| Text.SplitFirst | src/mastra/tools/format-converter-tool.ts:272 | the first piece is the longest stop-free prefix, ending at the first stop or the end of the text |
| Text.Take | src/mastra/tools/format-converter-tool.ts:249 | `slice(0, n)` keeps the first min(n, length) elements |
| Text.Lower | src/mastra/workflows/news-processing-workflow.ts:452 | `toLowerCase` maps every character and keeps the length |
| Text.RemoveSpaces | src/mastra/workflows/news-processing-workflow.ts:452 | `replace(/\s+/g, '')` leaves no white space and never lengthens the string |
| Keywords.HanPrefix | src/mastra/tools/format-converter-tool.ts:240 | the Han run at the start of the text is maximal |
| Keywords.Runs | src/mastra/tools/format-converter-tool.ts:240 | every match of the greedy regex is a Han run of length ≥ 2 |
| Keywords.Spans | src/mastra/tools/format-converter-tool.ts:240 | the match bounds are exactly the maximal Han runs of length ≥ 2 at or after the start index, each once, left to right, each ending before the next begins |
| Keywords.RunStartsAt | src/mastra/tools/format-converter-tool.ts:240 | a maximal run cannot start inside, or right after, a Han run; the one starting at its beginning is that run |
| Keywords.SpansSkip | src/mastra/tools/format-converter-tool.ts:240 | no match starts at a non-Han character |
| Keywords.SpansCons | src/mastra/tools/format-converter-tool.ts:240 | a Han run of two or more is matched, followed by the matches after it |
| Keywords.ConsEntries | src/mastra/tools/format-converter-tool.ts:240 | every span after that step is a maximal run at or after the start index |
| Keywords.ConsOrdered | src/mastra/tools/format-converter-tool.ts:240 | the spans after that step are in left-to-right order and do not overlap |
| Keywords.ConsComplete | src/mastra/tools/format-converter-tool.ts:240 | no maximal run at or after the start index is missed |
| Keywords.RunsMeaning | src/mastra/tools/format-converter-tool.ts:240 | the matches are exactly the maximal Han runs of length ≥ 2, in text order: each match is one, and every one is matched |
| Keywords.RunsAreMaximal | src/mastra/tools/format-converter-tool.ts:240 | every match is a maximal Han run of the text |
| Keywords.Entries | src/mastra/tools/format-converter-tool.ts:241-245 | one map entry per distinct word |
| Keywords.Insert | src/mastra/tools/format-converter-tool.ts:247-248 | inserting into the descending list adds one entry |
| Keywords.SortByCount | src/mastra/tools/format-converter-tool.ts:247-248 | sorting by count keeps the number of entries |
| Keywords.Names | src/mastra/tools/format-converter-tool.ts:250 | `map(([word]) => word)` keeps the word of every entry, in order |
| Keywords.InsertPermutes | src/mastra/tools/format-converter-tool.ts:247-248 | inserting adds exactly the new entry |
| Keywords.InsertBounded | src/mastra/tools/format-converter-tool.ts:247-248 | inserting keeps all counts under a common bound |
| Keywords.InsertSorted | src/mastra/tools/format-converter-tool.ts:247-248 | inserting keeps the counts non-increasing |
| Keywords.InsertDistinct | src/mastra/tools/format-converter-tool.ts:247-248 | inserting a new entry keeps the entries distinct |
| Keywords.SortByCountMeaning | src/mastra/tools/format-converter-tool.ts:247-248 | `sort((a, b) => b[1] - a[1])` gives a permutation with non-increasing counts |
| Keywords.EntriesMeaning | src/mastra/tools/format-converter-tool.ts:241-245 | the map's entries are distinct, each pairs a word with its number of occurrences, and every word has one |
| Keywords.SortedEntriesMeaning | src/mastra/tools/format-converter-tool.ts:241-248 | the sorted entries cover every word exactly once, with its count, in non-increasing count order |
| Keywords.KeywordsMeaning | src/mastra/tools/format-converter-tool.ts:238-251 | at most 20 keywords, each a match and so a maximal Han run of the text, without repeats, ordered by non-increasing frequency |
| Keywords.KeywordsSpec | src/mastra/tools/format-converter-tool.ts:238-251 | at most twenty keywords |
| Keywords.KeywordsCutoff | src/mastra/tools/format-converter-tool.ts:249 | a word left out is only left out because 20 words at least as frequent were kept |
| Keywords.CountWords | src/mastra/tools/format-converter-tool.ts:241-245 | the counting loop returns the words in first-seen order with their exact counts |
| Keywords.ExtractKeywords | src/mastra/tools/format-converter-tool.ts:238-251 | the method returns exactly the specified keywords |
| Dedup.KeysOfMembers | src/mastra/workflows/news-processing-workflow.ts:450-458 | a key has been seen iff some article before has that key |
| Dedup.DedupBy | src/mastra/workflows/news-processing-workflow.ts:449-459 | the filter never lengthens the list |
| Dedup.DedupPush | src/mastra/workflows/news-processing-workflow.ts:452-457 | an article is kept iff its key has not been seen, and keeping it records its key |
| Dedup.KeysOfPush | src/mastra/workflows/news-processing-workflow.ts:456 | `seen.add(key)` adds exactly that key |
| Dedup.DedupKeys | src/mastra/workflows/news-processing-workflow.ts:449-459 | de-duplication keeps every key |
| Dedup.DedupHead | src/mastra/workflows/news-processing-workflow.ts:449-459 | the first article is always kept |
| Dedup.DedupUnique | src/mastra/workflows/news-processing-workflow.ts:449-459 | the result has no two articles with the same key |
| Dedup.DedupFirstOccurrences | src/mastra/workflows/news-processing-workflow.ts:449-459 | the result is exactly the first occurrence of each key, in input order |
| Dedup.FirstOccurrencesMembers | src/mastra/workflows/news-processing-workflow.ts:449-459 | an article is kept iff it is the first of its key |
| Dedup.DedupOfUnique | src/mastra/workflows/news-processing-workflow.ts:449-459 | a list whose keys are already unique is unchanged |
| Dedup.DedupIdempotent | src/mastra/workflows/news-processing-workflow.ts:449-459 | de-duplicating twice is de-duplicating once |
| FormatConverter.Emoji | src/mastra/tools/format-converter-tool.ts:254 | the neutral 📰 is used iff the category is missing, unmapped or 中性; the emoji always comes from the map |
| FormatConverter.OptimizedTitle | src/mastra/tools/format-converter-tool.ts:253-269 | professional gives emoji, space, title; casual adds `，你怎么看？`; engaging adds `！`; news gives 【category or 资讯】 + title |
| FormatConverter.OptimizedTitleFallback | src/mastra/tools/format-converter-tool.ts:254 | an unknown or missing category is titled as 中性 |
| FormatConverter.Subtitle | src/mastra/tools/format-converter-tool.ts:271-277 | there is a subtitle iff the first sentence has between 11 and 49 characters |
| FormatConverter.SubtitleMeaning | src/mastra/tools/format-converter-tool.ts:271-277 | the subtitle is the first sentence of the text followed by 。 |
| FormatConverter.LongSentences | src/mastra/tools/format-converter-tool.ts:341 | a sentence is kept iff its trim is longer than 10 |
| FormatConverter.LongSentencesAppend | src/mastra/tools/format-converter-tool.ts:341 | the filter keeps input order: filtering a concatenation concatenates the filtered parts |
| FormatConverter.JoinEmpty | src/mastra/tools/format-converter-tool.ts:342 | joining non-empty parts is empty iff there are none, and starts with the first part |
| FormatConverter.ClosedJoin | src/mastra/tools/format-converter-tool.ts:342 | `join('。') + '。'` ends with 。, is just 。 iff there are no parts, and starts with the first part |
| FormatConverter.SummaryMeaning | src/mastra/tools/format-converter-tool.ts:340-343 | the summary ends with 。 and is just 。 iff no sentence is long; with one long sentence it is that sentence + 。, with more it is the first two joined and closed by 。 |
| FormatConverter.Summary | src/mastra/tools/format-converter-tool.ts:340-343 | the summary always ends with 。 |
| FormatConverter.FirstTwoClosed | src/mastra/tools/format-converter-tool.ts:342 | `slice(0, 2).join('。') + '。'` of one part is that part + 。, and of two or more parts is the first two, each followed by 。 |
| FormatConverter.LongSentencesClosed | src/mastra/tools/format-converter-tool.ts:341-342 | the summary's shape, stated on the list of sentences |
| FormatConverter.FormatParagraphs | src/mastra/tools/format-converter-tool.ts:294-315 | the method joins the as-written paragraphs with blank lines |
| FormatConverter.AsWrittenGluesSentences | src/mastra/tools/format-converter-tool.ts:301-306 | as written, a break can close a paragraph with 。。 and glue the next two sentences without a stop |
| FormatConverter.ParagraphsFlushed | src/mastra/tools/format-converter-tool.ts:310-312 | a non-blank open paragraph is flushed, trimmed, after the closed ones |
| FormatConverter.LayoutThree | src/mastra/tools/format-converter-tool.ts:299-308 | the loop's state after three sentences, where the second starts a paragraph |
| FormatConverter.TrimStartBuilding | src/mastra/tools/format-converter-tool.ts:310-312 | trimming the start keeps a paragraph well formed |
| FormatConverter.TrimBuilding | src/mastra/tools/format-converter-tool.ts:310-312 | the trim of a well-formed paragraph ends with exactly one 。 |
| FormatConverter.AppendBuilding | src/mastra/tools/format-converter-tool.ts:305 | appending a sentence and 。 gives a well-formed paragraph |
| FormatConverter.CorrectedStepGood | src/mastra/tools/format-converter-tool.ts:299-308 | the corrected loop step keeps every paragraph well formed |
| FormatConverter.CorrectedFoldInvariant | src/mastra/tools/format-converter-tool.ts:299-308 | the corrected loop keeps every paragraph well formed |
| FormatConverter.CorrectedParagraphsEndOnce | src/mastra/tools/format-converter-tool.ts:294-315 | corrected: every paragraph ends with exactly one 。 |
| FormatConverter.AlternativeTitles | src/mastra/tools/format-converter-tool.ts:279-292 | exactly three titles: 重磅！, 最新： and 关注：, each after the category emoji |
| FormatConverter.ExtractTags | src/mastra/tools/format-converter-tool.ts:345-355 | the method returns exactly the specified tags |
| FormatConverter.TagsMeaning | src/mastra/tools/format-converter-tool.ts:345-355 | at most 6 distinct tags, the category first when given, and every other tag a keyword of title + content |
| FormatConverter.TagsSpec | src/mastra/tools/format-converter-tool.ts:345-355 | at most six tags: the category and five keywords at most |
| FormatConverter.SeoTitle | src/mastra/tools/format-converter-tool.ts:357-359 | titles of at most 60 characters are kept; longer ones become their first 57 characters + ... (60 in all) |
| FormatConverter.SeoTitleIdempotent | src/mastra/tools/format-converter-tool.ts:357-359 | shortening an SEO title again changes nothing |
| FormatConverter.SeoDescription | src/mastra/tools/format-converter-tool.ts:205-207 | summaries of at most 120 characters are kept; longer ones become their first 120 characters + ... |
| FormatConverter.SeoDescriptionIdempotent | src/mastra/tools/format-converter-tool.ts:205-207 | the description is stable when computed again from itself |
| FormatConverter.ReadTime | src/mastra/tools/format-converter-tool.ts:131-133 | `Math.ceil(length / 200)`: the least whole number of 200-character minutes covering the text |
| NewsWorkflow.LowerAppend | src/mastra/workflows/news-processing-workflow.ts:452 | lower-casing distributes over concatenation |
| NewsWorkflow.RemoveSpacesAppend | src/mastra/workflows/news-processing-workflow.ts:452 | removing white space distributes over concatenation |
| NewsWorkflow.KeyIgnoresSpacing | src/mastra/workflows/news-processing-workflow.ts:452 | inserting white space into a title does not change its key |
| NewsWorkflow.AllSpaceRemoved | src/mastra/workflows/news-processing-workflow.ts:452 | a run of white space is removed entirely |
| NewsWorkflow.RemoveDuplicateArticles | src/mastra/workflows/news-processing-workflow.ts:449-459 | the filter with the `seen` set returns the articles de-duplicated by normalised title |
| NewsWorkflow.RemoveDuplicatesMeaning | src/mastra/workflows/news-processing-workflow.ts:449-459 | the first article of each title key is kept, in order; keys are unique, none is lost, and a second pass changes nothing |
| NewsWorkflow.SourceNamesMeaning | src/mastra/workflows/news-processing-workflow.ts:118 | `[...new Set(processedSources)]` lists each processed source once, in first-seen order |
| NewsWorkflow.SourceNames | src/mastra/workflows/news-processing-workflow.ts:118 | no more source names than processed sources |
| NewsWorkflow.Qualified | src/mastra/workflows/news-processing-workflow.ts:150 | the filter keeps exactly the articles with content longer than 100 and title longer than 10 |
| NewsWorkflow.QualifiedSnoc | src/mastra/workflows/news-processing-workflow.ts:150 | the filter keeps input order and multiplicity: nothing from nothing, and one more article is appended exactly when it qualifies |
| NewsWorkflow.SlicePrefix | src/mastra/workflows/news-processing-workflow.ts:151 | `slice(0, n)` keeps min(n, length) elements, and a negative n drops that many from the end |
| NewsWorkflow.FallbackAnalysis | src/mastra/workflows/news-processing-workflow.ts:147-161 | the selection is the first maxArticles qualifying articles, each scored 7 with the fixed reason, and rejected + selected = all |

The corrected definitions of Findings sit beside the as-written ones: `Supertrend.SeededAt`, `SetupAgent.CorrectedAgentSpec` and `FormatConverter.CorrectedParagraphs`. The engine, the agent and `FormatConverter.FormatParagraphs` keep the behaviour the code has, so that every other lemma describes the program as it stands.

## Left out

- Floating point: numbers are exact reals, so IEEE-754 rounding, overflow, infinities and the NaN arithmetic of non-finite inputs are not modelled. Only the explicit NaN warm-up markers are (as `None`).
- Primitives.Stddev: `Math.sqrt` is the stand-in `Numeric.Sqrt`, of which only non-negativity and `sqrt(0) = 0` are used. The Bollinger bands inherit this; their shape lemmas hold for any non-negative square root.
- Hma.RootLength: `floor(sqrt(L))` is the exact integer square root, not the floating-point computation.
- Supertrend.ComputeSupertrend: it uses the built-in ATR definition. The source looks up whatever is registered under `atr` when it runs, so re-registering `atr` with another definition is not modelled.
- Indicators.Registry.ComputeIndicators: the zod parse of the input object (candle fields, the request-name enum, the price enum and its default) is replaced by Dafny types. Malformed candles and unknown names cannot be expressed; a name missing from the registry is the `Unregistered` error.
- The reserved `update` hook and the `inputs` list of an indicator definition have no behaviour in the source and are not modelled. The unused `clamp` helper is not modelled either.
- SetupFrame.ParseConfig: `pivotLeft` and `pivotRight` are natural numbers. Negative or fractional values, which `z.number()` accepts, are not modelled. The other numeric settings are arbitrary reals.
- SetupFusion.BuildEvidence: evidence lines are structured values (counts, score, timeframe and the per-frame verdicts), not the formatted Chinese text. `toFixed(4)` and the `；` join are not modelled.
- The `async` wrapper of `taSetupAgent` has no awaits and is modelled as a plain computation; `symbol` is carried but never read.
- Text.Lower: `toLowerCase` is modelled for ASCII letters only; other scripts' case mappings are not.
- FormatConverter.SeoTitle: lengths count Unicode code points, while JavaScript counts UTF-16 code units, so titles containing astral characters such as emoji are measured differently. The same applies to `SeoDescription`, `ReadTime`, `Subtitle` and the paragraph limit of `FormatParagraphs`.
- FormatConverter.LongSentences: the `s.trim().length > 10` test counts code points rather than UTF-16 code units, so a sentence with astral characters can be kept in JavaScript and dropped here; `FormatConverter.Summary` and `FormatConverter.SummaryMeaning` inherit this.
- NewsWorkflow.Qualified: the `content.length > 100` and `title.length > 10` tests count code points rather than UTF-16 code units; a title of six emoji has length 12 in JavaScript and qualifies, but is six code points here and does not. `NewsWorkflow.FallbackAnalysis` inherits this.
- FormatConverter.Emoji: lookups of inherited object properties (a category named like `constructor`) are not modelled; only the map's own keys are.
- The tool wrappers (`execute` of the title, formatter and article tools), `addTextFormatting` and `addEmojiToContent` are not modelled: they are regex replacements and glue with nothing to state beyond the helpers above.
- NewsWorkflow.FallbackAnalysis: `maxArticles` is an integer. A fractional value, which `slice` truncates, is not modelled.
- The LLM agents and workflow steps that call them are not part of this model: the analyser and rewriter paths of the news workflow and their `rejectedCount` formula, and the content, QA and code-review agents. Nor are the RSS/HTTP fetcher, the date-sorted merge of fetched articles, configuration, environment and scripts: they are I/O, foreign calls or `Date` parsing.

## Findings

| source | as written | input that shows it | evidently intended | confidence | as-written member | corrected member |
|---|---|---|---|---|---|---|
| src/mastra/tools/indicators-tool.ts:427-451 | the final bands start as NaN, each update yields NaN when the previous band is NaN, and the breakout tests need a valid previous band | any candles; e.g. closes 1, 1, 10 with basic bands 1, 1, 10 give trend 0 at bar 2 | seed a final band with the basic band when there is no previous final band, so bands are valid from the ATR warm-up and trend follows breakouts | not executed | Supertrend.SupertrendConstant | Supertrend.SeededValidFromAtrWarmup |
| src/mastra/agents/ta-setup-agent.ts:200 | the alignment threshold is read from the raw `input.config.alignMin` instead of the parsed `cfg.alignMin` | config `{}` and one frame with trend 1 and score 100: `1 >= undefined` is false, so the decision is neutral; an omitted config throws | compare against the parsed value, whose default is 0.67 | not executed | SetupAgent.AlignMinExample | SetupAgent.CorrectedUnanimousLong |
| src/mastra/tools/format-converter-tool.ts:301-306 | on a paragraph break it pushes `trim() + '。'` of a paragraph that already ends in `。`, then restarts with the bare sentence | content `aaaa。bb。cc` with maxLength 5 gives `aaaa。。` and `bbcc。` | close each paragraph once and keep the stop after the sentence that starts the next paragraph | not executed | FormatConverter.AsWrittenGluesSentences | FormatConverter.CorrectedParagraphsEndOnce |
