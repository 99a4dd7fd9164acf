# Crypto trend analysis core, modelled in Dafny

This project models the analysis core of a cryptocurrency charting back end.
It takes a series of OHLCV candles and computes several results:

- technical indicators: average true range (ATR), exponential moving
  averages (EMA), the KDJ stochastic oscillator, and Fibonacci
  retracement/extension levels;
- candlestick patterns;
- support and resistance levels, found by clustering prices;
- a trend classification from blended MACD/KDJ/RSI scores;
- a market-structure reading: higher highs and lows, structure breaks,
  and a risk level;
- "support bounce" trading opportunities, with entry, stop-loss,
  take-profit targets, a risk/reward ratio and a confidence score. These
  are merged with the stored opportunities by id.

Prices are `real`. String labels of the source are enumerations:

- trend `上升`/`下降`/`盘整` is `Rising`/`Falling`/`Ranging`;
- risk `高`/`中`/`低` is `High`/`Medium`/`Low`;
- pattern names, directions and confidence levels are enumerations too.

Each operation is a pure function, or a method where the source loops
over an index. Many properties are stated against an independent
reference: the mirrored market (`Model.Mirror` negates every price and
swaps high with low), sorted permutations, and lookup by id.

Modules:

| module | file | what it holds |
|---|---|---|
| `Common` | common.dfy | `Abs`, `Min`/`Max`, `Clamp`, `Sum`/`Mean`, sequence extrema and arithmetic lemmas |
| `Model` | model.dfy | the candle and analysis records, and the price mirror |
| `Sorting` | sorting.dfy | descending sort by a key and "top k" as sorted permutations |
| `Candlestick` | candlestick.dfy | the 15 pattern recognisers, `IdentifyPatterns` as the source runs it, and `IdentifyPatternsIntended` with the corrected three-black-crows test |
| `SupportResistance` | sr_level.dfy | gap clustering, volume clustering and both S/R level calculations |
| `Fibonacci` | fibonacci.dfy | levels, swing search and level proximity |
| `Atr`, `Ema`, `Kdj` | atr.dfy, ema.dfy, kdj.dfy | the indicators |
| `Trend` | trend.dfy | trend scoring and direction |
| `MarketStructureService` | market_structure.dfy | swings, structure and risk |
| `OpportunityMerge` | merge.dfy | the by-id merge of stored and new opportunities |
| `Opportunity` | opportunity.dfy | target selection, confidence and support-bounce detection |

## Model

| member | source | states |
|---|---|---|
| Candlestick.DojiClassification | backend/internal/indicator/candlestick.go:261-287 | no doji exactly when the range is zero or the body exceeds 5% of it. Dragonfly exactly when it is a doji with a lower shadow over 60% and an upper shadow under 10% of the range. A gravestone and a long-legged doji have the shadow proportions their names promise. |
| Candlestick.DojiMirror | backend/internal/indicator/candlestick.go:261-287 | mirroring a candle with a positive range turns a dragonfly doji into a gravestone doji and keeps "no doji" as it is |
| Candlestick.DragonflyGravestoneExclusive | backend/internal/indicator/candlestick.go:261-287 | no candle meets both the dragonfly and the gravestone shadow conditions |
| Candlestick.IsHarami | backend/internal/indicator/candlestick.go:352-366 | a harami's body lies strictly inside the previous body. Bullish needs a bearish then a bullish candle, bearish the reverse. It is never neutral. |
| Candlestick.HaramiMirror | backend/internal/indicator/candlestick.go:352-366 | a bullish harami mirrors to a bearish one, and "no harami" is preserved by mirroring |
| Candlestick.BearishPatternsMirrorBullish | backend/internal/indicator/candlestick.go:228-414 | bearish engulfing, dark cloud cover, evening star, three black crows (corrected) and hanging man hold exactly when their bullish counterparts hold on the mirrored candles under the flipped trend |
| Candlestick.SingleCandlePatterns | backend/internal/indicator/candlestick.go:18-86 | every one-candle pattern reported is a reversal at position 0 with reliability in [0.65, 0.95], found only under the trend its recogniser is gated on; a doji is neutral with 0.75 for a dragonfly after a fall or a gravestone after a rise and 0.70 otherwise; no name repeats |
| Candlestick.SingleCandleNames | backend/internal/indicator/candlestick.go:18-86 | a one-candle pattern name is reported exactly when its recogniser fires on the last candle, its trend gate included |
| Candlestick.TwoCandlePatterns | backend/internal/indicator/candlestick.go:89-154 | every two-candle pattern is a reversal at position -1 with reliability in [0.65, 0.95], found only under its gating trend; a harami is directional with reliability 0.70; no name repeats |
| Candlestick.TwoCandleNames | backend/internal/indicator/candlestick.go:89-154 | a two-candle name is reported exactly when its recogniser fires on the last two candles |
| Candlestick.ThreeCandlePatterns | backend/internal/indicator/candlestick.go:157-205 | under either three-black-crows reading, every three-candle pattern is a reversal at position -2 with reliability in [0.65, 0.95], found only under its gating trend; no name repeats |
| Candlestick.ThreeCandleNames | backend/internal/indicator/candlestick.go:157-205 | a three-candle name is reported exactly when its recogniser fires on the last three candles. Three black crows uses the reading passed in: the source's test or the intended one |
| Candlestick.ThreeCandleReadings | backend/internal/indicator/candlestick.go:195-204 | the intended three-candle group is the as-written group plus the three-black-crows record (bearish, -2, 0.85) exactly when the intended test holds |
| Candlestick.IdentifyPatterns | backend/internal/indicator/candlestick.go:10-208 | the recogniser as the source runs it. No candles give no patterns. Each name is reported exactly when its as-written recogniser fires on the tail of the series, and at most once. Positions lie within the series. Three black crows is never reported (see Findings) |
| Candlestick.AsWrittenThreeBlackCrowsNeverFires | backend/internal/indicator/candlestick.go:195-204 | the source's three-black-crows test fires on no series |
| Candlestick.IdentifyPatternsIntended | backend/internal/indicator/candlestick.go:10-208 | the same recogniser with the corrected three-black-crows test: each name is reported exactly when its intended recogniser fires, at most once, and well placed |
| Candlestick.IntendedAddsOnlyThreeBlackCrows | backend/internal/indicator/candlestick.go:195-204 | the two recognisers return the same records, except that the intended one appends the three-black-crows record when its test holds on the tail |
| Candlestick.RangingOnlyDojiOrHarami | backend/internal/indicator/candlestick.go:10-208 | in a ranging market only doji and harami can be reported, since every other recogniser is gated on a rising or falling trend |
| Candlestick.OneCandleOnlyPositionZero | backend/internal/indicator/candlestick.go:10-208 | a single candle yields only position-0 patterns |
| Candlestick.ThreeBlackCrowsAsWrittenNeverHolds | backend/internal/indicator/candlestick.go:405-414 | the three-black-crows condition as written holds for no candles (see Findings) |
| Candlestick.ThreeBlackCrowsWitness | backend/internal/indicator/candlestick.go:405-414 | the corrected condition holds on three falling bearish candles in a rising trend, where the as-written one fails |
| SupportResistance.Runs | backend/internal/indicator/sr_level.go:86-114 | the sorted prices split into consecutive runs that concatenate back to the input. Neighbours within a run differ by at most the threshold, and neighbours across a run boundary by more. |
| SupportResistance.KeepClusters | backend/internal/indicator/sr_level.go:94-114 | every kept cluster comes from a run of at least two prices |
| SupportResistance.KeepClustersComplete | backend/internal/indicator/sr_level.go:94-114 | every run of at least two prices yields a kept cluster |
| SupportResistance.Candidates | backend/internal/indicator/sr_level.go:79-114 | every cluster counts at least two and at most all the prices. Its strength is its share of the prices and its mean lies within their range. |
| SupportResistance.CandidatesAllEqual | backend/internal/indicator/sr_level.go:79-114 | equal prices form one cluster at that price with strength 1 |
| SupportResistance.ClusterPrices | backend/internal/indicator/sr_level.go:74-126 | no prices give no clusters. Otherwise the result is the `maxClusters` strongest valid candidates, sorted by strength: no dropped candidate is stronger than a kept one. |
| SupportResistance.WindowPrices | backend/internal/indicator/sr_level.go:12-21 | the window holds two prices (high, low) per candle of the last `lookback`, or of all candles when there are fewer |
| SupportResistance.SplitAt | backend/internal/indicator/sr_level.go:28-58 | the levels split into resistance above the price, ascending, and support at or below it, descending. The split loses or invents no level. |
| SupportResistance.CalculateSRLevels | backend/internal/indicator/sr_level.go:11-64 | resistance lies above the last close and support at or below it. Both are sorted by nearness and hold at most 5 levels. Together they are exactly the clustered levels, with strength in (0, 1]. |
| SupportResistance.WeightedWindow | backend/internal/indicator/sr_level.go:151-162 | the volume-weighted window carries the same prices as the plain window, in the same order |
| SupportResistance.RunEnd | backend/internal/indicator/sr_level.go:177-186 | a run extends while prices stay within the threshold of its anchor and stops at the first one that does not |
| SupportResistance.AnchoredRuns | backend/internal/indicator/sr_level.go:174-198 | the sorted weighted prices split into anchored runs that concatenate back to the input. Each member lies within the threshold of its run's first price, and each run's first price lies beyond the threshold from the previous run's. |
| SupportResistance.VolumeClusterBounds | backend/internal/indicator/sr_level.go:182-195 | a volume cluster's mean price lies within the threshold of its anchor |
| SupportResistance.VolumeClusterNonNegative | backend/internal/indicator/sr_level.go:188-195 | with non-negative volumes a volume cluster's strength lies in [0, 1] |
| SupportResistance.KeepVolumeClusters | backend/internal/indicator/sr_level.go:188-198 | every kept volume cluster comes from a run of at least two prices, with strength at most 1 |
| SupportResistance.KeepVolumeClustersComplete | backend/internal/indicator/sr_level.go:188-198 | every run of at least two prices yields a kept volume cluster |
| SupportResistance.SelectCount | backend/internal/indicator/sr_level.go:204-215 | selecting a price band keeps each level exactly as often as the input holds it when its price is in the band, and never otherwise |
| SupportResistance.StrongestInBand | backend/internal/indicator/sr_level.go:217-230 | at most 5 levels, all in the band and sorted by strength; no dropped level of the band is stronger than a kept one |
| SupportResistance.CalculateSRLevelsAdvanced | backend/internal/indicator/sr_level.go:141-236 | resistance lies more than 0.1% above the last close; support lies more than 0.1% below it and was rejected by the resistance test (if / else-if), so no level is on both sides; at most 5 of each |
| SupportResistance.AdvancedResistanceStrongest | backend/internal/indicator/sr_level.go:200-230 | the advanced resistance is the (up to) 5 strongest volume levels above the band, sorted by strength, with strength at most 1 |
| SupportResistance.AdvancedSupportStrongest | backend/internal/indicator/sr_level.go:200-230 | the advanced support is the (up to) 5 strongest of the volume levels that fail the resistance test and lie below the band, sorted by strength, with strength at most 1 |
| Fibonacci.RetracementRatio | backend/internal/indicator/fibonacci.go:21-29 | every retracement ratio lies in [0, 1] |
| Fibonacci.ExtensionRatio | backend/internal/indicator/fibonacci.go:31-36 | every extension ratio exceeds 1 |
| Fibonacci.CalculateFibonacciLevels | backend/internal/indicator/fibonacci.go:17-74 | all seven retracement and four extension levels are present. The 0% level is the high in an uptrend and the low in a downtrend, and 100% the opposite. Direction and endpoints are recorded. |
| Fibonacci.LevelsPlacement | backend/internal/indicator/fibonacci.go:17-74 | for high >= low, retracements lie between low and high. Extensions lie above the high in an uptrend and below the low in a downtrend. |
| Fibonacci.DirectionsReflect | backend/internal/indicator/fibonacci.go:17-74 | the uptrend and downtrend levels of one swing are reflections of each other about its midpoint |
| Fibonacci.UptrendRetracementsDescend | backend/internal/indicator/fibonacci.go:47-51 | in an uptrend the retracement levels fall as the ratio grows |
| Fibonacci.KeyLevelsOrdered | backend/internal/indicator/fibonacci.go:117-133 | for any swing with high >= low the three key retracements and extensions are the levels of their keys; in an uptrend the retracements fall and the extensions rise, in a downtrend the reverse |
| Fibonacci.GetKeyRetracementLevels | backend/internal/indicator/fibonacci.go:117-123 | the 38.2%, 50% and 61.8% retracements, in that order, with 0 for a missing key |
| Fibonacci.GetKeyExtensionLevels | backend/internal/indicator/fibonacci.go:126-132 | the 1.272, 1.618 and 2.0 extensions, in that order, with 0 for a missing key |
| Fibonacci.SwingUnique | backend/internal/indicator/fibonacci.go:77-100 | the swing of a window (extremes and the first bars reaching them) is unique |
| Fibonacci.FindSwingHighLow | backend/internal/indicator/fibonacci.go:77-100 | returns the highest high and lowest low of the last `lookback` candles, with the first bar reaching each |
| Fibonacci.CalculateFibonacciFromCandles | backend/internal/indicator/fibonacci.go:103-114 | nothing exactly when there are fewer than two candles. Otherwise the levels of the window's swing, an uptrend exactly when the swing low comes before the swing high. |
| Fibonacci.IsNearLevel | backend/internal/indicator/fibonacci.go:135-153 | a level is reported exactly when the price lies within the relative threshold of some level, and the named level is one such. An extension is named only when no retracement is near. |
| Fibonacci.NearOwnLevel | backend/internal/indicator/fibonacci.go:135-153 | a non-zero level's own price is near it for any positive threshold |
| Atr.TrueRange | backend/internal/indicator/atr.go:55-72 | the first bar's true range is its high-low range. Later bars take the largest of the range and the two gaps to the previous close, so the value is non-negative and equals one of the three. |
| Atr.CalculateATR | backend/internal/indicator/atr.go:17-51 | no values below `period`+1 candles. Otherwise one value per candle: zeros before the seed, the seed the mean of the first `period` true ranges, then Wilder smoothing. |
| Atr.AtrWithinTrueRanges | backend/internal/indicator/atr.go:35-45 | each ATR value from the seed on lies between the least and greatest true range so far |
| Atr.AtrNonNegative | backend/internal/indicator/atr.go:17-51 | with well-formed candles every ATR value is non-negative |
| Atr.AtrConstantTrueRange | backend/internal/indicator/atr.go:35-45 | a constant true range c gives ATR c from the seed on |
| Atr.AtrMirrorInvariant | backend/internal/indicator/atr.go:17-72 | negating every price leaves the ATR unchanged |
| Atr.CurrentAtrWithinTrueRanges | backend/internal/indicator/atr.go:75-80 | the current ATR is 0 below `period`+1 candles and otherwise lies within the range of the true ranges |
| Atr.GetATRAtIndex | backend/internal/indicator/atr.go:83-88 | the value at an index, or 0 outside the values |
| Atr.IsHighVolatility | backend/internal/indicator/atr.go:92-107 | false below 2x`period` values or for a zero period. Otherwise true exactly when the current ATR exceeds `threshold` times the mean of the last `period` values. |
| Atr.HighVolatilityAntitone | backend/internal/indicator/atr.go:92-107 | with non-negative ATR values, a reading that is high at one threshold is high at every lower threshold |
| Atr.ConstantAtrNotHighVolatility | backend/internal/indicator/atr.go:92-107 | a constant non-negative ATR series is never high volatility for a threshold of at least 1 and a non-negative period |
| Ema.Multiplier | backend/internal/indicator/ema.go:11-39 | the smoothing multiplier 2/(period+1) lies in (0, 1] |
| Ema.CalculateEMA | backend/internal/indicator/ema.go:11-39 | no values below `period` prices. Otherwise zeros before the seed, the seed the mean of the first `period` prices, then each value moves toward the price by the multiplier. |
| Ema.EmaConstantSeries | backend/internal/indicator/ema.go:11-39 | a constant price series gives that constant as EMA from the seed on |
| Ema.EmaWithinPriceRange | backend/internal/indicator/ema.go:11-39 | each EMA value from the seed on lies between the least and greatest price so far |
| Ema.CalculateMultipleEMA | backend/internal/indicator/ema.go:42-48 | the keys are exactly the requested periods, each mapped to its EMA |
| Ema.CurrentEmaWithinPrices | backend/internal/indicator/ema.go:51-56 | the current EMA is 0 below `period` prices and otherwise lies within the range of the prices |
| Ema.GetEMAAtIndex | backend/internal/indicator/ema.go:59-64 | the value at an index, or 0 outside the values |
| Ema.AlignmentsExclusive | backend/internal/indicator/ema.go:67-74 | EMAs are never aligned bullishly and bearishly at once |
| Ema.DetectCrossover | backend/internal/indicator/ema.go:78-99 | 1 exactly when the fast EMA moves from at-or-below to above the slow one, -1 exactly when it moves from at-or-above to below, otherwise 0 (also below two values) |
| Ema.CrossoverAntisymmetric | backend/internal/indicator/ema.go:78-99 | swapping fast and slow swaps golden and death crosses |
| Kdj.RsvInRange | backend/internal/indicator/kdj.go:23-38 | with a well-formed bar, RSV lies in [0, 100] |
| Kdj.RsvMirror | backend/internal/indicator/kdj.go:23-38 | on a non-flat window the mirrored market's RSV is 100 minus the original's |
| Kdj.MirrorWindow | backend/internal/indicator/kdj.go:23-32 | the mirrored window's lowest low is the negated highest high, and the reverse |
| Kdj.CalculateKDJ | backend/internal/indicator/kdj.go:14-56 | zeros below 9 candles. Otherwise K = D = the RSV clamped to [0, 100] and J = the RSV clamped to [-20, 120], so K, D and J always lie in those ranges. |
| Kdj.CalculateKDJClampInert | backend/internal/indicator/kdj.go:40-49 | with a well-formed last bar no clamp applies: K = D = J = RSV |
| Kdj.Sma | backend/internal/indicator/kdj.go:110-122 | one mean per full window of `p` consecutive values; none when there are fewer than `p` values |
| Kdj.SmaWithin | backend/internal/indicator/kdj.go:110-122 | smoothing keeps any common bounds of the data |
| Kdj.CalculateKDJWithHistory | backend/internal/indicator/kdj.go:59-107 | zeros below 9 candles. Otherwise K is the mean of the last 3 RSVs, D the mean of the last 3 K values, and J = 3K - 2D. |
| Kdj.KDJWithHistoryInRange | backend/internal/indicator/kdj.go:59-107 | with well-formed candles K and D lie in [0, 100] and J in [-200, 300] |
| Trend.ScoreMacd | backend/internal/service/trend_service.go:68-86 | the MACD score lies in [0, 1] |
| Trend.ScoreKdj | backend/internal/service/trend_service.go:89-110 | the KDJ score lies in [0, 1] |
| Trend.ScoreRsi | backend/internal/service/trend_service.go:113-125 | the RSI score lies in [0, 1] |
| Trend.MacdKdjScoresUnclamped | backend/internal/service/trend_service.go:68-110 | the raw MACD and KDJ scores stay within [0, 1], so each clamped score equals its raw score |
| Trend.TrendScore | backend/internal/service/trend_service.go:39 | the 40/30/30 blend lies in [0, 1] |
| Trend.Classify | backend/internal/service/trend_service.go:46-64 | rising exactly above 0.6 and falling exactly below 0.4, with strength twice the distance from 0.5. A directional trend has strength over 0.2 and change probability 1 - strength. Ranging has strength at least 0.8 and change probability 0.6. |
| Trend.AnalyzeTrend | backend/internal/service/trend_service.go:19-65 | neutral below 26 candles. Otherwise the direction follows the blended score with the smoothed KDJ of the candles, and strength and change probability lie in [0, 1]. |
| Trend.ScoresMirror | backend/internal/service/trend_service.go:68-125 | away from ties, each score of the mirrored readings is 1 minus the original, and so is the blend |
| Trend.ClassifyMirror | backend/internal/service/trend_service.go:46-64 | complementing the score flips the direction and keeps strength and change probability |
| Trend.MacdTieNotSymmetric | backend/internal/service/trend_service.go:68-86 | DIF = DEA counts as bearish in both the reading and its mirror |
| Trend.DetermineTrendDirection | backend/internal/service/trend_service.go:128-155 | fewer than 20 candles read as ranging |
| Trend.DetermineTrendDirectionPositive | backend/internal/service/trend_service.go:128-155 | for a positive older mean: rising exactly when the recent 10-bar mean exceeds 102% of the older one, falling exactly when it is below 98% |
| Trend.DetermineTrendDirectionFlat | backend/internal/service/trend_service.go:128-155 | twenty or more equal closes read as ranging |
| MarketStructureService.SwingHighIndicesExact | backend/internal/service/market_structure_service.go:72-91 | the swing-high indices are exactly those whose high strictly exceeds every other high within `lookback` bars on both sides |
| MarketStructureService.SwingHighIndicesOrdered | backend/internal/service/market_structure_service.go:72-91 | swing-high indices come in increasing order |
| MarketStructureService.SwingLowIsMirroredHigh | backend/internal/service/market_structure_service.go:94-113 | a swing low is a swing high of the mirrored market |
| MarketStructureService.SwingLowIndicesExact | backend/internal/service/market_structure_service.go:94-113 | the swing-low indices are exactly the strict local minima within `lookback` bars, in increasing order |
| MarketStructureService.FindSwingHighs | backend/internal/service/market_structure_service.go:72-91 | the loop returns the highs of the swing-high bars, in order |
| MarketStructureService.FindSwingLows | backend/internal/service/market_structure_service.go:94-113 | the loop returns the lows of the swing-low bars, in order |
| MarketStructureService.SwingHighsSeparated | backend/internal/service/market_structure_service.go:72-91 | two swing highs are more than `lookback` bars apart |
| MarketStructureService.SwingHighsOfMirror | backend/internal/service/market_structure_service.go:72-113 | the swing highs of the mirrored market are the negated swing lows |
| MarketStructureService.CompareLastTwo | backend/internal/service/market_structure_service.go:36-50 | with two or more swings exactly one of higher/lower holds, higher exactly when the last exceeds the one before. With fewer, neither holds. |
| MarketStructureService.CalculateRiskLevel | backend/internal/service/market_structure_service.go:116-134 | high exactly on a structure break. Low exactly when there is no break and the trend is healthy: rising with a higher high and higher low, or falling with a lower high and lower low. Ranging is never low. |
| MarketStructureService.StructureOf | backend/internal/service/market_structure_service.go:30-68 | higher high/low compare the last two swings. A break is a lower low in a rising trend or a higher high in a falling one. The risk level follows from them, and the enhanced sub-reports are left at their zero values. |
| MarketStructureService.AnalyzeStructure | backend/internal/service/market_structure_service.go:16-69 | the default structure below 20 candles. Otherwise higher high/low compare the last two swings of lookback 5, risk is high exactly on a break, and a ranging trend never breaks and is medium risk. |
| MarketStructureService.StructureOfMirror | backend/internal/service/market_structure_service.go:30-68 | with distinct last swings, the mirrored swings under the flipped trend give the same break and risk level |
| MarketStructureService.AnalyzeStructureMirror | backend/internal/service/market_structure_service.go:16-69 | with distinct last swings, the mirrored market under the flipped trend has the same structure break and risk level |
| MarketStructureService.IntactTrendNoBreak | backend/internal/service/market_structure_service.go:52-58 | a rising trend with a higher low, or a falling trend without a higher high, has no structure break |
| Opportunity.Percent | backend/internal/service/opportunity_service.go:196-205 | for a positive base the percentage has the sign of the part, and times the base it gives 100 times the part |
| Opportunity.ValidResistances | backend/internal/service/opportunity_service.go:243-249 | exactly the resistances above the price with strength over 0.6, each as often as the input holds it; empty exactly when none qualifies |
| Opportunity.TwoLowest | backend/internal/service/opportunity_service.go:255-262 | the two smallest target prices, the first no larger than every price and the second no larger than every other |
| Opportunity.TwoLowestStep | backend/internal/service/opportunity_service.go:255-262 | admitting one more price keeps the pair the two lowest |
| Opportunity.TargetsFromPrices | backend/internal/service/opportunity_service.go:264-294 | at most 2 targets, none only for no prices, all above the price. The first is the lowest resistance (50% close), and a second resistance (30% close) is the next lowest. With one resistance the second is the 1.618 extension exactly when it lies above the price. |
| Opportunity.LowestPairTargets | backend/internal/service/opportunity_service.go:255-283 | with two or more resistances, the two targets are the two lowest prices, 50% then 30% closed |
| Opportunity.FindResistanceTargets | backend/internal/service/opportunity_service.go:236-295 | at most 2 targets, levelled 1 and 2 and above the price; none exactly when no resistance lies above the price with strength over 0.6 |
| Opportunity.FindResistanceTargetsPrices | backend/internal/service/opportunity_service.go:236-295 | the first target is the lowest valid resistance. With two or more, the pair is the two lowest. With one, the 1.618 extension is added exactly when it lies above the price. |
| Opportunity.ConfidenceScore | backend/internal/service/opportunity_service.go:304-332 | the score lies in [50, 100] |
| Opportunity.ConfidenceMonotone | backend/internal/service/opportunity_service.go:304-332 | more reasons, a pattern, more support strength or a better ratio never lower the score |
| Opportunity.ConfidenceLevelOf | backend/internal/service/opportunity_service.go:335-340 | high exactly from 80 and medium exactly from 60 to 79 |
| Opportunity.Factors | backend/internal/service/opportunity_service.go:342-354 | each factor is listed exactly when its condition holds, in the source's order |
| Opportunity.CalculateConfidence | backend/internal/service/opportunity_service.go:298-361 | score in [50, 100]; level from the score; each factor present exactly when its condition holds, in order |
| Opportunity.BounceConfidenceHigh | backend/internal/service/opportunity_service.go:298-361 | a support bounce, with at least two reasons and support strength over 0.7, always has high confidence |
| Opportunity.QualifyingSupportPrice | backend/internal/service/opportunity_service.go:102-114 | a qualifying support is never at price 0, and for a positive price it lies strictly between 99% of the price and the price |
| Opportunity.NearestSupport | backend/internal/service/opportunity_service.go:98-118 | none exactly when no support qualifies. Otherwise a qualifying support at minimal distance, and the first such. |
| Opportunity.FirstStrongBullish | backend/internal/service/opportunity_service.go:120-133 | the first bullish pattern with reliability over 0.7, or none exactly when there is none |
| Opportunity.BracketOrdered | backend/internal/service/opportunity_service.go:136-141 | for a positive support and non-negative ATR: stop < support < entry, and the risk is positive |
| Opportunity.BounceReasons | backend/internal/service/opportunity_service.go:159-178 | two to four reasons: support then pattern. An EMA(50) reason exactly when EMA50 is positive and within 1% of the support, and a Fibonacci reason exactly when some retracement is within 1% of it. |
| Opportunity.DetectSupportBounce | backend/internal/service/opportunity_service.go:87-215 | none below 50 candles, without a qualifying support, without a strong bullish pattern or without a valid target. An emitted bounce is a long support bounce with 1-2 targets above the close, ratio >= 2, risk and reward from entry/stop/first target, and high confidence. |
| Opportunity.BounceAt | backend/internal/service/opportunity_service.go:136-212 | a bounce built from a qualifying support and its targets is produced exactly when the risk is non-zero and the reward to the first target is at least twice it. When produced it has the emitted shape |
| Opportunity.BounceFiresExactly | backend/internal/service/opportunity_service.go:87-215 | a bounce is emitted if and only if there are at least 50 candles, a qualifying nearest support, a strong bullish pattern and a target, and the reward to the first target is at least twice a non-zero risk |
| Opportunity.BounceUsesNearestSupport | backend/internal/service/opportunity_service.go:98-212 | an emitted bounce enters at the support nearest the close (plus 0.2%), stops the larger of 1.5% of the support and one ATR below it, targets the resistances and Fibonacci levels above the close, names the first strong bullish pattern among its reasons, and has ratio = reward / a non-zero risk |
| Opportunity.BounceAtFields | backend/internal/service/opportunity_service.go:136-212 | a bounce built at a given support and pattern takes its entry, stop, targets, ratio and pattern reason from them |
| Opportunity.BounceBracketed | backend/internal/service/opportunity_service.go:98-157 | with a positive price and non-negative ATR, an emitted bounce has its stop below and its entry above a qualifying support, and a positive risk |
| Opportunity.DetectBreakoutRetest | backend/internal/service/opportunity_service.go:218-224 | never produces an opportunity |
| Opportunity.DetectTrendContinuation | backend/internal/service/opportunity_service.go:227-233 | never produces an opportunity |
| Opportunity.Accept | backend/internal/service/opportunity_service.go:40-46 | a candidate is kept exactly when it exists and its ratio meets the minimum |
| Opportunity.NewlyDetected | backend/internal/service/opportunity_service.go:37-62 | at most one new opportunity, a support bounce meeting the minimum ratio. A detected bounce meeting the minimum is always kept |
| Opportunity.DetectOpportunities | backend/internal/service/opportunity_service.go:25-84 | ids are unique; every record is stored or newly detected; each id holds the last record listed for it, stored ones first |
| Opportunity.DetectOpportunitiesKeeps | backend/internal/service/opportunity_service.go:64-83 | a new record replaces a stored one with the same id, and a stored record with no new namesake survives unchanged |
| OpportunityMerge.Find | backend/internal/service/opportunity_service.go:65-81 | lookup by id finds a record with that id exactly when the list has one |
| OpportunityMerge.LastWithId | backend/internal/service/opportunity_service.go:65-75 | the last record with an id (what the map keeps) exists exactly when some record has that id |
| OpportunityMerge.Upsert | backend/internal/service/opportunity_service.go:69-74 | keeps ids unique, maps the new id to the new record, and changes no other lookup |
| OpportunityMerge.MergeAllFind | backend/internal/service/opportunity_service.go:65-75 | after merging, an id maps to its last new record, or to its stored one when no new record carries it |
| OpportunityMerge.Combine | backend/internal/service/opportunity_service.go:64-83 | unique ids, no invented records, and every lookup equals the last record with that id among stored-then-new |
| OpportunityMerge.NewReplacesExisting | backend/internal/service/opportunity_service.go:72-75 | a new record wins over a stored one with the same id |
| OpportunityMerge.ExistingKept | backend/internal/service/opportunity_service.go:67-70 | a stored record whose id no new record carries is kept |
| OpportunityMerge.CombineIds | backend/internal/service/opportunity_service.go:64-83 | the ids present are exactly those of the inputs |
| OpportunityMerge.CombineIdempotent | backend/internal/service/opportunity_service.go:64-83 | merging the same new records again changes no lookup |

## Left out

- I/O is not modelled: the Binance client, HTTP handlers, the database repository and the frontend. The stored opportunities arrive as a parameter, and saving and expiring them is left out.
- MACD and RSI come from an external indicator library. They enter `Trend.AnalyzeTrend` as parameters.
- Wall-clock time is not modelled. The opportunity id (`opp_<unix seconds>`) and the expiry time become the parameters `id` and `expiresAt`.
- Reason texts are formatted strings in the source. The model keeps them as tagged values, and the pattern names in them as an enumeration.
- Candlestick.IdentifyPatterns: the fixed description text of each pattern record is not modelled. For a doji it follows the same branch as the reliability.
- Floating point is modelled with `real`: no rounding, NaN or infinities. Where the source divides by a value that can be zero, the model states the IEEE outcome of the comparison that follows:
  - a zero level in `Fibonacci.IsNearLevel`;
  - a zero price in the support distance;
  - a zero older mean in `Trend.DetermineTrendDirection`, decided by the sign of the recent mean;
  - a zero period in `Atr.IsHighVolatility`.
- Opportunity.Percent: a zero base gives 0, where the source divides by zero.
- Opportunity.BounceAt: with entry equal to stop the source divides by a zero risk. The model returns no opportunity then.
- Distance sentinels are not modelled: the source's running minimum starts from `math.MaxFloat64`, and KDJ starts its running low and high from constants. The model takes the least element directly, which agrees for every finite input.
- Go map iteration order is unspecified. Where it picks a result, the model states only the order-free part:
  - the merged opportunity list is specified through lookup by id;
  - which near Fibonacci level `IsNearLevel` names is the first in key order;
  - which near retracement supplies the Fibonacci reason is not recorded.
- `sort.Slice` is not stable. Sorted outputs are specified as sorted permutations (top-k: no dropped element outranks a kept one), so the order among equal keys is not fixed.
- Opportunity.TwoLowest: the source runs a full ascending exchange sort, of which only the first two places are read. It is modelled by what it leaves there, the two lowest prices.
- Kdj.CalculateKDJWithHistory: with 9 to 12 candles the K or D series is empty (K with 9 or 10 candles, D with 11 or 12), and the source indexes past its end and panics. The precondition excludes those lengths.
- Atr.CalculateATR, Ema.CalculateEMA: a period below 1 makes the source index out of range or divide by zero. The preconditions exclude it.
- Fibonacci.FindSwingHighLow: an empty input or a lookback below 1 indexes past the slice. The precondition excludes these, and `CalculateFibonacciFromCandles` requires lookback >= 1 once it has two candles.
- SupportResistance.CalculateSRLevels, SupportResistance.CalculateSRLevelsAdvanced: the source reads the last candle unconditionally, so at least one candle is required.
- Trend strings other than rising and falling behave as ranging throughout the source, so the model has three trend labels.
- MarketStructureService.AnalyzeStructureMirror: stated only when the last two swings of each side differ. On a tie both readings count as "lower", which is not mirror-symmetric.
- Trend.ScoresMirror: requires DIF != DEA and K != D, since the source scores both ties as bearish (`Trend.MacdTieNotSymmetric`). The mirror property of the whole trend is stated at score level.
- Trend.DetermineTrendDirection: its own contract states only the short-input case. The 2% rule is stated by `Trend.DetermineTrendDirectionPositive` for a positive older mean. A negative older mean flips the inequalities, as in the source.
- The enhanced market-structure sub-reports (trend confirmation, volatility profile, key-level confluence, pattern signals, market quality) are never filled by `AnalyzeStructure`. The model returns their zero values.
- The analysis orchestration (`analysis_service.go`) and the RSI/MACD indicators are not part of this model.

## Findings

| source | as written | input that shows it | evidently intended | confidence | as-written member | corrected member |
|---|---|---|---|---|---|---|
| backend/internal/indicator/candlestick.go:405-414 | each of the second and third candles must open below the previous close and above the previous open, while every candle must also be bearish (close below open); no open lies below a close and above the open of the same bearish candle, so the test never holds and the pattern is never reported | c1 = (open 100, high 101, low 89, close 90), c2 = (95, 96, 84, 85), c3 = (90, 91, 79, 80) under a rising trend: three falling bearish candles, each opening inside the previous body, and the pattern is not reported | each candle opens inside the previous bearish body (below its open, above its close), the mirror of the three-white-soldiers test just above it | not executed | Candlestick.ThreeBlackCrowsAsWrittenNeverHolds | Candlestick.IsThreeBlackCrows |
