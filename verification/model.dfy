/** The records of the analysis pipeline: candles, indicator snapshots,
    support/resistance levels, candlestick patterns, market structure and
    trading opportunities. Prices are `real`; the Chinese and upper-case
    label strings of the source become enumerations. */
module Model {
  import opened Common

  /** One OHLCV bar; `timestamp` is Unix milliseconds. */
  datatype Candle = Candle(timestamp: int, open: real, high: real, low: real, close: real, volume: real)

  /** A bar whose open and close lie inside its high/low range. */
  predicate WellFormed(c: Candle)
  {
    c.low <= c.open <= c.high && c.low <= c.close <= c.high
  }

  function Closes(candles: seq<Candle>): (r: seq<real>)
    ensures |r| == |candles|
    ensures forall i | 0 <= i < |candles| :: r[i] == candles[i].close
  {
    seq(|candles|, i requires 0 <= i < |candles| => candles[i].close)
  }

  /** High and low prices of a run of candles. */
  function Highs(candles: seq<Candle>): (r: seq<real>)
    ensures |r| == |candles|
    ensures forall i | 0 <= i < |candles| :: r[i] == candles[i].high
  {
    seq(|candles|, i requires 0 <= i < |candles| => candles[i].high)
  }

  function Lows(candles: seq<Candle>): (r: seq<real>)
    ensures |r| == |candles|
    ensures forall i | 0 <= i < |candles| :: r[i] == candles[i].low
  {
    seq(|candles|, i requires 0 <= i < |candles| => candles[i].low)
  }

  /** The price mirror of a bar: every price negated, so high and low swap.
      It turns rising markets into falling ones and bullish shapes into
      bearish ones, which is how the symmetry lemmas are stated. */
  function Mirror(c: Candle): (m: Candle)
    ensures m.high == -c.low && m.low == -c.high
    ensures m.open == -c.open && m.close == -c.close
    ensures m.timestamp == c.timestamp && m.volume == c.volume
  {
    Candle(c.timestamp, -c.open, -c.low, -c.high, -c.close, c.volume)
  }

  function MirrorAll(candles: seq<Candle>): (r: seq<Candle>)
    ensures |r| == |candles|
    ensures forall i | 0 <= i < |candles| :: r[i] == Mirror(candles[i])
  {
    seq(|candles|, i requires 0 <= i < |candles| => Mirror(candles[i]))
  }

  lemma MirrorInvolution(c: Candle, t: TrendLabel)
    ensures Mirror(Mirror(c)) == c
    ensures FlipTrend(FlipTrend(t)) == t
  {
  }

  /** The trend labels "上升" (Rising), "下降" (Falling) and "盘整" (Ranging).
      Every consumer compares against the first two only, so any other label
      string behaves as Ranging. */
  datatype TrendLabel = Rising | Falling | Ranging

  /** The trend label of the mirrored market. */
  function FlipTrend(t: TrendLabel): (r: TrendLabel)
    ensures r == Ranging <==> t == Ranging
  {
    match t
    case Rising => Falling
    case Falling => Rising
    case Ranging => Ranging
  }

  /** Trend analysis result: direction, strength in [0,1], reversal probability. */
  datatype TrendAnalysis = TrendAnalysis(direction: TrendLabel, strength: real, changeProbability: real)

  datatype MACDIndicator = MACDIndicator(dif: real, dea: real, histogram: real)
  datatype KDJIndicator = KDJIndicator(k: real, d: real, j: real)
  datatype RSIIndicator = RSIIndicator(rsi6: real, rsi14: real)
  datatype ATRIndicator = ATRIndicator(value: real, period: int)
  datatype EMAIndicator = EMAIndicator(ema9: real, ema21: real, ema50: real, ema200: real)

  /** The retracement keys "0%" … "100%". */
  datatype RetracementLabel = R0 | R236 | R382 | R50 | R618 | R786 | R100

  /** The extension keys "1.272" … "2.618". */
  datatype ExtensionLabel = E1272 | E1618 | E2 | E2618

  /** "UPTREND" / "DOWNTREND". */
  datatype FibDirection = Uptrend | Downtrend

  datatype FibonacciLevels = FibonacciLevels(
    high: real,
    low: real,
    retracement: map<RetracementLabel, real>,
    extension: map<ExtensionLabel, real>,
    direction: FibDirection)

  datatype Indicators = Indicators(
    macd: MACDIndicator,
    kdj: KDJIndicator,
    rsi: RSIIndicator,
    atr: ATRIndicator,
    ema: EMAIndicator,
    fibonacci: Option<FibonacciLevels>)

  datatype SRLevel = SRLevel(price: real, strength: real)
  datatype SRLevels = SRLevels(resistance: seq<SRLevel>, support: seq<SRLevel>)

  datatype DojiKind = Dragonfly | Gravestone | LongLegged | Standard

  /** The pattern names emitted by the recogniser; a doji carries its subtype. */
  datatype PatternName =
    | Hammer | HangingMan | InvertedHammer | ShootingStar | Doji(kind: DojiKind)
    | BullishEngulfing | BearishEngulfing | Piercing | DarkCloudCover | Harami
    | MorningStar | EveningStar | ThreeWhiteSoldiers | ThreeBlackCrows

  /** "反转" (Reversal) / "持续" (Continuation). */
  datatype PatternCategory = Reversal | Continuation

  /** "看涨" (Bullish) / "看跌" (Bearish) / "中性" (Neutral). */
  datatype Signal = Bullish | Bearish | Neutral

  datatype CandlestickPattern = CandlestickPattern(
    pattern: PatternName,
    category: PatternCategory,
    direction: Signal,
    position: int,
    reliability: real)

  /** "低" / "中" / "高". */
  datatype RiskLevel = Low | Medium | High

  datatype TrendConfirmation = TrendConfirmation(
    emaAlignment: string, macdSignal: string, priceVsEMA: string,
    confirmationScore: real, strength: string)

  datatype VolatilityProfile = VolatilityProfile(
    currentATR: real, atrPercentage: real, volatilityLevel: string,
    isExpanding: bool, riskAdjustment: string)

  datatype ConfluenceLevel = ConfluenceLevel(
    price: real, distance: real, factors: seq<string>, strength: real, levelType: string)

  datatype ConfluenceZone = ConfluenceZone(
    rangeLow: real, rangeHigh: real, factors: seq<string>, strength: real, significance: string)

  datatype KeyLevelConfluence = KeyLevelConfluence(
    nearestSupport: Option<ConfluenceLevel>,
    nearestResistance: Option<ConfluenceLevel>,
    confluenceZones: seq<ConfluenceZone>)

  datatype PatternSignals = PatternSignals(
    recentPatterns: seq<string>, bullishCount: int, bearishCount: int,
    dominantSignal: string, patternReliability: real)

  datatype MarketQuality = MarketQuality(
    overallScore: real, grade: string, tradingCondition: string,
    strengths: seq<string>, weaknesses: seq<string>, recommendation: string,
    scoreBreakdown: map<string, real>)

  datatype MarketStructure = MarketStructure(
    higherHigh: bool,
    higherLow: bool,
    structureBreak: bool,
    riskLevel: RiskLevel,
    trendConfirmation: TrendConfirmation,
    volatilityProfile: VolatilityProfile,
    keyLevelConfluence: KeyLevelConfluence,
    patternSignals: PatternSignals,
    marketQuality: MarketQuality)

  /** Go's zero values of the enhanced sub-reports. */
  const ZeroTrendConfirmation := TrendConfirmation("", "", "", 0.0, "")
  const ZeroVolatilityProfile := VolatilityProfile(0.0, 0.0, "", false, "")
  const ZeroKeyLevelConfluence := KeyLevelConfluence(None, None, [])
  const ZeroPatternSignals := PatternSignals([], 0, 0, "", 0.0)
  const ZeroMarketQuality := MarketQuality(0.0, "", "", [], [], "", map[])

  datatype AnalysisResult = AnalysisResult(
    symbol: string,
    interval: string,
    timestamp: int,
    trend: TrendAnalysis,
    indicators: Indicators,
    srLevels: SRLevels,
    candlestickPatterns: seq<CandlestickPattern>,
    marketStructure: MarketStructure)

  /** The `fmt.Sprintf` entry reasons, kept as tags with the data they print. */
  datatype Reason =
    | StrongSupport(price: real, strength: real)
    | BullishPatternSeen(pattern: PatternName)
    | EmaSupport(ema50: real)
    | FibonacciSupport

  datatype EntryPoint = EntryPoint(price: real, reasons: seq<Reason>)

  /** "TECHNICAL_LEVEL" / "ATR" / "PERCENTAGE". */
  datatype StopMethod = TechnicalLevel | AtrStop | PercentageStop

  datatype StopLossInfo = StopLossInfo(price: real, distancePct: real, stopMethod: StopMethod)

  /** "SR Level resistance" / "Fibonacci 1.618 extension". */
  datatype TargetSource = SRResistance | FibonacciExtension

  datatype TakeProfitLevel = TakeProfitLevel(
    level: int, price: real, distancePct: real, target: TargetSource, positionClosePct: int)

  datatype RiskRewardInfo = RiskRewardInfo(
    ratio: real, riskAmount: real, rewardAmount: real, riskPct: real, rewardPct: real)

  /** "HIGH" / "MEDIUM" / "LOW". */
  datatype ConfidenceLevel = HighConfidence | MediumConfidence | LowConfidence

  /** The four confidence factor labels, in the order they are listed. */
  datatype ConfidenceFactor =
    | MultipleSupportConvergence | StrongBullishPattern | HighSupportStrength | ExcellentRiskReward

  datatype ConfidenceInfo = ConfidenceInfo(score: int, level: ConfidenceLevel, factors: seq<ConfidenceFactor>)

  /** "ACTIVE" / "EXPIRED". */
  datatype Status = Active | Expired

  datatype ValidityInfo = ValidityInfo(expiresAt: int, status: Status)

  /** "LONG" / "SHORT". */
  datatype TradeType = Long | Short

  /** "SUPPORT_BOUNCE" / "BREAKOUT_RETEST" / "TREND_CONTINUATION". */
  datatype Strategy = SupportBounce | BreakoutRetest | TrendContinuation

  datatype TradingOpportunity = TradingOpportunity(
    id: string,
    symbol: string,
    tradeType: TradeType,
    strategy: Strategy,
    timestamp: int,
    entry: EntryPoint,
    stopLoss: StopLossInfo,
    takeProfit: seq<TakeProfitLevel>,
    riskReward: RiskRewardInfo,
    confidence: ConfidenceInfo,
    validity: ValidityInfo)
}
