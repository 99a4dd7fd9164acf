/** Trading-opportunity detection. The one implemented strategy is the
    support bounce: a strong support just below the price, a reliable
    bullish candlestick pattern and a resistance above give an entry just
    over the support, a stop below it and take-profit targets, accepted when
    the reward is at least twice the risk. The breakout-retest and
    trend-continuation strategies are stubs that never fire. */
module Opportunity {
  import opened Common
  import opened Model
  import OpportunityMerge

  /** A percentage of `base`; a zero base (a division by zero in the
      source) gives 0. */
  function Percent(part: real, base: real): (r: real)
    ensures base > 0.0 ==> (r > 0.0 <==> part > 0.0) && (r < 0.0 <==> part < 0.0)
    ensures base != 0.0 ==> r * base == part * 100.0
  {
    if base == 0.0 then 0.0 else part / base * 100.0
  }

  // ---------------------------------------------------------------------
  // Take-profit targets

  /** A resistance usable as a target: above the price and stronger than 0.6. */
  predicate IsValidTarget(currentPrice: real, l: SRLevel)
  {
    l.price > currentPrice && l.strength > 0.6
  }

  /** The valid resistances, in their original order. */
  function ValidResistances(currentPrice: real, levels: seq<SRLevel>): (r: seq<SRLevel>)
    ensures forall l :: multiset(r)[l] == if IsValidTarget(currentPrice, l) then multiset(levels)[l] else 0
    ensures forall k | 0 <= k < |r| :: IsValidTarget(currentPrice, r[k])
    ensures |r| == 0 <==> forall k | 0 <= k < |levels| :: !IsValidTarget(currentPrice, levels[k])
  {
    if |levels| == 0 then []
    else
      var init := levels[..|levels| - 1];
      var x := levels[|levels| - 1];
      assert levels == init + [x];
      var rest := ValidResistances(currentPrice, init);
      var r := if IsValidTarget(currentPrice, x) then rest + [x] else rest;
      assert forall k | 0 <= k < |init| :: init[k] == levels[k];
      r
  }

  function PricesOf(levels: seq<SRLevel>): (r: seq<real>)
    ensures |r| == |levels|
    ensures forall k | 0 <= k < |levels| :: r[k] == levels[k].price
  {
    seq(|levels|, k requires 0 <= k < |levels| => levels[k].price)
  }

  /** a and b are the smallest and the second smallest entries of p,
      counting repeats: what the first two places of an ascending sort of p
      hold. b is no larger than the larger of any two entries, and a, b
      occupy two different places. */
  ghost predicate TwoLowestOf(p: seq<real>, a: real, b: real)
  {
    && a <= b
    && (forall i | 0 <= i < |p| :: a <= p[i])
    && (forall i, j | 0 <= i < j < |p| :: b <= p[i] || b <= p[j])
    && (exists i, j | 0 <= i < j < |p| :: (p[i] == a && p[j] == b) || (p[i] == b && p[j] == a))
  }

  /** The two lowest entries, found in one pass from the left. */
  function TwoLowest(p: seq<real>): (r: (real, real))
    requires |p| >= 2
    ensures TwoLowestOf(p, r.0, r.1)
  {
    if |p| == 2 then (Min(p[0], p[1]), Max(p[0], p[1]))
    else
      var init := p[..|p| - 1];
      var (a, b) := TwoLowest(init);
      TwoLowestStep(p, a, b);
      Admit(a, b, p[|p| - 1])
  }

  /** Where a new entry x ranks against the two lowest so far. */
  function Admit(a: real, b: real, x: real): (real, real)
  {
    if x < a then (x, a) else if x < b then (a, x) else (a, b)
  }

  lemma TwoLowestStep(p: seq<real>, a: real, b: real)
    requires |p| >= 3
    requires TwoLowestOf(p[..|p| - 1], a, b)
    ensures var r := Admit(a, b, p[|p| - 1]); TwoLowestOf(p, r.0, r.1)
  {
    var init := p[..|p| - 1];
    var x := p[|p| - 1];
    var n := |p| - 1;
    var i, j :| 0 <= i < j < |init| && ((init[i] == a && init[j] == b) || (init[i] == b && init[j] == a));
    assert forall k | 0 <= k < n :: init[k] == p[k];
    var lowest := if init[i] == a then i else j;
    assert p[lowest] == a;
    if x < a {
      assert p[lowest] == a && p[n] == x;
    } else if x < b {
      assert p[lowest] == a && p[n] == x;
    } else {
      assert (p[i] == a && p[j] == b) || (p[i] == b && p[j] == a);
    }
  }

  /** A take-profit level at `price` for the given target number. */
  function Target(level: int, price: real, currentPrice: real, source: TargetSource, closePct: int): TakeProfitLevel
  {
    TakeProfitLevel(level, price, Percent(price - currentPrice, currentPrice), source, closePct)
  }

  /** The 1.618 extension, read the way a Go map read does: 0 when absent. */
  function Extension1618(fib: FibonacciLevels): real
  {
    if E1618 in fib.extension then fib.extension[E1618] else 0.0
  }

  /** The targets read off the prices of the valid resistances. */
  function TargetsFromPrices(currentPrice: real, p: seq<real>, fib: Option<FibonacciLevels>): (r: seq<TakeProfitLevel>)
    requires forall i | 0 <= i < |p| :: p[i] > currentPrice
    ensures |r| <= 2 && (|r| == 0 <==> |p| == 0)
    ensures forall k | 0 <= k < |r| :: r[k].price > currentPrice && r[k].level == k + 1
    ensures forall k | 0 <= k < |r| :: r[k].distancePct == Percent(r[k].price - currentPrice, currentPrice)
    ensures |r| >= 1 ==> r[0].target == SRResistance && r[0].positionClosePct == 50
    ensures |r| == 2 ==> r[1].positionClosePct == 30
    ensures |r| >= 1 ==> r[0].price in p && forall i | 0 <= i < |p| :: r[0].price <= p[i]
    ensures |p| >= 2 ==>
      && |r| == 2 && r[1].target == SRResistance
      && TwoLowestOf(p, r[0].price, r[1].price)
    ensures |p| == 1 ==>
      && (|r| == 2 <==> fib.Some? && Extension1618(fib.value) > currentPrice)
      && (|r| == 2 ==> r[1].target == FibonacciExtension && r[1].price == Extension1618(fib.value))
  {
    if |p| == 0 then []
    else
      var first := Target(1, SeqMin(p), currentPrice, SRResistance, 50);
      if |p| >= 2 then LowestPairTargets(currentPrice, p)
      else if fib.Some? && Extension1618(fib.value) > currentPrice then
        [first, Target(2, Extension1618(fib.value), currentPrice, FibonacciExtension, 30)]
      else [first]
  }

  /** Both targets at resistances: the lowest and the second lowest price. */
  function LowestPairTargets(currentPrice: real, p: seq<real>): (r: seq<TakeProfitLevel>)
    requires |p| >= 2
    ensures |r| == 2
    ensures r[0] == Target(1, SeqMin(p), currentPrice, SRResistance, 50)
    ensures r[1].level == 2 && r[1].target == SRResistance && r[1].positionClosePct == 30
    ensures r[1].distancePct == Percent(r[1].price - currentPrice, currentPrice)
    ensures r[1].price in p
    ensures TwoLowestOf(p, r[0].price, r[1].price)
  {
    var (lo, second) := TwoLowest(p);
    SeqMinIn(p);
    assert lo == SeqMin(p);
    [Target(1, lo, currentPrice, SRResistance, 50), Target(2, second, currentPrice, SRResistance, 30)]
  }

  /** findResistanceTargets: target 1 (close 50%) at the lowest valid
      resistance; target 2 (close 30%) at the second lowest, or, with only
      one valid resistance, at the 1.618 extension when that lies above the
      price. No valid resistance, no targets. */
  function FindResistanceTargets(currentPrice: real, resistance: seq<SRLevel>, fib: Option<FibonacciLevels>): (r: seq<TakeProfitLevel>)
    ensures |r| <= 2
    ensures |r| == 0 <==> forall k | 0 <= k < |resistance| :: !IsValidTarget(currentPrice, resistance[k])
    ensures forall k | 0 <= k < |r| :: r[k].price > currentPrice && r[k].level == k + 1
  {
    var valid := ValidResistances(currentPrice, resistance);
    TargetsFromPrices(currentPrice, PricesOf(valid), fib)
  }

  /** The targets are exactly those read off the valid resistances' prices:
      the lowest first, then the second lowest or the extension. */
  lemma FindResistanceTargetsPrices(currentPrice: real, resistance: seq<SRLevel>, fib: Option<FibonacciLevels>)
    ensures var p := PricesOf(ValidResistances(currentPrice, resistance));
      var r := FindResistanceTargets(currentPrice, resistance, fib);
      && (|r| >= 1 ==> r[0].price in p && forall i | 0 <= i < |p| :: r[0].price <= p[i])
      && (|p| >= 2 ==>
        && |r| == 2 && r[1].target == SRResistance
        && TwoLowestOf(p, r[0].price, r[1].price))
      && (|p| == 1 ==>
        && (|r| == 2 <==> fib.Some? && Extension1618(fib.value) > currentPrice)
        && (|r| == 2 ==> r[1].target == FibonacciExtension && r[1].price == Extension1618(fib.value)))
  {
  }

  // ---------------------------------------------------------------------
  // Confidence

  /** The base score of 50 plus the four bonuses. */
  function ConfidenceScore(reasonCount: nat, hasBullishPattern: bool, supportStrength: real, rrRatio: real): (score: int)
    ensures 50 <= score <= 100
  {
    50
    + (if reasonCount >= 3 then 15 else if reasonCount >= 2 then 10 else 0)
    + (if hasBullishPattern then 15 else 0)
    + (if supportStrength > 0.8 then 10 else if supportStrength > 0.7 then 5 else 0)
    + (if rrRatio >= 5.0 then 10 else if rrRatio >= 4.0 then 7 else if rrRatio >= 3.0 then 5 else 0)
  }

  function ConfidenceLevelOf(score: int): (l: ConfidenceLevel)
    ensures l == HighConfidence <==> score >= 80
    ensures l == MediumConfidence <==> 60 <= score < 80
  {
    if score >= 80 then HighConfidence else if score >= 60 then MediumConfidence else LowConfidence
  }

  /** The position of each factor label in the listing order. */
  function FactorRank(f: ConfidenceFactor): nat
  {
    match f
    case MultipleSupportConvergence => 0
    case StrongBullishPattern => 1
    case HighSupportStrength => 2
    case ExcellentRiskReward => 3
  }

  /** The factor labels that apply, in the fixed listing order. */
  function Factors(reasonCount: nat, hasBullishPattern: bool, supportStrength: real, rrRatio: real): (f: seq<ConfidenceFactor>)
    ensures MultipleSupportConvergence in f <==> reasonCount >= 3
    ensures StrongBullishPattern in f <==> hasBullishPattern
    ensures HighSupportStrength in f <==> supportStrength > 0.8
    ensures ExcellentRiskReward in f <==> rrRatio >= 4.0
    ensures forall i, j | 0 <= i < j < |f| :: FactorRank(f[i]) < FactorRank(f[j])
  {
    (if reasonCount >= 3 then [MultipleSupportConvergence] else [])
    + (if hasBullishPattern then [StrongBullishPattern] else [])
    + (if supportStrength > 0.8 then [HighSupportStrength] else [])
    + (if rrRatio >= 4.0 then [ExcellentRiskReward] else [])
  }

  /** calculateConfidence: score in [50, 100], HIGH from 80, MEDIUM from 60. */
  function CalculateConfidence(reasons: seq<Reason>, hasBullishPattern: bool, supportStrength: real, rrRatio: real): (r: ConfidenceInfo)
    ensures 50 <= r.score <= 100
    ensures r.level == HighConfidence <==> r.score >= 80
    ensures r.level == MediumConfidence <==> 60 <= r.score < 80
    ensures MultipleSupportConvergence in r.factors <==> |reasons| >= 3
    ensures StrongBullishPattern in r.factors <==> hasBullishPattern
    ensures HighSupportStrength in r.factors <==> supportStrength > 0.8
    ensures ExcellentRiskReward in r.factors <==> rrRatio >= 4.0
    ensures forall i, j | 0 <= i < j < |r.factors| :: FactorRank(r.factors[i]) < FactorRank(r.factors[j])
  {
    var score := ConfidenceScore(|reasons|, hasBullishPattern, supportStrength, rrRatio);
    ConfidenceInfo(score, ConfidenceLevelOf(score), Factors(|reasons|, hasBullishPattern, supportStrength, rrRatio))
  }

  /** More reasons, a pattern, a stronger support or a better ratio never
      lower the score. */
  lemma ConfidenceMonotone(n1: nat, b1: bool, s1: real, rr1: real, n2: nat, b2: bool, s2: real, rr2: real)
    requires n1 <= n2 && (b1 ==> b2) && s1 <= s2 && rr1 <= rr2
    ensures ConfidenceScore(n1, b1, s1, rr1) <= ConfidenceScore(n2, b2, s2, rr2)
  {
  }

  /** Two reasons, a bullish pattern and a support stronger than 0.7 already
      reach 80, whatever the ratio: every support bounce is HIGH. */
  lemma BounceConfidenceHigh(reasons: seq<Reason>, supportStrength: real, rrRatio: real)
    requires |reasons| >= 2 && supportStrength > 0.7
    ensures CalculateConfidence(reasons, true, supportStrength, rrRatio).level == HighConfidence
  {
  }

  // ---------------------------------------------------------------------
  // Support bounce

  const MinBounceCandles := 50

  /** How far a level lies from the price. */
  function Distance(currentPrice: real, l: SRLevel): real
  {
    Abs(currentPrice - l.price)
  }

  /** A support that can carry a bounce: below the price, within 1% of it
      (measured against the price, so a zero price qualifies nothing), and
      stronger than 0.7. */
  predicate QualifyingSupport(currentPrice: real, l: SRLevel)
  {
    && l.price < currentPrice
    && currentPrice != 0.0 && Distance(currentPrice, l) / currentPrice * 100.0 < 1.0
    && l.strength > 0.7
  }

  /** A qualifying support is never at price 0, and for a positive price it
      lies strictly between 99% of the price and the price. */
  lemma QualifyingSupportPrice(currentPrice: real, l: SRLevel)
    requires QualifyingSupport(currentPrice, l)
    ensures l.price != 0.0
    ensures currentPrice > 0.0 ==> currentPrice * 0.99 < l.price < currentPrice
  {
    var d := Distance(currentPrice, l);
    assert d == currentPrice - l.price;
    if currentPrice > 0.0 {
      var q := d / currentPrice;
      assert q * 100.0 < 1.0;
      assert q * currentPrice == d;
      var slack := 1.0 - q * 100.0;
      assert slack * currentPrice == currentPrice - d * 100.0;
      MulPositive(slack, currentPrice);
      assert l.price > currentPrice * 0.99;
    } else {
      assert l.price < 0.0;
    }
  }

  /** The scan for the nearest qualifying support: the first one at the
      smallest distance (a later one must be strictly nearer to replace it). */
  function NearestSupport(currentPrice: real, supports: seq<SRLevel>): (r: Option<nat>)
    ensures r.None? <==> forall i | 0 <= i < |supports| :: !QualifyingSupport(currentPrice, supports[i])
    ensures r.Some? ==> r.value < |supports| && QualifyingSupport(currentPrice, supports[r.value])
    ensures r.Some? ==> forall i | 0 <= i < |supports| && QualifyingSupport(currentPrice, supports[i]) ::
      Distance(currentPrice, supports[r.value]) <= Distance(currentPrice, supports[i])
    ensures r.Some? ==> forall i | 0 <= i < r.value && QualifyingSupport(currentPrice, supports[i]) ::
      Distance(currentPrice, supports[r.value]) < Distance(currentPrice, supports[i])
  {
    if |supports| == 0 then None
    else
      var init := supports[..|supports| - 1];
      var x := supports[|supports| - 1];
      var best := NearestSupport(currentPrice, init);
      assert forall i | 0 <= i < |init| :: init[i] == supports[i];
      if QualifyingSupport(currentPrice, x)
         && (best.None? || Distance(currentPrice, x) < Distance(currentPrice, init[best.value]))
      then Some(|supports| - 1)
      else best
  }

  /** A bullish pattern reliable enough to trade on. */
  predicate StrongBullish(p: CandlestickPattern)
  {
    p.direction == Bullish && p.reliability > 0.7
  }

  /** The first strong bullish pattern, if any. */
  function FirstStrongBullish(patterns: seq<CandlestickPattern>): (r: Option<nat>)
    ensures r.None? <==> forall i | 0 <= i < |patterns| :: !StrongBullish(patterns[i])
    ensures r.Some? ==> r.value < |patterns| && StrongBullish(patterns[r.value])
    ensures r.Some? ==> forall i | 0 <= i < r.value :: !StrongBullish(patterns[i])
  {
    if |patterns| == 0 then None
    else if StrongBullish(patterns[0]) then Some(0)
    else
      var rest := FirstStrongBullish(patterns[1..]);
      assert forall i | 1 <= i < |patterns| :: patterns[i] == patterns[1..][i - 1];
      match rest
      case None => None
      case Some(k) => Some(k + 1)
  }

  /** Entry 0.2% above the support; stop below it by the larger of 1.5% of
      the support and one ATR. */
  function EntryPrice(support: real): real
  {
    support * 1.002
  }

  function StopPrice(support: real, atr: real): real
  {
    support - Max(support * 0.015, atr)
  }

  /** For a positive support and a non-negative ATR the stop is below the
      support, the entry above it, and the risk is positive. */
  lemma BracketOrdered(support: real, atr: real)
    requires support > 0.0 && atr >= 0.0
    ensures StopPrice(support, atr) < support < EntryPrice(support)
    ensures EntryPrice(support) - StopPrice(support, atr) > 0.0
  {
  }

  /** Whether some retracement level lies within 1% of the support. */
  predicate FibonacciNear(fib: Option<FibonacciLevels>, support: real)
  {
    fib.Some? && exists l | l in fib.value.retracement :: Abs(fib.value.retracement[l] - support) < support * 0.01
  }

  /** The reasons listed for a bounce: the support and the pattern always,
      then EMA(50) and a Fibonacci retracement when they are within 1% of
      the support. */
  function BounceReasons(support: SRLevel, pattern: PatternName, ema50: real, fib: Option<FibonacciLevels>): (r: seq<Reason>)
    ensures 2 <= |r| <= 4
    ensures r[0] == StrongSupport(support.price, support.strength) && r[1] == BullishPatternSeen(pattern)
    ensures EmaSupport(ema50) in r <==> ema50 > 0.0 && Abs(ema50 - support.price) < support.price * 0.01
    ensures FibonacciSupport in r <==> FibonacciNear(fib, support.price)
  {
    [StrongSupport(support.price, support.strength), BullishPatternSeen(pattern)]
    + (if ema50 > 0.0 && Abs(ema50 - support.price) < support.price * 0.01 then [EmaSupport(ema50)] else [])
    + (if FibonacciNear(fib, support.price) then [FibonacciSupport] else [])
  }

  /** The opportunity record for a support bounce that passed every check. */
  function BounceOpportunity(analysis: AnalysisResult, support: SRLevel, reasons: seq<Reason>, atr: real,
                             targets: seq<TakeProfitLevel>, id: string, expiresAt: int): (o: TradingOpportunity)
    requires |targets| >= 1
    requires EntryPrice(support.price) - StopPrice(support.price, atr) != 0.0
  {
    var entry := EntryPrice(support.price);
    var stop := StopPrice(support.price, atr);
    var risk := entry - stop;
    var reward := targets[0].price - entry;
    var ratio := reward / risk;
    TradingOpportunity(
      id, analysis.symbol, Long, SupportBounce, analysis.timestamp,
      EntryPoint(entry, reasons),
      StopLossInfo(stop, Percent(risk, entry), TechnicalLevel),
      targets,
      RiskRewardInfo(ratio, risk, reward, Percent(risk, entry), Percent(targets[0].price - entry, entry)),
      CalculateConfidence(reasons, true, support.strength, ratio),
      ValidityInfo(expiresAt, Active))
  }

  /** detectSupportBounce. `id` and `expiresAt` stand for the values the
      source derives from the wall clock. None below 50 candles, without a
      qualifying support, without a strong bullish pattern, without a
      target, with a ratio below 2, and (where the source would divide by a
      zero risk) when entry and stop coincide. */
  function DetectSupportBounce(candles: seq<Candle>, analysis: AnalysisResult, id: string, expiresAt: int): (r: Option<TradingOpportunity>)
    ensures |candles| < MinBounceCandles ==> r.None?
    ensures |candles| >= MinBounceCandles ==>
      var cp := candles[|candles| - 1].close;
      && ((forall i | 0 <= i < |analysis.srLevels.support| :: !QualifyingSupport(cp, analysis.srLevels.support[i])) ==> r.None?)
      && ((forall i | 0 <= i < |analysis.candlestickPatterns| :: !StrongBullish(analysis.candlestickPatterns[i])) ==> r.None?)
      && ((forall i | 0 <= i < |analysis.srLevels.resistance| :: !IsValidTarget(cp, analysis.srLevels.resistance[i])) ==> r.None?)
    ensures r.Some? ==> BounceShape(candles, analysis, r.value)
  {
    if |candles| < MinBounceCandles || |analysis.srLevels.support| == 0 then None
    else
      var cp := candles[|candles| - 1].close;
      match NearestSupport(cp, analysis.srLevels.support)
      case None => None
      case Some(si) =>
        match FirstStrongBullish(analysis.candlestickPatterns)
        case None => None
        case Some(pi) =>
          var targets := FindResistanceTargets(cp, analysis.srLevels.resistance, analysis.indicators.fibonacci);
          if |targets| == 0 then None
          else BounceAt(candles, analysis, si, pi, targets, id, expiresAt)
  }

  /** The support bounce off support `si`, confirmed by pattern `pi`, with
      take-profit `targets`: dropped when entry and stop coincide or when
      the reward is less than twice the risk. */
  function BounceAt(candles: seq<Candle>, analysis: AnalysisResult, si: nat, pi: nat,
                    targets: seq<TakeProfitLevel>, id: string, expiresAt: int): (r: Option<TradingOpportunity>)
    requires |candles| >= MinBounceCandles
    requires si < |analysis.srLevels.support| && pi < |analysis.candlestickPatterns|
    requires QualifyingSupport(candles[|candles| - 1].close, analysis.srLevels.support[si])
    requires 1 <= |targets| <= 2
    requires forall k | 0 <= k < |targets| :: targets[k].price > candles[|candles| - 1].close
    ensures r.Some? ==> BounceShape(candles, analysis, r.value)
    ensures r.Some? <==> RewardCoversRisk(analysis.srLevels.support[si].price, analysis.indicators.atr.value, targets[0].price)
  {
    var atr := analysis.indicators.atr.value;
    var support := analysis.srLevels.support[si];
    if !RewardCoversRisk(support.price, atr, targets[0].price) then None
    else
      var reasons := BounceReasons(support, analysis.candlestickPatterns[pi].pattern,
                                   analysis.indicators.ema.ema50, analysis.indicators.fibonacci);
      BounceShapeHolds(candles, analysis, support, reasons, atr, targets, id, expiresAt);
      Some(BounceOpportunity(analysis, support, reasons, atr, targets, id, expiresAt))
  }

  /** The risk-reward gate of a bounce entered just above `support`: a
      non-zero risk and a reward to the first target of at least twice it. */
  predicate RewardCoversRisk(support: real, atr: real, firstTarget: real)
  {
    var risk := EntryPrice(support) - StopPrice(support, atr);
    risk != 0.0 && (firstTarget - EntryPrice(support)) / risk >= 2.0
  }

  /** What every emitted support bounce looks like: its kind, its prices
      and its scoring. */
  ghost predicate BounceShape(candles: seq<Candle>, analysis: AnalysisResult, o: TradingOpportunity)
  {
    |candles| >= MinBounceCandles && BounceKind(o) && BouncePrices(candles, o) && BounceScore(o)
  }

  ghost predicate BounceKind(o: TradingOpportunity)
  {
    && o.tradeType == Long && o.strategy == SupportBounce && o.validity.status == Active
    && o.stopLoss.stopMethod == TechnicalLevel
  }

  /** Between one and two targets, all above the last close. */
  ghost predicate BouncePrices(candles: seq<Candle>, o: TradingOpportunity)
    requires |candles| > 0
  {
    && 1 <= |o.takeProfit| <= 2
    && (forall k | 0 <= k < |o.takeProfit| :: o.takeProfit[k].price > candles[|candles| - 1].close)
    && o.riskReward.riskAmount == o.entry.price - o.stopLoss.price
    && o.riskReward.rewardAmount == o.takeProfit[0].price - o.entry.price
  }

  ghost predicate BounceScore(o: TradingOpportunity)
  {
    && o.riskReward.ratio >= 2.0
    && |o.entry.reasons| >= 2
    && o.confidence.level == HighConfidence
  }

  lemma BounceShapeHolds(candles: seq<Candle>, analysis: AnalysisResult, support: SRLevel, reasons: seq<Reason>,
                         atr: real, targets: seq<TakeProfitLevel>, id: string, expiresAt: int)
    requires |candles| >= MinBounceCandles
    requires 1 <= |targets| <= 2
    requires forall k | 0 <= k < |targets| :: targets[k].price > candles[|candles| - 1].close
    requires |reasons| >= 2 && support.strength > 0.7
    requires EntryPrice(support.price) - StopPrice(support.price, atr) != 0.0
    requires (targets[0].price - EntryPrice(support.price)) / (EntryPrice(support.price) - StopPrice(support.price, atr)) >= 2.0
    ensures BounceShape(candles, analysis, BounceOpportunity(analysis, support, reasons, atr, targets, id, expiresAt))
  {
    var o := BounceOpportunity(analysis, support, reasons, atr, targets, id, expiresAt);
    BounceConfidenceHigh(reasons, support.strength, o.riskReward.ratio);
  }

  /** With a positive price and a non-negative ATR, an emitted bounce has its
      stop below the support, its entry above it, and a positive risk. */
  lemma BounceBracketed(candles: seq<Candle>, analysis: AnalysisResult, id: string, expiresAt: int)
    requires |candles| >= MinBounceCandles
    requires candles[|candles| - 1].close > 0.0 && analysis.indicators.atr.value >= 0.0
    ensures var r := DetectSupportBounce(candles, analysis, id, expiresAt);
      r.Some? ==>
        exists i | 0 <= i < |analysis.srLevels.support| ::
          && QualifyingSupport(candles[|candles| - 1].close, analysis.srLevels.support[i])
          && r.value.stopLoss.price < analysis.srLevels.support[i].price < r.value.entry.price
          && r.value.riskReward.riskAmount > 0.0
  {
    var r := DetectSupportBounce(candles, analysis, id, expiresAt);
    if r.Some? {
      var cp := candles[|candles| - 1].close;
      var si := NearestSupport(cp, analysis.srLevels.support).value;
      var support := analysis.srLevels.support[si];
      QualifyingSupportPrice(cp, support);
      BracketOrdered(support.price, analysis.indicators.atr.value);
    }
  }

  /** An emitted bounce is built on the nearest qualifying support and the
      first strong bullish pattern: entry 0.2% above that support, stop
      below it by the larger of 1.5% of it and the ATR, the resistance
      targets, the ratio of reward to risk, and the caller's id and expiry. */
  lemma BounceUsesNearestSupport(candles: seq<Candle>, analysis: AnalysisResult, id: string, expiresAt: int)
    requires |candles| >= MinBounceCandles
    ensures var r := DetectSupportBounce(candles, analysis, id, expiresAt);
      var cp := candles[|candles| - 1].close;
      var near := NearestSupport(cp, analysis.srLevels.support);
      var first := FirstStrongBullish(analysis.candlestickPatterns);
      r.Some? ==>
        && near.Some? && first.Some?
        && var s := analysis.srLevels.support[near.value];
        && r.value.entry.price == EntryPrice(s.price)
        && r.value.stopLoss.price == StopPrice(s.price, analysis.indicators.atr.value)
        && r.value.takeProfit == FindResistanceTargets(cp, analysis.srLevels.resistance, analysis.indicators.fibonacci)
        && r.value.riskReward.riskAmount != 0.0
        && r.value.riskReward.ratio == r.value.riskReward.rewardAmount / r.value.riskReward.riskAmount
        && r.value.entry.reasons[1] == BullishPatternSeen(analysis.candlestickPatterns[first.value].pattern)
        && r.value.id == id && r.value.validity.expiresAt == expiresAt
  {
    var r := DetectSupportBounce(candles, analysis, id, expiresAt);
    if r.Some? {
      var cp := candles[|candles| - 1].close;
      var si := NearestSupport(cp, analysis.srLevels.support).value;
      var pi := FirstStrongBullish(analysis.candlestickPatterns).value;
      var targets := FindResistanceTargets(cp, analysis.srLevels.resistance, analysis.indicators.fibonacci);
      var b := BounceAt(candles, analysis, si, pi, targets, id, expiresAt);
      assert r == b;
      BounceAtFields(candles, analysis, si, pi, targets, id, expiresAt);
    }
  }

  /** A bounce is emitted exactly when every gate passes: enough candles,
      a qualifying support, a strong bullish pattern, a target, and a
      reward of at least twice a non-zero risk at the nearest support. */
  lemma BounceFiresExactly(candles: seq<Candle>, analysis: AnalysisResult, id: string, expiresAt: int)
    ensures DetectSupportBounce(candles, analysis, id, expiresAt).Some? <==>
      && |candles| >= MinBounceCandles
      && var cp := candles[|candles| - 1].close;
      && var near := NearestSupport(cp, analysis.srLevels.support);
      && var targets := FindResistanceTargets(cp, analysis.srLevels.resistance, analysis.indicators.fibonacci);
      && near.Some?
      && FirstStrongBullish(analysis.candlestickPatterns).Some?
      && |targets| > 0
      && RewardCoversRisk(analysis.srLevels.support[near.value].price, analysis.indicators.atr.value, targets[0].price)
  {
  }

  lemma BounceAtFields(candles: seq<Candle>, analysis: AnalysisResult, si: nat, pi: nat,
                       targets: seq<TakeProfitLevel>, id: string, expiresAt: int)
    requires |candles| >= MinBounceCandles
    requires si < |analysis.srLevels.support| && pi < |analysis.candlestickPatterns|
    requires QualifyingSupport(candles[|candles| - 1].close, analysis.srLevels.support[si])
    requires 1 <= |targets| <= 2
    requires forall k | 0 <= k < |targets| :: targets[k].price > candles[|candles| - 1].close
    ensures var r := BounceAt(candles, analysis, si, pi, targets, id, expiresAt);
      var s := analysis.srLevels.support[si];
      r.Some? ==>
        && r.value.entry.price == EntryPrice(s.price)
        && r.value.stopLoss.price == StopPrice(s.price, analysis.indicators.atr.value)
        && r.value.takeProfit == targets
        && r.value.riskReward.riskAmount != 0.0
        && r.value.riskReward.ratio == r.value.riskReward.rewardAmount / r.value.riskReward.riskAmount
        && r.value.entry.reasons[1] == BullishPatternSeen(analysis.candlestickPatterns[pi].pattern)
        && r.value.id == id && r.value.validity.expiresAt == expiresAt
  {
  }

  /** detectBreakoutRetest: not implemented in the source, never fires. */
  function DetectBreakoutRetest(candles: seq<Candle>, analysis: AnalysisResult): (r: Option<TradingOpportunity>)
    ensures r.None?
  {
    None
  }

  /** detectTrendContinuation: not implemented in the source, never fires. */
  function DetectTrendContinuation(candles: seq<Candle>, analysis: AnalysisResult): (r: Option<TradingOpportunity>)
    ensures r.None?
  {
    None
  }

  // ---------------------------------------------------------------------
  // Detection run

  /** A strategy's candidate, kept when its ratio reaches the minimum. */
  function Accept(candidate: Option<TradingOpportunity>, minRiskReward: real): (r: seq<TradingOpportunity>)
    ensures |r| <= 1
    ensures forall o | o in r :: candidate == Some(o) && o.riskReward.ratio >= minRiskReward
    ensures candidate.Some? && candidate.value.riskReward.ratio >= minRiskReward ==> r == [candidate.value]
  {
    if candidate.Some? && candidate.value.riskReward.ratio >= minRiskReward then [candidate.value] else []
  }

  /** The newly detected opportunities, in strategy order. */
  function NewlyDetected(candles: seq<Candle>, analysis: AnalysisResult, minRiskReward: real, id: string, expiresAt: int): (r: seq<TradingOpportunity>)
    ensures |r| <= 1
    ensures forall o | o in r :: o.riskReward.ratio >= minRiskReward && o.strategy == SupportBounce
    ensures forall o | o in r :: DetectSupportBounce(candles, analysis, id, expiresAt) == Some(o)
    ensures var bounce := DetectSupportBounce(candles, analysis, id, expiresAt);
      bounce.Some? && bounce.value.riskReward.ratio >= minRiskReward ==> r == [bounce.value]
  {
    var bounce := DetectSupportBounce(candles, analysis, id, expiresAt);
    var r := Accept(bounce, minRiskReward)
      + Accept(DetectBreakoutRetest(candles, analysis), minRiskReward)
      + Accept(DetectTrendContinuation(candles, analysis), minRiskReward);
    assert r == Accept(bounce, minRiskReward);
    r
  }

  /** DetectOpportunities: the stored active opportunities (read by the
      source from its repository, here a parameter) combined by id with the
      newly detected ones, the new record winning on a clash. */
  function DetectOpportunities(candles: seq<Candle>, analysis: AnalysisResult, minRiskReward: real,
                               existing: seq<TradingOpportunity>, id: string, expiresAt: int): (r: seq<TradingOpportunity>)
    ensures OpportunityMerge.UniqueIds(r)
    ensures forall o | o in r ::
      (o in existing
       || (o.riskReward.ratio >= minRiskReward && DetectSupportBounce(candles, analysis, id, expiresAt) == Some(o)))
    ensures forall i :: (OpportunityMerge.Find(r, i)
      == OpportunityMerge.LastWithId(existing + NewlyDetected(candles, analysis, minRiskReward, id, expiresAt), i))
  {
    OpportunityMerge.Combine(existing, NewlyDetected(candles, analysis, minRiskReward, id, expiresAt))
  }

  /** The new opportunity, when there is one, is in the result, and every
      stored opportunity with a different id survives unchanged. */
  lemma DetectOpportunitiesKeeps(candles: seq<Candle>, analysis: AnalysisResult, minRiskReward: real,
                                 existing: seq<TradingOpportunity>, id: string, expiresAt: int)
    requires OpportunityMerge.UniqueIds(existing)
    ensures var newly := NewlyDetected(candles, analysis, minRiskReward, id, expiresAt);
      var r := DetectOpportunities(candles, analysis, minRiskReward, existing, id, expiresAt);
      && (forall o | o in newly :: OpportunityMerge.Find(r, o.id) == Some(o))
      && (forall o | o in existing && !OpportunityMerge.HasId(newly, o.id) :: OpportunityMerge.Find(r, o.id) == Some(o))
  {
    var newly := NewlyDetected(candles, analysis, minRiskReward, id, expiresAt);
    forall o | o in newly
      ensures OpportunityMerge.Find(OpportunityMerge.Combine(existing, newly), o.id) == Some(o)
    {
      OpportunityMerge.NewReplacesExisting(existing, newly, o);
    }
    forall o | o in existing && !OpportunityMerge.HasId(newly, o.id)
      ensures OpportunityMerge.Find(OpportunityMerge.Combine(existing, newly), o.id) == Some(o)
    {
      OpportunityMerge.ExistingKept(existing, newly, o);
    }
  }
}
