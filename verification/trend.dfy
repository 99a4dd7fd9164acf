/** Trend classification. Three indicator scores in [0, 1] (0 bearish, 0.5
    neutral, 1 bullish) are blended 40/30/30 into a trend score, which is
    then read as rising above 0.6, falling below 0.4, ranging otherwise.
    MACD and RSI come from an external indicator library and enter as
    parameters; KDJ is the smoothed version from the Kdj module. */
module Trend {
  import opened Common
  import opened Model
  import Kdj

  /** Below this many candles the analysis is the neutral default. */
  const MinCandles := 26

  const Neutral := TrendAnalysis(Ranging, 0.5, 0.5)

  /** scoreMACDTrend before its clamp: +/-0.2 for DIF above/not above DEA,
      plus the histogram/10 capped at 0.3 either way. */
  function RawMacdScore(macd: MACDIndicator): real
  {
    var s := 0.5 + (if macd.dif > macd.dea then 0.2 else -0.2);
    if macd.histogram > 0.0 then s + Min(0.3, macd.histogram / 10.0)
    else s - Min(0.3, -macd.histogram / 10.0)
  }

  /** scoreMACDTrend: the raw score clamped to [0, 1]. */
  function ScoreMacd(macd: MACDIndicator): (r: real)
    ensures 0.0 <= r <= 1.0
  {
    Clamp(RawMacdScore(macd), 0.0, 1.0)
  }

  /** scoreKDJTrend before its clamp: +/-0.2 for K above/not above D; +0.3
      for J above 80, -0.3 below 20, (J - 50)/100 in between. */
  function RawKdjScore(kdj: KDJIndicator): real
  {
    var s := 0.5 + (if kdj.k > kdj.d then 0.2 else -0.2);
    if kdj.j > 80.0 then s + 0.3
    else if kdj.j < 20.0 then s - 0.3
    else s + (kdj.j - 50.0) / 100.0
  }

  /** scoreKDJTrend: the raw score clamped to [0, 1]. */
  function ScoreKdj(kdj: KDJIndicator): (r: real)
    ensures 0.0 <= r <= 1.0
  {
    Clamp(RawKdjScore(kdj), 0.0, 1.0)
  }

  /** scoreRSITrend: RSI14/100, +0.1 when RSI6 > 70 and RSI14 > 60, -0.1
      when RSI6 < 30 and RSI14 < 40; clamped to [0, 1]. */
  function ScoreRsi(rsi: RSIIndicator): (r: real)
    ensures 0.0 <= r <= 1.0
  {
    var s := rsi.rsi14 / 100.0;
    var s' := if rsi.rsi6 > 70.0 && rsi.rsi14 > 60.0 then s + 0.1
              else if rsi.rsi6 < 30.0 && rsi.rsi14 < 40.0 then s - 0.1
              else s;
    Clamp(s', 0.0, 1.0)
  }

  /** The clamp in the MACD and KDJ scores never changes anything: the
      unclamped sums already stay within [0, 1]. */
  lemma MacdKdjScoresUnclamped(macd: MACDIndicator, kdj: KDJIndicator)
    ensures 0.0 <= RawMacdScore(macd) <= 1.0 && ScoreMacd(macd) == RawMacdScore(macd)
    ensures 0.0 <= RawKdjScore(kdj) <= 1.0 && ScoreKdj(kdj) == RawKdjScore(kdj)
  {
  }

  /** The weighted blend of the three scores. */
  function TrendScore(macd: MACDIndicator, kdj: KDJIndicator, rsi: RSIIndicator): (r: real)
    ensures 0.0 <= r <= 1.0
  {
    ScoreMacd(macd) * 0.4 + ScoreKdj(kdj) * 0.3 + ScoreRsi(rsi) * 0.3
  }

  /** Reading a trend score as direction, strength and change probability. */
  function Classify(score: real): (r: TrendAnalysis)
    requires 0.0 <= score <= 1.0
    ensures r.direction == Rising <==> score > 0.6
    ensures r.direction == Falling <==> score < 0.4
    ensures 0.0 <= r.strength <= 1.0 && 0.0 <= r.changeProbability <= 1.0
    ensures r.direction != Ranging ==> r.strength > 0.2 && r.strength + r.changeProbability == 1.0
    ensures r.direction == Rising ==> r.strength == (score - 0.5) * 2.0
    ensures r.direction == Falling ==> r.strength == (0.5 - score) * 2.0
    ensures r.direction == Ranging ==> r.strength >= 0.8 && r.changeProbability == 0.6
  {
    var t :=
      if score > 0.6 then TrendAnalysis(Rising, (score - 0.5) * 2.0, 1.0 - (score - 0.5) * 2.0)
      else if score < 0.4 then TrendAnalysis(Falling, (0.5 - score) * 2.0, 1.0 - (0.5 - score) * 2.0)
      else TrendAnalysis(Ranging, 1.0 - Abs(score - 0.5) * 2.0, 0.6);
    TrendAnalysis(t.direction, Min(1.0, t.strength), Min(1.0, t.changeProbability))
  }

  /** AnalyzeTrend: the neutral default below 26 candles; otherwise the
      blended score of the given MACD and RSI readings and the smoothed KDJ
      of the candles, classified. */
  function AnalyzeTrend(candles: seq<Candle>, macd: MACDIndicator, rsi: RSIIndicator): (r: TrendAnalysis)
    ensures |candles| < MinCandles ==> r == Neutral
    ensures 0.0 <= r.strength <= 1.0 && 0.0 <= r.changeProbability <= 1.0
    ensures |candles| >= MinCandles ==>
      var score := TrendScore(macd, Kdj.CalculateKDJWithHistory(candles), rsi);
      && (r.direction == Rising <==> score > 0.6)
      && (r.direction == Falling <==> score < 0.4)
  {
    if |candles| < MinCandles then Neutral
    else Classify(TrendScore(macd, Kdj.CalculateKDJWithHistory(candles), rsi))
  }

  // ---------------------------------------------------------------------
  // Symmetry: mirroring the market turns each reading into its opposite.

  function MirrorMacd(m: MACDIndicator): MACDIndicator
  {
    MACDIndicator(-m.dif, -m.dea, -m.histogram)
  }

  function MirrorKdj(k: KDJIndicator): KDJIndicator
  {
    KDJIndicator(100.0 - k.k, 100.0 - k.d, 100.0 - k.j)
  }

  function MirrorRsi(r: RSIIndicator): RSIIndicator
  {
    RSIIndicator(100.0 - r.rsi6, 100.0 - r.rsi14)
  }

  /** Away from the DIF = DEA and K = D ties (which both scores count as
      bearish), each score of the mirrored reading is the complement. */
  lemma ScoresMirror(macd: MACDIndicator, kdj: KDJIndicator, rsi: RSIIndicator)
    requires macd.dif != macd.dea && kdj.k != kdj.d
    ensures ScoreMacd(MirrorMacd(macd)) == 1.0 - ScoreMacd(macd)
    ensures ScoreKdj(MirrorKdj(kdj)) == 1.0 - ScoreKdj(kdj)
    ensures ScoreRsi(MirrorRsi(rsi)) == 1.0 - ScoreRsi(rsi)
    ensures TrendScore(MirrorMacd(macd), MirrorKdj(kdj), MirrorRsi(rsi)) == 1.0 - TrendScore(macd, kdj, rsi)
  {
  }

  /** Complementing the score flips the direction and keeps the strength. */
  lemma ClassifyMirror(score: real)
    requires 0.0 <= score <= 1.0
    ensures Classify(1.0 - score).direction == FlipTrend(Classify(score).direction)
    ensures Classify(1.0 - score).strength == Classify(score).strength
    ensures Classify(1.0 - score).changeProbability == Classify(score).changeProbability
  {
  }

  /** The tie DIF = DEA is scored bearish: the tie and its mirror both lose 0.2. */
  lemma MacdTieNotSymmetric()
    ensures ScoreMacd(MACDIndicator(1.0, 1.0, 0.0)) == 0.3
    ensures ScoreMacd(MirrorMacd(MACDIndicator(1.0, 1.0, 0.0))) == 0.3
  {
  }

  /** DetermineTrendDirection: compares the mean close of the last 10 bars
      with that of the 10 before; more than 2% up is rising, more than 2%
      down falling, anything else (or fewer than 20 bars) ranging. When the
      older mean is 0 the source's float division yields +Inf, -Inf or NaN,
      so the sign of the recent mean decides. */
  function DetermineTrendDirection(candles: seq<Candle>): (r: TrendLabel)
    ensures |candles| < 20 ==> r == Ranging
  {
    if |candles| < 20 then Ranging
    else
      var closes := Closes(candles);
      var n := |closes|;
      var recentAvg := Sum(closes[n - 10..]) / 10.0;
      var olderAvg := Sum(closes[n - 20..n - 10]) / 10.0;
      if olderAvg == 0.0 then
        (if recentAvg > 0.0 then Rising else if recentAvg < 0.0 then Falling else Ranging)
      else
        var diff := (recentAvg - olderAvg) / olderAvg;
        if diff > 0.02 then Rising else if diff < -0.02 then Falling else Ranging
  }

  /** For a positive older mean the 2% rule is a plain comparison of the
      two means: rising exactly when the recent mean exceeds 102% of the
      older one, falling exactly when it is below 98%. */
  lemma DetermineTrendDirectionPositive(candles: seq<Candle>)
    requires |candles| >= 20
    ensures var closes := Closes(candles);
      var n := |closes|;
      var recent, older := Sum(closes[n - 10..]) / 10.0, Sum(closes[n - 20..n - 10]) / 10.0;
      older > 0.0 ==>
        && (DetermineTrendDirection(candles) == Rising <==> recent > older * 1.02)
        && (DetermineTrendDirection(candles) == Falling <==> recent < older * 0.98)
  {
    var closes := Closes(candles);
    var n := |closes|;
    var recent, older := Sum(closes[n - 10..]) / 10.0, Sum(closes[n - 20..n - 10]) / 10.0;
    if older > 0.0 {
      RelativeChange(recent, older);
    }
  }

  lemma RelativeChange(recent: real, older: real)
    requires older > 0.0
    ensures (recent - older) / older > 0.02 <==> recent > older * 1.02
    ensures (recent - older) / older < -0.02 <==> recent < older * 0.98
  {
    var diff := (recent - older) / older;
    assert diff * older == recent - older;
    assert (diff - 0.02) * older == recent - older * 1.02;
    assert (-0.02 - diff) * older == older * 0.98 - recent;
    if diff > 0.02 {
      MulPositive(diff - 0.02, older);
    }
    if recent > older * 1.02 {
      SignOfProduct(diff - 0.02, older);
    }
    if diff < -0.02 {
      MulPositive(-0.02 - diff, older);
    }
    if recent < older * 0.98 {
      SignOfProduct(-0.02 - diff, older);
    }
  }

  lemma SignOfProduct(x: real, y: real)
    requires y > 0.0 && x * y > 0.0
    ensures x > 0.0
  {
    if x <= 0.0 {
      MulNonNegative(-x, y);
    }
  }

  /** Twenty equal closes read as ranging. */
  lemma DetermineTrendDirectionFlat(candles: seq<Candle>, c: real)
    requires |candles| >= 20
    requires forall i | 0 <= i < |candles| :: candles[i].close == c
    ensures DetermineTrendDirection(candles) == Ranging
  {
    var closes := Closes(candles);
    var n := |closes|;
    SumConstant(closes[n - 10..], c);
    SumConstant(closes[n - 20..n - 10], c);
  }
}
