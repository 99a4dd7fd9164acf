/** Average True Range with Wilder smoothing: the seed is the mean of the
    first `period` true ranges, then `atr[i] = (atr[i-1]*(period-1) + tr[i]) / period`.
    Entries before the seed stay 0, as in the zero-initialised Go slice. */
module Atr {
  import opened Common
  import opened Model

  datatype ATRResult = ATRResult(values: seq<real>, period: int)

  /** The true range of candle `index`: its high-low span for the first
      candle, otherwise the widest of high-low and the two gaps to the
      previous close. */
  function TrueRange(candles: seq<Candle>, index: int): (r: real)
    requires 0 <= index < |candles|
    ensures r >= candles[index].high - candles[index].low
    ensures index > 0 ==> r >= 0.0
    ensures index > 0 ==> r >= Abs(candles[index].high - candles[index - 1].close)
    ensures index > 0 ==> r >= Abs(candles[index].low - candles[index - 1].close)
    ensures index > 0 ==> r == candles[index].high - candles[index].low
                          || r == Abs(candles[index].high - candles[index - 1].close)
                          || r == Abs(candles[index].low - candles[index - 1].close)
    ensures index == 0 ==> r == candles[0].high - candles[0].low
  {
    if index == 0 then candles[index].high - candles[index].low
    else
      var high := candles[index].high;
      var low := candles[index].low;
      var prevClose := candles[index - 1].close;
      Max(high - low, Max(Abs(high - prevClose), Abs(low - prevClose)))
  }

  function TrueRanges(candles: seq<Candle>): (r: seq<real>)
    ensures |r| == |candles|
    ensures forall i | 0 <= i < |candles| :: r[i] == TrueRange(candles, i)
  {
    seq(|candles|, i requires 0 <= i < |candles| => TrueRange(candles, i))
  }

  /** One Wilder smoothing step: the previous average weighted period-1
      against the new true range. */
  function WilderStep(prev: real, tr: real, period: int): real
    requires period >= 1
  {
    (prev * ((period - 1) as real) + tr) / (period as real)
  }

  /** Wilder smoothing keeps the average between common bounds of the
      previous average and the new true range. */
  lemma WilderStepWithin(prev: real, tr: real, period: int, lo: real, hi: real)
    requires period >= 1
    requires lo <= prev <= hi && lo <= tr <= hi
    ensures lo <= WilderStep(prev, tr, period) <= hi
  {
    var p := period as real;
    MulNonNegative(prev - lo, p - 1.0);
    MulNonNegative(hi - prev, p - 1.0);
    assert prev * (p - 1.0) + tr - p * lo == (prev - lo) * (p - 1.0) + (tr - lo);
    assert p * hi - (prev * (p - 1.0) + tr) == (hi - prev) * (p - 1.0) + (hi - tr);
    DivBounds(prev * (p - 1.0) + tr, p, lo, hi);
  }

  /** Wilder-smoothed ATR at index i (i >= period-1). */
  function AtrAt(tr: seq<real>, period: int, i: int): real
    requires 1 <= period <= i + 1 <= |tr|
    decreases i
  {
    if i == period - 1 then Mean(tr[..period])
    else WilderStep(AtrAt(tr, period, i - 1), tr[i], period)
  }

  /** CalculateATR: needs period+1 candles, otherwise no values. A period
      below 1 with enough candles indexes before the slice in the source,
      so such calls are excluded. */
  function CalculateATR(candles: seq<Candle>, period: int): (r: ATRResult)
    requires period >= 1 || |candles| < period + 1
    ensures r.period == period
    ensures |candles| < period + 1 <==> r.values == []
    ensures |candles| >= period + 1 ==> |r.values| == |candles|
    ensures |candles| >= period + 1 ==> forall i | 0 <= i < period - 1 :: r.values[i] == 0.0
    ensures |candles| >= period + 1 ==>
      r.values[period - 1] == Mean(TrueRanges(candles)[..period])
    ensures |candles| >= period + 1 ==> forall i | period <= i < |candles| ::
      r.values[i] == WilderStep(r.values[i - 1], TrueRange(candles, i), period)
  {
    if |candles| < period + 1 then ATRResult([], period)
    else
      var tr := TrueRanges(candles);
      ATRResult(seq(|candles|, i requires 0 <= i < |candles| =>
        if i < period - 1 then 0.0 else AtrAt(tr, period, i)), period)
  }

  lemma {:induction false} AtrAtWithin(tr: seq<real>, period: int, i: int, lo: real, hi: real)
    requires 1 <= period <= i + 1 <= |tr|
    requires forall k | 0 <= k <= i :: lo <= tr[k] <= hi
    ensures lo <= AtrAt(tr, period, i) <= hi
    decreases i
  {
    if i == period - 1 {
      MeanBounds(tr[..period], lo, hi);
    } else {
      AtrAtWithin(tr, period, i - 1, lo, hi);
      WilderStepWithin(AtrAt(tr, period, i - 1), tr[i], period, lo, hi);
    }
  }

  /** Every ATR value from the seed on lies between the smallest and the
      largest true range seen so far; in particular it is never negative
      when the bars are well formed. */
  lemma {:induction false} AtrWithinTrueRanges(candles: seq<Candle>, period: int)
    requires period >= 1 && |candles| >= period + 1
    ensures forall i | period - 1 <= i < |candles| ::
      SeqMin(TrueRanges(candles)[..i + 1]) <= CalculateATR(candles, period).values[i]
        <= SeqMax(TrueRanges(candles)[..i + 1])
  {
    var tr := TrueRanges(candles);
    forall i | period - 1 <= i < |candles|
      ensures SeqMin(tr[..i + 1]) <= AtrAt(tr, period, i) <= SeqMax(tr[..i + 1])
    {
      assert forall k | 0 <= k <= i :: tr[k] == tr[..i + 1][k];
      AtrAtWithin(tr, period, i, SeqMin(tr[..i + 1]), SeqMax(tr[..i + 1]));
    }
  }

  lemma {:induction false} AtrNonNegative(candles: seq<Candle>, period: int)
    requires period >= 1 && |candles| >= period + 1
    requires forall i | 0 <= i < |candles| :: WellFormed(candles[i])
    ensures forall i | 0 <= i < |candles| :: CalculateATR(candles, period).values[i] >= 0.0
  {
    var tr := TrueRanges(candles);
    forall i | period - 1 <= i < |candles|
      ensures AtrAt(tr, period, i) >= 0.0
    {
      var hi := SeqMax(tr[..i + 1]);
      assert forall k | 0 <= k <= i :: tr[k] == tr[..i + 1][k];
      AtrAtWithin(tr, period, i, 0.0, hi);
    }
  }

  /** When every true range equals c, so does every ATR value from the seed on. */
  lemma {:induction false} AtrConstantTrueRange(candles: seq<Candle>, period: int, c: real)
    requires period >= 1 && |candles| >= period + 1
    requires forall i | 0 <= i < |candles| :: TrueRange(candles, i) == c
    ensures forall i | period - 1 <= i < |candles| :: CalculateATR(candles, period).values[i] == c
  {
    var tr := TrueRanges(candles);
    forall i | period - 1 <= i < |candles|
      ensures AtrAt(tr, period, i) == c
    {
      AtrAtWithin(tr, period, i, c, c);
    }
  }

  /** Negating every price leaves every true range, hence the ATR, unchanged. */
  lemma {:induction false} AtrMirrorInvariant(candles: seq<Candle>, period: int)
    requires period >= 1 || |candles| < period + 1
    ensures CalculateATR(MirrorAll(candles), period) == CalculateATR(candles, period)
  {
    var m := MirrorAll(candles);
    assert TrueRanges(m) == TrueRanges(candles) by {
      forall i | 0 <= i < |candles|
        ensures TrueRange(m, i) == TrueRange(candles, i)
      {
        if i > 0 {
          assert Abs(m[i].high - m[i - 1].close) == Abs(candles[i].low - candles[i - 1].close);
          assert Abs(m[i].low - m[i - 1].close) == Abs(candles[i].high - candles[i - 1].close);
        }
      }
    }
  }

  /** GetCurrentATR: the last value, or 0 when there is none. */
  function GetCurrentATR(r: ATRResult): (v: real)
    ensures |r.values| == 0 ==> v == 0.0
    ensures |r.values| > 0 ==> v == r.values[|r.values| - 1]
  {
    if |r.values| == 0 then 0.0 else r.values[|r.values| - 1]
  }

  /** GetATRAtIndex: the value at `index`, or 0 outside the values. */
  function GetATRAtIndex(r: ATRResult, index: int): (v: real)
    ensures !(0 <= index < |r.values|) ==> v == 0.0
    ensures 0 <= index < |r.values| ==> v == r.values[index]
  {
    if index < 0 || index >= |r.values| then 0.0 else r.values[index]
  }

  /** The current ATR lies within the range of the true ranges once there
      are enough candles, and is 0 before that. */
  lemma CurrentAtrWithinTrueRanges(candles: seq<Candle>, period: int)
    requires period >= 1
    ensures |candles| < period + 1 ==> GetCurrentATR(CalculateATR(candles, period)) == 0.0
    ensures |candles| >= period + 1 ==>
      SeqMin(TrueRanges(candles)) <= GetCurrentATR(CalculateATR(candles, period)) <= SeqMax(TrueRanges(candles))
  {
    if |candles| >= period + 1 {
      AtrWithinTrueRanges(candles, period);
      assert TrueRanges(candles)[..|candles|] == TrueRanges(candles);
    }
  }

  /** IsHighVolatility: the current ATR exceeds `threshold` times the mean of
      the last `period` values; false with fewer than 2*period values. A
      zero period divides 0 by 0 in the source, and no comparison with NaN
      holds; a negative period averages nothing, giving 0. */
  function IsHighVolatility(r: ATRResult, threshold: real): (b: bool)
    ensures |r.values| < r.period * 2 ==> !b
    ensures r.period == 0 ==> !b
    ensures r.period >= 1 && |r.values| >= r.period * 2 ==>
      (b <==> r.values[|r.values| - 1] > Mean(r.values[|r.values| - r.period..]) * threshold)
  {
    if |r.values| < r.period * 2 then false
    else if r.period == 0 then false
    else if r.period < 0 then GetCurrentATR(r) > 0.0
    else
      var avgATR := Sum(r.values[|r.values| - r.period..]) / (r.period as real);
      GetCurrentATR(r) > avgATR * threshold
  }

  /** With non-negative values the mean is non-negative, so raising the
      threshold can only turn a high-volatility reading off, never on. */
  lemma HighVolatilityAntitone(r: ATRResult, t1: real, t2: real)
    requires t1 <= t2
    requires forall i | 0 <= i < |r.values| :: r.values[i] >= 0.0
    ensures IsHighVolatility(r, t2) ==> IsHighVolatility(r, t1)
  {
    if r.period >= 1 && |r.values| >= r.period * 2 {
      var w := r.values[|r.values| - r.period..];
      MeanBounds(w, 0.0, SeqMax(w));
      MulNonNegative(Mean(w), t2 - t1);
    }
  }

  /** A constant ATR series never reads as high volatility for a threshold
      of at least 1: the current value equals the mean. A negative period
      averages nothing, so there any positive value reads as high. */
  lemma ConstantAtrNotHighVolatility(r: ATRResult, threshold: real, c: real)
    requires threshold >= 1.0 && c >= 0.0
    requires forall i | 0 <= i < |r.values| :: r.values[i] == c
    ensures r.period >= 0 ==> !IsHighVolatility(r, threshold)
    ensures r.period < 0 ==> (IsHighVolatility(r, threshold) <==> |r.values| > 0 && c > 0.0)
  {
    if r.period >= 1 && |r.values| >= r.period * 2 {
      MeanConstant(r.values[|r.values| - r.period..], c);
      MulNonNegative(c, threshold - 1.0);
    }
  }
}
