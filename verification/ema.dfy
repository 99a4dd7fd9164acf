/** Exponential moving average: seeded with the simple mean of the first
    `period` prices, then `ema[i] = (p[i] - ema[i-1]) * 2/(period+1) + ema[i-1]`.
    Entries before the seed stay 0, as in the zero-initialised Go slice. */
module Ema {
  import opened Common

  datatype EMAResult = EMAResult(values: seq<real>, period: int)

  function Multiplier(period: int): (m: real)
    requires period >= 1
    ensures 0.0 < m <= 1.0
  {
    2.0 / ((period + 1) as real)
  }

  /** The EMA at index i (i >= period-1): the seeded recurrence. */
  function EmaAt(prices: seq<real>, period: int, i: int): real
    requires 1 <= period <= i + 1 <= |prices|
    decreases i
  {
    if i == period - 1 then Mean(prices[..period])
    else
      var prev := EmaAt(prices, period, i - 1);
      (prices[i] - prev) * Multiplier(period) + prev
  }

  /** CalculateEMA: empty values when there are fewer prices than the period. */
  function CalculateEMA(prices: seq<real>, period: int): (r: EMAResult)
    requires period >= 1
    ensures r.period == period
    ensures |prices| < period <==> r.values == []
    ensures |prices| >= period ==> |r.values| == |prices|
    ensures |prices| >= period ==> forall i | 0 <= i < period - 1 :: r.values[i] == 0.0
    ensures |prices| >= period ==> r.values[period - 1] == Mean(prices[..period])
    ensures |prices| >= period ==> forall i | period <= i < |prices| ::
      r.values[i] == (prices[i] - r.values[i - 1]) * (2.0 / ((period + 1) as real)) + r.values[i - 1]
  {
    if |prices| < period then EMAResult([], period)
    else
      EMAResult(seq(|prices|, i requires 0 <= i < |prices| =>
        if i < period - 1 then 0.0 else EmaAt(prices, period, i)), period)
  }

  /** A constant series is a fixed point from the seed onwards. */
  lemma {:induction false} EmaConstantSeries(prices: seq<real>, period: int, c: real)
    requires period >= 1 && |prices| >= period
    requires forall i | 0 <= i < |prices| :: prices[i] == c
    ensures forall i | period - 1 <= i < |prices| :: CalculateEMA(prices, period).values[i] == c
  {
    forall i | period - 1 <= i < |prices|
      ensures EmaAt(prices, period, i) == c
    {
      EmaAtConstant(prices, period, i, c);
    }
  }

  lemma {:induction false} EmaAtConstant(prices: seq<real>, period: int, i: int, c: real)
    requires 1 <= period <= i + 1 <= |prices|
    requires forall k | 0 <= k < |prices| :: prices[k] == c
    ensures EmaAt(prices, period, i) == c
    decreases i
  {
    if i == period - 1 {
      MeanConstant(prices[..period], c);
    } else {
      EmaAtConstant(prices, period, i - 1, c);
    }
  }

  /** Every EMA value from the seed on lies within the range of the prices
      seen so far, because each step is a convex combination. */
  lemma {:induction false} EmaWithinPriceRange(prices: seq<real>, period: int)
    requires period >= 1 && |prices| >= period
    ensures forall i | period - 1 <= i < |prices| ::
      SeqMin(prices[..i + 1]) <= CalculateEMA(prices, period).values[i] <= SeqMax(prices[..i + 1])
  {
    forall i | period - 1 <= i < |prices|
      ensures SeqMin(prices[..i + 1]) <= EmaAt(prices, period, i) <= SeqMax(prices[..i + 1])
    {
      var lo, hi := SeqMin(prices[..i + 1]), SeqMax(prices[..i + 1]);
      assert forall k | 0 <= k <= i :: prices[k] == prices[..i + 1][k];
      EmaAtWithin(prices, period, i, lo, hi);
    }
  }

  lemma {:induction false} EmaAtWithin(prices: seq<real>, period: int, i: int, lo: real, hi: real)
    requires 1 <= period <= i + 1 <= |prices|
    requires forall k | 0 <= k <= i :: lo <= prices[k] <= hi
    ensures lo <= EmaAt(prices, period, i) <= hi
    decreases i
  {
    if i == period - 1 {
      MeanBounds(prices[..period], lo, hi);
    } else {
      EmaAtWithin(prices, period, i - 1, lo, hi);
      ConvexStep(prices[i], EmaAt(prices, period, i - 1), Multiplier(period), lo, hi);
    }
  }

  /** CalculateMultipleEMA: one EMA per requested period, keyed by the
      period; a repeated period is simply computed again. */
  method CalculateMultipleEMA(prices: seq<real>, periods: seq<int>) returns (r: map<int, EMAResult>)
    requires forall k | 0 <= k < |periods| :: periods[k] >= 1
    ensures r.Keys == set k | 0 <= k < |periods| :: periods[k]
    ensures forall p | p in r :: p >= 1 && r[p] == CalculateEMA(prices, p)
  {
    r := map[];
    var i := 0;
    while i < |periods|
      invariant 0 <= i <= |periods|
      invariant r.Keys == set k | 0 <= k < i :: periods[k]
      invariant forall p | p in r :: p >= 1 && r[p] == CalculateEMA(prices, p)
    {
      r := r[periods[i] := CalculateEMA(prices, periods[i])];
      i := i + 1;
    }
  }

  /** GetCurrentEMA: the last value, or 0 when there is none. */
  function GetCurrentEMA(r: EMAResult): (v: real)
    ensures |r.values| == 0 ==> v == 0.0
    ensures |r.values| > 0 ==> v == r.values[|r.values| - 1]
  {
    if |r.values| == 0 then 0.0 else r.values[|r.values| - 1]
  }

  /** GetEMAAtIndex: the value at `index`, or 0 outside the values. */
  function GetEMAAtIndex(r: EMAResult, index: int): (v: real)
    ensures !(0 <= index < |r.values|) ==> v == 0.0
    ensures 0 <= index < |r.values| ==> v == r.values[index]
  {
    if index < 0 || index >= |r.values| then 0.0 else r.values[index]
  }

  /** The current EMA of a series at least `period` long lies within the
      range of the prices; of a shorter one it is 0. */
  lemma CurrentEmaWithinPrices(prices: seq<real>, period: int)
    requires period >= 1
    ensures |prices| < period ==> GetCurrentEMA(CalculateEMA(prices, period)) == 0.0
    ensures |prices| >= period ==>
      SeqMin(prices) <= GetCurrentEMA(CalculateEMA(prices, period)) <= SeqMax(prices)
  {
    if |prices| >= period {
      EmaWithinPriceRange(prices, period);
      assert prices[..|prices|] == prices;
    }
  }

  /** Short EMAs strictly above longer ones. */
  predicate IsBullishAlignment(ema9: real, ema21: real, ema50: real, ema200: real)
  {
    ema9 > ema21 && ema21 > ema50 && ema50 > ema200
  }

  /** Short EMAs strictly below longer ones. */
  predicate IsBearishAlignment(ema9: real, ema21: real, ema50: real, ema200: real)
  {
    ema9 < ema21 && ema21 < ema50 && ema50 < ema200
  }

  lemma AlignmentsExclusive(ema9: real, ema21: real, ema50: real, ema200: real)
    ensures !(IsBullishAlignment(ema9, ema21, ema50, ema200) && IsBearishAlignment(ema9, ema21, ema50, ema200))
  {
  }

  /** 1 for a golden cross (fast moves from at-or-below to above slow), -1 for
      a death cross, 0 otherwise or when either series has fewer than 2 values. */
  function DetectCrossover(fast: EMAResult, slow: EMAResult): (r: int)
    ensures r in {-1, 0, 1}
    ensures |fast.values| < 2 || |slow.values| < 2 ==> r == 0
    ensures r == 1 <==>
      && |fast.values| >= 2 && |slow.values| >= 2
      && fast.values[|fast.values| - 2] <= slow.values[|slow.values| - 2]
      && fast.values[|fast.values| - 1] > slow.values[|slow.values| - 1]
    ensures r == -1 <==>
      && |fast.values| >= 2 && |slow.values| >= 2
      && fast.values[|fast.values| - 2] >= slow.values[|slow.values| - 2]
      && fast.values[|fast.values| - 1] < slow.values[|slow.values| - 1]
  {
    if |fast.values| < 2 || |slow.values| < 2 then 0
    else
      var currentFast := GetCurrentEMA(fast);
      var currentSlow := GetCurrentEMA(slow);
      var prevFast := GetEMAAtIndex(fast, |fast.values| - 2);
      var prevSlow := GetEMAAtIndex(slow, |slow.values| - 2);
      if prevFast <= prevSlow && currentFast > currentSlow then 1
      else if prevFast >= prevSlow && currentFast < currentSlow then -1
      else 0
  }

  /** Swapping the two series turns a golden cross into a death cross and
      back, and leaves "no cross" as it is. */
  lemma CrossoverAntisymmetric(fast: EMAResult, slow: EMAResult)
    ensures DetectCrossover(slow, fast) == -DetectCrossover(fast, slow)
  {
  }
}
