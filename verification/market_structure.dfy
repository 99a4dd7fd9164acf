/** Market structure: swing highs and lows (bars that strictly out-reach
    every neighbour within a look-back window), the comparison of the last
    two swings of each kind, the structure break against the prevailing
    trend, and the resulting risk level. */
module MarketStructureService {
  import opened Model

  /** Below this many candles the analysis is the neutral default. */
  const MinCandles := 20

  /** The look-back window AnalyzeStructure uses on either side of a swing. */
  const SwingLookback := 5

  // ---------------------------------------------------------------------
  // Swing points

  /** Bar i is a swing high: it has `lookback` bars on either side, and its
      high is strictly above the high of every other bar within them. */
  predicate IsSwingHigh(candles: seq<Candle>, lookback: nat, i: int)
  {
    && lookback <= i < |candles| - lookback
    && forall j | i - lookback <= j <= i + lookback && j != i :: candles[j].high < candles[i].high
  }

  /** Bar i is a swing low: strictly below every other low within the window. */
  predicate IsSwingLow(candles: seq<Candle>, lookback: nat, i: int)
  {
    && lookback <= i < |candles| - lookback
    && forall j | i - lookback <= j <= i + lookback && j != i :: candles[j].low > candles[i].low
  }

  /** The swing-high bars among the first m, oldest first. */
  function SwingHighIndices(candles: seq<Candle>, lookback: nat, m: int): (r: seq<int>)
    ensures forall k | 0 <= k < |r| :: r[k] < m && IsSwingHigh(candles, lookback, r[k])
    decreases m
  {
    if m <= lookback then []
    else SwingHighIndices(candles, lookback, m - 1)
         + (if IsSwingHigh(candles, lookback, m - 1) then [m - 1] else [])
  }

  /** The swing-low bars among the first m, oldest first. */
  function SwingLowIndices(candles: seq<Candle>, lookback: nat, m: int): (r: seq<int>)
    ensures forall k | 0 <= k < |r| :: r[k] < m && IsSwingLow(candles, lookback, r[k])
    decreases m
  {
    if m <= lookback then []
    else SwingLowIndices(candles, lookback, m - 1)
         + (if IsSwingLow(candles, lookback, m - 1) then [m - 1] else [])
  }

  predicate StrictlyIncreasing(s: seq<int>)
  {
    forall a, b | 0 <= a < b < |s| :: s[a] < s[b]
  }

  /** The swing-high indices are exactly the swing highs below m. */
  lemma {:induction false} SwingHighIndicesExact(candles: seq<Candle>, lookback: nat, m: int)
    ensures forall i :: i in SwingHighIndices(candles, lookback, m) <==> i < m && IsSwingHigh(candles, lookback, i)
    decreases m
  {
    if m > lookback {
      SwingHighIndicesExact(candles, lookback, m - 1);
      var prev := SwingHighIndices(candles, lookback, m - 1);
      var last: seq<int> := if IsSwingHigh(candles, lookback, m - 1) then [m - 1] else [];
      assert SwingHighIndices(candles, lookback, m) == prev + last;
      forall i
        ensures i in prev + last <==> i in prev || i in last
      {
      }
    }
  }

  /** The swing-high indices are in chronological order. */
  lemma {:induction false} SwingHighIndicesOrdered(candles: seq<Candle>, lookback: nat, m: int)
    ensures StrictlyIncreasing(SwingHighIndices(candles, lookback, m))
    decreases m
  {
    if m > lookback {
      SwingHighIndicesOrdered(candles, lookback, m - 1);
    }
  }

  /** Swing lows of a market are the swing highs of its price mirror. */
  lemma SwingLowIsMirroredHigh(candles: seq<Candle>, lookback: nat, i: int)
    ensures IsSwingLow(candles, lookback, i) <==> IsSwingHigh(MirrorAll(candles), lookback, i)
  {
    var m := MirrorAll(candles);
    if lookback <= i < |candles| - lookback {
      assert forall j | i - lookback <= j <= i + lookback :: m[j].high == -candles[j].low;
    }
  }

  lemma {:induction false} SwingLowIndicesMirror(candles: seq<Candle>, lookback: nat, m: int)
    ensures SwingLowIndices(candles, lookback, m) == SwingHighIndices(MirrorAll(candles), lookback, m)
    decreases m
  {
    if m > lookback {
      SwingLowIndicesMirror(candles, lookback, m - 1);
      SwingLowIsMirroredHigh(candles, lookback, m - 1);
    }
  }

  /** The swing-low indices are exactly the swing lows below m, in
      chronological order. */
  lemma SwingLowIndicesExact(candles: seq<Candle>, lookback: nat, m: int)
    ensures forall i :: i in SwingLowIndices(candles, lookback, m) <==> i < m && IsSwingLow(candles, lookback, i)
    ensures StrictlyIncreasing(SwingLowIndices(candles, lookback, m))
  {
    SwingLowIndicesMirror(candles, lookback, m);
    SwingHighIndicesExact(MirrorAll(candles), lookback, m);
    SwingHighIndicesOrdered(MirrorAll(candles), lookback, m);
    forall i
      ensures IsSwingLow(candles, lookback, i) <==> IsSwingHigh(MirrorAll(candles), lookback, i)
    {
      SwingLowIsMirroredHigh(candles, lookback, i);
    }
  }

  /** The highs of the bars at `idx`. */
  function HighsAt(candles: seq<Candle>, idx: seq<int>): (r: seq<real>)
    requires forall k | 0 <= k < |idx| :: 0 <= idx[k] < |candles|
    ensures |r| == |idx|
    ensures forall k | 0 <= k < |idx| :: r[k] == candles[idx[k]].high
  {
    seq(|idx|, k requires 0 <= k < |idx| => candles[idx[k]].high)
  }

  function LowsAt(candles: seq<Candle>, idx: seq<int>): (r: seq<real>)
    requires forall k | 0 <= k < |idx| :: 0 <= idx[k] < |candles|
    ensures |r| == |idx|
    ensures forall k | 0 <= k < |idx| :: r[k] == candles[idx[k]].low
  {
    seq(|idx|, k requires 0 <= k < |idx| => candles[idx[k]].low)
  }

  /** The highs of all swing highs, oldest first. */
  function SwingHighs(candles: seq<Candle>, lookback: nat): seq<real>
  {
    HighsAt(candles, SwingHighIndices(candles, lookback, |candles| - lookback))
  }

  /** The lows of all swing lows, oldest first. */
  function SwingLows(candles: seq<Candle>, lookback: nat): seq<real>
  {
    LowsAt(candles, SwingLowIndices(candles, lookback, |candles| - lookback))
  }

  /** findSwingHighs: scans every bar with a full window on either side and
      keeps those whose high no neighbour reaches. */
  method FindSwingHighs(candles: seq<Candle>, lookback: nat) returns (r: seq<real>)
    ensures r == SwingHighs(candles, lookback)
  {
    r := [];
    var i := lookback;
    while i < |candles| - lookback
      invariant lookback <= i
      invariant i <= |candles| - lookback || i == lookback
      invariant r == HighsAt(candles, SwingHighIndices(candles, lookback, i))
    {
      var isSwingHigh := true;
      var j := i - lookback;
      while j <= i + lookback
        invariant i - lookback <= j <= i + lookback + 1
        invariant forall j' | i - lookback <= j' < j && j' != i :: candles[j'].high < candles[i].high
      {
        if j != i && candles[j].high >= candles[i].high {
          isSwingHigh := false;
          break;
        }
        j := j + 1;
      }
      assert isSwingHigh <==> IsSwingHigh(candles, lookback, i);
      ghost var idx := SwingHighIndices(candles, lookback, i);
      if isSwingHigh {
        assert HighsAt(candles, idx + [i]) == HighsAt(candles, idx) + [candles[i].high];
        r := r + [candles[i].high];
      }
      i := i + 1;
    }
  }

  /** findSwingLows: the same scan for lows no neighbour undercuts. */
  method FindSwingLows(candles: seq<Candle>, lookback: nat) returns (r: seq<real>)
    ensures r == SwingLows(candles, lookback)
  {
    r := [];
    var i := lookback;
    while i < |candles| - lookback
      invariant lookback <= i
      invariant i <= |candles| - lookback || i == lookback
      invariant r == LowsAt(candles, SwingLowIndices(candles, lookback, i))
    {
      var isSwingLow := true;
      var j := i - lookback;
      while j <= i + lookback
        invariant i - lookback <= j <= i + lookback + 1
        invariant forall j' | i - lookback <= j' < j && j' != i :: candles[j'].low > candles[i].low
      {
        if j != i && candles[j].low <= candles[i].low {
          isSwingLow := false;
          break;
        }
        j := j + 1;
      }
      assert isSwingLow <==> IsSwingLow(candles, lookback, i);
      ghost var idx := SwingLowIndices(candles, lookback, i);
      if isSwingLow {
        assert LowsAt(candles, idx + [i]) == LowsAt(candles, idx) + [candles[i].low];
        r := r + [candles[i].low];
      }
      i := i + 1;
    }
  }

  /** No other swing high follows a swing high within `lookback` bars: the
      later bar's window contains the earlier one, which is strictly higher. */
  lemma SwingHighsSeparated(candles: seq<Candle>, lookback: nat, a: int, b: int)
    requires IsSwingHigh(candles, lookback, a)
    requires a < b <= a + lookback
    ensures !IsSwingHigh(candles, lookback, b)
  {
    assert candles[b].high < candles[a].high;
  }

  // ---------------------------------------------------------------------
  // Structure

  /** The outcome of comparing the last two swings of one kind. */
  datatype SwingComparison = SwingComparison(higher: bool, lower: bool)

  /** The last swing against the one before: higher when strictly above,
      lower otherwise (an equal pair counts as lower); neither with fewer
      than two swings. */
  function CompareLastTwo(swings: seq<real>): (r: SwingComparison)
    ensures !(r.higher && r.lower)
    ensures |swings| < 2 ==> r == SwingComparison(false, false)
    ensures |swings| >= 2 ==> r.higher != r.lower
    ensures |swings| >= 2 ==> (r.higher <==> swings[|swings| - 1] > swings[|swings| - 2])
  {
    if |swings| >= 2 then
      if swings[|swings| - 1] > swings[|swings| - 2] then SwingComparison(true, false)
      else SwingComparison(false, true)
    else SwingComparison(false, false)
  }

  /** A break of structure: a lower low in a rising market, or a higher high
      in a falling one. */
  function StructureBreak(trend: TrendLabel, highs: SwingComparison, lows: SwingComparison): (b: bool)
    ensures trend == Ranging ==> !b
  {
    (trend == Rising && lows.lower) || (trend == Falling && highs.higher)
  }

  /** calculateRiskLevel: high on a break; low for an intact trend that
      keeps making higher highs and higher lows (rising) or lower highs and
      lower lows (falling); medium otherwise. */
  function CalculateRiskLevel(trend: TrendLabel, hh: bool, hl: bool, lh: bool, ll: bool, structureBreak: bool): (r: RiskLevel)
    ensures r == High <==> structureBreak
    ensures r == Low <==> !structureBreak && ((trend == Rising && hh && hl) || (trend == Falling && lh && ll))
    ensures trend == Ranging ==> r != Low
  {
    if structureBreak then High
    else if trend == Rising then (if hh && hl then Low else Medium)
    else if trend == Falling then (if lh && ll then Low else Medium)
    else Medium
  }

  /** The default for short histories: no swings, no break, medium risk. */
  const DefaultStructure := MarketStructure(false, false, false, Medium,
    ZeroTrendConfirmation, ZeroVolatilityProfile, ZeroKeyLevelConfluence,
    ZeroPatternSignals, ZeroMarketQuality)

  /** The structure read off two swing series: the last two highs and the
      last two lows compared, the break derived against `trend`, and the
      risk level. Only these four fields are set; the enhanced sub-reports
      keep their zero values. */
  function StructureOf(highs: seq<real>, lows: seq<real>, trend: TrendLabel): (r: MarketStructure)
    ensures r.trendConfirmation == ZeroTrendConfirmation && r.volatilityProfile == ZeroVolatilityProfile
    ensures r.keyLevelConfluence == ZeroKeyLevelConfluence && r.patternSignals == ZeroPatternSignals
    ensures r.marketQuality == ZeroMarketQuality
    ensures r.higherHigh <==> |highs| >= 2 && highs[|highs| - 1] > highs[|highs| - 2]
    ensures r.higherLow <==> |lows| >= 2 && lows[|lows| - 1] > lows[|lows| - 2]
    ensures r.structureBreak <==>
      ((trend == Rising && |lows| >= 2 && lows[|lows| - 1] <= lows[|lows| - 2])
       || (trend == Falling && |highs| >= 2 && highs[|highs| - 1] > highs[|highs| - 2]))
    ensures r.riskLevel == High <==> r.structureBreak
    ensures r.riskLevel == Low <==>
      ((trend == Rising && r.higherHigh && r.higherLow)
       || (trend == Falling && |highs| >= 2 && highs[|highs| - 1] <= highs[|highs| - 2]
                            && |lows| >= 2 && lows[|lows| - 1] <= lows[|lows| - 2]))
    ensures trend == Ranging ==> !r.structureBreak && r.riskLevel == Medium
  {
    var h := CompareLastTwo(highs);
    var l := CompareLastTwo(lows);
    var structureBreak := StructureBreak(trend, h, l);
    var risk := CalculateRiskLevel(trend, h.higher, l.higher, h.lower, l.lower, structureBreak);
    MarketStructure(h.higher, l.higher, structureBreak, risk,
      ZeroTrendConfirmation, ZeroVolatilityProfile, ZeroKeyLevelConfluence,
      ZeroPatternSignals, ZeroMarketQuality)
  }

  /** AnalyzeStructure: the neutral default below 20 candles; otherwise the
      structure of the swing highs and lows found with a 5-bar look-back. */
  function AnalyzeStructure(candles: seq<Candle>, trend: TrendLabel): (r: MarketStructure)
    ensures |candles| < MinCandles ==> r == DefaultStructure
    ensures r.trendConfirmation == ZeroTrendConfirmation && r.volatilityProfile == ZeroVolatilityProfile
    ensures r.keyLevelConfluence == ZeroKeyLevelConfluence && r.patternSignals == ZeroPatternSignals
    ensures r.marketQuality == ZeroMarketQuality
    ensures r.riskLevel == High <==> r.structureBreak
    ensures trend == Ranging ==> !r.structureBreak && r.riskLevel == Medium
    ensures |candles| >= MinCandles ==>
      r.higherHigh == CompareLastTwo(SwingHighs(candles, SwingLookback)).higher
    ensures |candles| >= MinCandles ==>
      r.higherLow == CompareLastTwo(SwingLows(candles, SwingLookback)).higher
  {
    if |candles| < MinCandles then DefaultStructure
    else StructureOf(SwingHighs(candles, SwingLookback), SwingLows(candles, SwingLookback), trend)
  }

  // ---------------------------------------------------------------------
  // Symmetry

  function Negate(s: seq<real>): (r: seq<real>)
    ensures |r| == |s|
    ensures forall k | 0 <= k < |s| :: r[k] == -s[k]
  {
    seq(|s|, k requires 0 <= k < |s| => -s[k])
  }

  /** Reading the mirror's highs at some bars gives the negated lows there,
      and the other way round. */
  lemma PricesAtMirror(candles: seq<Candle>, idx: seq<int>)
    requires forall k | 0 <= k < |idx| :: 0 <= idx[k] < |candles|
    ensures HighsAt(MirrorAll(candles), idx) == Negate(LowsAt(candles, idx))
    ensures LowsAt(MirrorAll(candles), idx) == Negate(HighsAt(candles, idx))
  {
  }

  /** The swing highs of the price mirror are the negated swing lows. */
  lemma SwingHighsOfMirror(candles: seq<Candle>, lookback: nat)
    ensures SwingHighs(MirrorAll(candles), lookback) == Negate(SwingLows(candles, lookback))
  {
    var n := |candles| - lookback;
    SwingLowIndicesMirror(candles, lookback, n);
    PricesAtMirror(candles, SwingLowIndices(candles, lookback, n));
  }

  /** The swing lows of the price mirror are the negated swing highs. */
  lemma SwingLowsOfMirror(candles: seq<Candle>, lookback: nat)
    ensures SwingLows(MirrorAll(candles), lookback) == Negate(SwingHighs(candles, lookback))
  {
    var m := MirrorAll(candles);
    var n := |candles| - lookback;
    assert MirrorAll(m) == candles by {
      forall k | 0 <= k < |candles|
        ensures MirrorAll(m)[k] == candles[k]
      {
        MirrorInvolution(candles[k], Rising);
      }
    }
    SwingLowIndicesMirror(m, lookback, n);
    PricesAtMirror(candles, SwingHighIndices(candles, lookback, n));
  }

  /** With highs and lows swapped and the trend flipped, the break and the
      risk level come out the same, provided the last two swings of each
      kind differ (an equal pair reads "lower" both ways). */
  lemma StructureOfMirror(highs: seq<real>, lows: seq<real>, trend: TrendLabel)
    requires |highs| >= 2 ==> highs[|highs| - 1] != highs[|highs| - 2]
    requires |lows| >= 2 ==> lows[|lows| - 1] != lows[|lows| - 2]
    ensures StructureOf(Negate(lows), Negate(highs), FlipTrend(trend)).structureBreak
         == StructureOf(highs, lows, trend).structureBreak
    ensures StructureOf(Negate(lows), Negate(highs), FlipTrend(trend)).riskLevel
         == StructureOf(highs, lows, trend).riskLevel
  {
  }

  /** Mirroring the market and its trend preserves the structure break and
      the risk level, when the last two swings of each kind differ. */
  lemma AnalyzeStructureMirror(candles: seq<Candle>, trend: TrendLabel)
    requires var h := SwingHighs(candles, SwingLookback);
      |h| >= 2 ==> h[|h| - 1] != h[|h| - 2]
    requires var l := SwingLows(candles, SwingLookback);
      |l| >= 2 ==> l[|l| - 1] != l[|l| - 2]
    ensures AnalyzeStructure(MirrorAll(candles), FlipTrend(trend)).structureBreak
         == AnalyzeStructure(candles, trend).structureBreak
    ensures AnalyzeStructure(MirrorAll(candles), FlipTrend(trend)).riskLevel
         == AnalyzeStructure(candles, trend).riskLevel
  {
    if |candles| >= MinCandles {
      var h, l := SwingHighs(candles, SwingLookback), SwingLows(candles, SwingLookback);
      var mirrored := AnalyzeStructure(MirrorAll(candles), FlipTrend(trend));
      assert mirrored == StructureOf(Negate(l), Negate(h), FlipTrend(trend)) by {
        AnalyzeMirrored(candles, trend);
      }
      assert AnalyzeStructure(candles, trend) == StructureOf(h, l, trend);
      StructureOfMirror(h, l, trend);
    }
  }

  lemma AnalyzeMirrored(candles: seq<Candle>, trend: TrendLabel)
    requires |candles| >= MinCandles
    ensures AnalyzeStructure(MirrorAll(candles), FlipTrend(trend))
         == StructureOf(Negate(SwingLows(candles, SwingLookback)), Negate(SwingHighs(candles, SwingLookback)), FlipTrend(trend))
  {
    SwingHighsOfMirror(candles, SwingLookback);
    SwingLowsOfMirror(candles, SwingLookback);
  }

  /** An intact uptrend (a higher low) never reports a break, and neither
      does an intact downtrend (a lower high). */
  lemma IntactTrendNoBreak(highs: seq<real>, lows: seq<real>, trend: TrendLabel)
    ensures var r := StructureOf(highs, lows, trend);
      trend == Rising && r.higherLow ==> !r.structureBreak && r.riskLevel != High
    ensures var r := StructureOf(highs, lows, trend);
      trend == Falling && |highs| >= 2 && highs[|highs| - 1] <= highs[|highs| - 2] ==> !r.structureBreak
  {
  }
}
