/** The KDJ stochastic oscillator over a 9-bar window: the raw stochastic
    value RSV = (close - low9) / (high9 - low9) * 100 (0 on a flat window),
    K and D its 3-period smoothings, and J = 3K - 2D. */
module Kdj {
  import opened Common
  import opened Model

  const Period := 9
  const SmoothK := 3
  const SmoothD := 3

  /** Lowest low and highest high of the 9 bars ending at index i. */
  function WindowLow(candles: seq<Candle>, i: int): real
    requires Period - 1 <= i < |candles|
  {
    SeqMin(Lows(candles[i - Period + 1..i + 1]))
  }

  function WindowHigh(candles: seq<Candle>, i: int): real
    requires Period - 1 <= i < |candles|
  {
    SeqMax(Highs(candles[i - Period + 1..i + 1]))
  }

  /** Where `close` sits in [lo, hi], as a percentage; 0 when the range is flat. */
  function Stochastic(close: real, lo: real, hi: real): real
  {
    if hi != lo then (close - lo) / (hi - lo) * 100.0 else 0.0
  }

  /** The raw stochastic value of bar i within its 9-bar window. */
  function Rsv(candles: seq<Candle>, i: int): real
    requires Period - 1 <= i < |candles|
  {
    Stochastic(candles[i].close, WindowLow(candles, i), WindowHigh(candles, i))
  }

  /** With well-formed bars the close lies inside the window, so RSV is a
      percentage. */
  lemma RsvInRange(candles: seq<Candle>, i: int)
    requires Period - 1 <= i < |candles|
    requires WellFormed(candles[i])
    ensures 0.0 <= Rsv(candles, i) <= 100.0
  {
    var w := candles[i - Period + 1..i + 1];
    var low9, high9 := WindowLow(candles, i), WindowHigh(candles, i);
    assert w[Period - 1] == candles[i];
    assert low9 <= candles[i].low && candles[i].high <= high9;
    if high9 != low9 {
      FractionInUnit(candles[i].close - low9, high9 - low9);
    }
  }

  /** The mirrored market's RSV is the complement of the original's. */
  lemma RsvMirror(candles: seq<Candle>, i: int)
    requires Period - 1 <= i < |candles|
    requires WindowHigh(candles, i) != WindowLow(candles, i)
    ensures Rsv(MirrorAll(candles), i) == 100.0 - Rsv(candles, i)
  {
    RsvOfMirror(candles, i);
    StochasticMirror(candles[i].close, WindowLow(candles, i), WindowHigh(candles, i));
  }

  lemma RsvOfMirror(candles: seq<Candle>, i: int)
    requires Period - 1 <= i < |candles|
    ensures Rsv(MirrorAll(candles), i)
         == Stochastic(-candles[i].close, -WindowHigh(candles, i), -WindowLow(candles, i))
  {
    MirrorWindow(candles, i);
  }

  /** The mirrored window's low is the negated high, and vice versa. */
  lemma MirrorWindow(candles: seq<Candle>, i: int)
    requires Period - 1 <= i < |candles|
    ensures WindowLow(MirrorAll(candles), i) == -WindowHigh(candles, i)
    ensures WindowHigh(MirrorAll(candles), i) == -WindowLow(candles, i)
  {
    var m := MirrorAll(candles);
    var w, mw := candles[i - Period + 1..i + 1], m[i - Period + 1..i + 1];
    var lw, hw, lm, hm := Lows(w), Highs(w), Lows(mw), Highs(mw);
    forall k | 0 <= k < Period
      ensures hm[k] == -lw[k] && lm[k] == -hw[k]
    {
      assert mw[k] == m[i - Period + 1 + k] == Mirror(w[k]);
    }
    NegatedExtrema(lw, hm);
    NegatedExtrema(hw, lm);
  }

  lemma StochasticMirror(c: real, lo: real, hi: real)
    requires hi != lo
    ensures Stochastic(-c, -hi, -lo) == 100.0 - Stochastic(c, lo, hi)
  {
    var d := hi - lo;
    DivSum(c - lo, hi - c, d);
    assert (c - lo) + (hi - c) == d;
    assert d / d == 1.0;
  }

  lemma NegatedExtrema(s: seq<real>, t: seq<real>)
    requires |s| == |t| > 0
    requires forall k | 0 <= k < |s| :: t[k] == -s[k]
    ensures SeqMin(t) == -SeqMax(s) && SeqMax(t) == -SeqMin(s)
  {
    var mx, mn := SeqMax(s), SeqMin(s);
    SeqMaxIn(s);
    SeqMinIn(s);
    var a :| 0 <= a < |s| && s[a] == mx;
    var b :| 0 <= b < |s| && s[b] == mn;
    assert t[a] == -mx && t[b] == -mn;
  }

  /** CalculateKDJ: zero below 9 bars; otherwise K and D are both taken as
      the current RSV and J = 3K - 2D, then K, D are clamped to [0, 100]
      and J to [-20, 120]. */
  function CalculateKDJ(candles: seq<Candle>): (r: KDJIndicator)
    ensures |candles| < Period ==> r == KDJIndicator(0.0, 0.0, 0.0)
    ensures 0.0 <= r.k <= 100.0 && 0.0 <= r.d <= 100.0 && -20.0 <= r.j <= 120.0
    ensures |candles| >= Period ==> r.k == r.d == Clamp(Rsv(candles, |candles| - 1), 0.0, 100.0)
    ensures |candles| >= Period ==> r.j == Clamp(Rsv(candles, |candles| - 1), -20.0, 120.0)
  {
    if |candles| < Period then KDJIndicator(0.0, 0.0, 0.0)
    else
      var rsv := Rsv(candles, |candles| - 1);
      var k := rsv;
      var d := rsv;
      var j := 3.0 * k - 2.0 * d;
      KDJIndicator(Clamp(k, 0.0, 100.0), Clamp(d, 0.0, 100.0), Clamp(j, -20.0, 120.0))
  }

  /** With a well-formed last bar the clamps never bite: K = D = J = RSV. */
  lemma CalculateKDJClampInert(candles: seq<Candle>)
    requires |candles| >= Period
    requires WellFormed(candles[|candles| - 1])
    ensures var r := CalculateKDJ(candles);
      r.k == r.d == r.j == Rsv(candles, |candles| - 1)
  {
    RsvInRange(candles, |candles| - 1);
  }

  /** `sma`: the mean of every window of `p` consecutive values. */
  function Sma(data: seq<real>, p: int): (r: seq<real>)
    requires p >= 1
    ensures |r| == if |data| >= p then |data| - p + 1 else 0
    ensures forall i | 0 <= i < |r| :: r[i] == Mean(data[i..i + p])
  {
    if |data| < p then []
    else seq(|data| - p + 1, i requires 0 <= i < |data| - p + 1 => Mean(data[i..i + p]))
  }

  /** Smoothing preserves any common bounds of the data. */
  lemma SmaWithin(data: seq<real>, p: int, lo: real, hi: real)
    requires p >= 1
    requires forall i | 0 <= i < |data| :: lo <= data[i] <= hi
    ensures forall i | 0 <= i < |Sma(data, p)| :: lo <= Sma(data, p)[i] <= hi
  {
    var r := Sma(data, p);
    forall i | 0 <= i < |r|
      ensures lo <= r[i] <= hi
    {
      MeanBounds(data[i..i + p], lo, hi);
    }
  }

  function RsvSeries(candles: seq<Candle>): (r: seq<real>)
    requires |candles| >= Period
    ensures |r| == |candles| - Period + 1
    ensures forall i | 0 <= i < |r| :: r[i] == Rsv(candles, i + Period - 1)
  {
    seq(|candles| - Period + 1, i requires 0 <= i < |candles| - Period + 1 => Rsv(candles, i + Period - 1))
  }

  /** The K series: the 3-period smoothing of the RSV series. */
  function KSeries(candles: seq<Candle>): (r: seq<real>)
    requires |candles| >= Period
    ensures |r| == if |candles| >= Period + SmoothK - 1 then |candles| - Period - SmoothK + 2 else 0
  {
    Sma(RsvSeries(candles), SmoothK)
  }

  /** CalculateKDJWithHistory: K is the last entry of the K series, D the
      mean of its last three entries and J = 3K - 2D; zero below 9 bars.
      With 9 or 10 bars the K series is empty, with 11 or 12 the D series,
      and the source indexes past the end, so those lengths are excluded. */
  function CalculateKDJWithHistory(candles: seq<Candle>): (r: KDJIndicator)
    requires |candles| < Period || |candles| >= Period + SmoothK + SmoothD - 2
    ensures |candles| < Period ==> r == KDJIndicator(0.0, 0.0, 0.0)
    ensures |candles| >= Period ==>
      var ks := KSeries(candles);
      && r.k == Mean(RsvSeries(candles)[|RsvSeries(candles)| - SmoothK..])
      && r.d == Mean(ks[|ks| - SmoothD..])
      && r.j == 3.0 * r.k - 2.0 * r.d
  {
    if |candles| < Period then KDJIndicator(0.0, 0.0, 0.0)
    else
      var rsv := RsvSeries(candles);
      var kValues := KSeries(candles);
      var dValues := Sma(kValues, SmoothD);
      var k := kValues[|kValues| - 1];
      var d := dValues[|dValues| - 1];
      assert k == Mean(rsv[|rsv| - SmoothK..]) by {
        assert rsv[|kValues| - 1..|kValues| - 1 + SmoothK] == rsv[|rsv| - SmoothK..];
      }
      assert d == Mean(kValues[|kValues| - SmoothD..]) by {
        assert kValues[|dValues| - 1..|dValues| - 1 + SmoothD] == kValues[|kValues| - SmoothD..];
      }
      KDJIndicator(k, d, 3.0 * k - 2.0 * d)
  }

  /** With well-formed bars K and D of the smoothed version are percentages. */
  lemma KDJWithHistoryInRange(candles: seq<Candle>)
    requires |candles| >= Period + SmoothK + SmoothD - 2
    requires forall i | 0 <= i < |candles| :: WellFormed(candles[i])
    ensures var r := CalculateKDJWithHistory(candles);
      0.0 <= r.k <= 100.0 && 0.0 <= r.d <= 100.0 && -200.0 <= r.j <= 300.0
  {
    var rsv := RsvSeries(candles);
    forall i | 0 <= i < |rsv|
      ensures 0.0 <= rsv[i] <= 100.0
    {
      RsvInRange(candles, i + Period - 1);
    }
    SmaWithin(rsv, SmoothK, 0.0, 100.0);
    var kValues := KSeries(candles);
    SmaWithin(kValues, SmoothD, 0.0, 100.0);
  }
}
