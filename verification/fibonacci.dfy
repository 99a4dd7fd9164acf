/** Fibonacci retracement and extension levels between a swing high and a
    swing low. In an uptrend the retracements are measured down from the
    high and the extensions up from the low; in a downtrend the other way
    round. */
module Fibonacci {
  import opened Common
  import opened Model

  /** The ratio of each retracement key: 0, 0.236, 0.382, 0.5, 0.618, 0.786, 1. */
  function RetracementRatio(l: RetracementLabel): (r: real)
    ensures 0.0 <= r <= 1.0
  {
    match l
    case R0 => 0.0
    case R236 => 0.236
    case R382 => 0.382
    case R50 => 0.5
    case R618 => 0.618
    case R786 => 0.786
    case R100 => 1.0
  }

  /** The ratio of each extension key: 1.272, 1.618, 2, 2.618. */
  function ExtensionRatio(l: ExtensionLabel): (r: real)
    ensures r > 1.0
  {
    match l
    case E1272 => 1.272
    case E1618 => 1.618
    case E2 => 2.0
    case E2618 => 2.618
  }

  const RetracementLabels: seq<RetracementLabel> := [R0, R236, R382, R50, R618, R786, R100]
  const ExtensionLabels: seq<ExtensionLabel> := [E1272, E1618, E2, E2618]

  /** The key lists name every key. */
  lemma LabelsComplete()
    ensures forall l: RetracementLabel :: l in RetracementLabels
    ensures forall l: ExtensionLabel :: l in ExtensionLabels
  {
    forall l: RetracementLabel
      ensures l in RetracementLabels
    {
      match l
      case R0 => assert RetracementLabels[0] == l;
      case R236 => assert RetracementLabels[1] == l;
      case R382 => assert RetracementLabels[2] == l;
      case R50 => assert RetracementLabels[3] == l;
      case R618 => assert RetracementLabels[4] == l;
      case R786 => assert RetracementLabels[5] == l;
      case R100 => assert RetracementLabels[6] == l;
    }
    forall l: ExtensionLabel
      ensures l in ExtensionLabels
    {
      match l
      case E1272 => assert ExtensionLabels[0] == l;
      case E1618 => assert ExtensionLabels[1] == l;
      case E2 => assert ExtensionLabels[2] == l;
      case E2618 => assert ExtensionLabels[3] == l;
    }
  }

  /** The retracement level of key `l`: its ratio of the span measured down
      from the high in an uptrend, up from the low in a downtrend. */
  function RetracementLevel(high: real, low: real, isUptrend: bool, l: RetracementLabel): real
  {
    if isUptrend then high - (high - low) * RetracementRatio(l) else low + (high - low) * RetracementRatio(l)
  }

  /** The extension level of key `l`: up from the low in an uptrend, down
      from the high in a downtrend. */
  function ExtensionLevel(high: real, low: real, isUptrend: bool, l: ExtensionLabel): real
  {
    if isUptrend then low + (high - low) * ExtensionRatio(l) else high - (high - low) * ExtensionRatio(l)
  }

  /** CalculateFibonacciLevels: both tables hold every key, each at its
      level; the 0% key sits at the end the direction measures from and the
      100% key at the other end. */
  function CalculateFibonacciLevels(high: real, low: real, isUptrend: bool): (f: FibonacciLevels)
    ensures f.high == high && f.low == low
    ensures f.direction == (if isUptrend then Uptrend else Downtrend)
    ensures forall l: RetracementLabel :: l in f.retracement && f.retracement[l] == RetracementLevel(high, low, isUptrend, l)
    ensures forall l: ExtensionLabel :: l in f.extension && f.extension[l] == ExtensionLevel(high, low, isUptrend, l)
    ensures isUptrend ==> f.retracement[R0] == high && f.retracement[R100] == low
    ensures !isUptrend ==> f.retracement[R0] == low && f.retracement[R100] == high
  {
    var retracement := map l: RetracementLabel :: RetracementLevel(high, low, isUptrend, l);
    var extension := map l: ExtensionLabel :: ExtensionLevel(high, low, isUptrend, l);
    FibonacciLevels(high, low, retracement, extension, if isUptrend then Uptrend else Downtrend)
  }

  /** With high >= low every retracement lies between low and high, the
      uptrend extensions lie at or above the high and the downtrend ones at
      or below the low. */
  lemma LevelsPlacement(high: real, low: real, isUptrend: bool)
    requires high >= low
    ensures var f := CalculateFibonacciLevels(high, low, isUptrend);
      forall l: RetracementLabel :: low <= f.retracement[l] <= high
    ensures var f := CalculateFibonacciLevels(high, low, isUptrend);
      forall l: ExtensionLabel :: if isUptrend then f.extension[l] >= high else f.extension[l] <= low
  {
    var f := CalculateFibonacciLevels(high, low, isUptrend);
    var diff := high - low;
    forall l: RetracementLabel
      ensures low <= f.retracement[l] <= high
    {
      var r := RetracementRatio(l);
      MulNonNegative(diff, r);
      MulNonNegative(diff, 1.0 - r);
    }
    forall l: ExtensionLabel
      ensures if isUptrend then f.extension[l] >= high else f.extension[l] <= low
    {
      MulNonNegative(diff, ExtensionRatio(l) - 1.0);
    }
  }

  /** The uptrend and downtrend tables are reflections of each other about
      the midpoint of the swing. */
  lemma DirectionsReflect(high: real, low: real)
    ensures var up, down := CalculateFibonacciLevels(high, low, true), CalculateFibonacciLevels(high, low, false);
      && (forall l: RetracementLabel :: up.retracement[l] + down.retracement[l] == high + low)
      && (forall l: ExtensionLabel :: up.extension[l] + down.extension[l] == high + low)
  {
  }

  /** Along the key order the uptrend retracements descend from the high. */
  lemma UptrendRetracementsDescend(high: real, low: real)
    requires high >= low
    ensures var f := CalculateFibonacciLevels(high, low, true);
      forall i, j | 0 <= i < j < |RetracementLabels| ::
        f.retracement[RetracementLabels[i]] >= f.retracement[RetracementLabels[j]]
  {
    var f := CalculateFibonacciLevels(high, low, true);
    forall i, j | 0 <= i < j < |RetracementLabels|
      ensures f.retracement[RetracementLabels[i]] >= f.retracement[RetracementLabels[j]]
    {
      var ri, rj := RetracementRatio(RetracementLabels[i]), RetracementRatio(RetracementLabels[j]);
      assert ri <= rj;
      MulNonNegative(high - low, rj - ri);
    }
  }

  /** For a swing with high >= low the key levels are the computed levels
      of their keys, ordered away from the end the direction measures from:
      the uptrend retracements fall and extensions rise, the downtrend
      retracements rise and extensions fall. */
  lemma KeyLevelsOrdered(high: real, low: real, isUptrend: bool)
    requires high >= low
    ensures var f := CalculateFibonacciLevels(high, low, isUptrend);
      var rs, es := GetKeyRetracementLevels(f), GetKeyExtensionLevels(f);
      && rs == [RetracementLevel(high, low, isUptrend, R382), RetracementLevel(high, low, isUptrend, R50),
                RetracementLevel(high, low, isUptrend, R618)]
      && es == [ExtensionLevel(high, low, isUptrend, E1272), ExtensionLevel(high, low, isUptrend, E1618),
                ExtensionLevel(high, low, isUptrend, E2)]
      && (isUptrend ==> rs[0] >= rs[1] >= rs[2] && es[0] <= es[1] <= es[2])
      && (!isUptrend ==> rs[0] <= rs[1] <= rs[2] && es[0] >= es[1] >= es[2])
  {
  }

  /** A map lookup that yields 0 for a missing key, as a Go map does. */
  function Lookup<K>(m: map<K, real>, k: K): (v: real)
    ensures k in m ==> v == m[k]
    ensures k !in m ==> v == 0.0
  {
    if k in m then m[k] else 0.0
  }

  /** GetKeyRetracementLevels: the 38.2%, 50% and 61.8% levels. */
  function GetKeyRetracementLevels(f: FibonacciLevels): (r: seq<real>)
    ensures |r| == 3
    ensures r[0] == Lookup(f.retracement, R382)
    ensures r[1] == Lookup(f.retracement, R50)
    ensures r[2] == Lookup(f.retracement, R618)
  {
    [Lookup(f.retracement, R382), Lookup(f.retracement, R50), Lookup(f.retracement, R618)]
  }

  /** GetKeyExtensionLevels: the 1.272, 1.618 and 2.0 levels. */
  function GetKeyExtensionLevels(f: FibonacciLevels): (r: seq<real>)
    ensures |r| == 3
    ensures r[0] == Lookup(f.extension, E1272)
    ensures r[1] == Lookup(f.extension, E1618)
    ensures r[2] == Lookup(f.extension, E2)
  {
    [Lookup(f.extension, E1272), Lookup(f.extension, E1618), Lookup(f.extension, E2)]
  }

  /** The window the swing search looks at: the last `lookback` candles, or
      all of them when there are fewer. */
  function WindowStart(n: int, lookback: int): int
  {
    if n < lookback then 0 else n - lookback
  }

  /** The swing of the window [start, |candles|): `high` is its highest high
      and `highIndex` the first bar reaching it; `low` its lowest low and
      `lowIndex` the first bar reaching it. */
  ghost predicate IsSwing(candles: seq<Candle>, start: int, high: real, low: real, highIndex: int, lowIndex: int)
  {
    && 0 <= start <= highIndex < |candles| && start <= lowIndex < |candles|
    && high == candles[highIndex].high && low == candles[lowIndex].low
    && (forall i | start <= i < |candles| :: candles[i].high <= high && candles[i].low >= low)
    && (forall i | start <= i < highIndex :: candles[i].high < high)
    && (forall i | start <= i < lowIndex :: candles[i].low > low)
  }

  /** A window has exactly one swing. */
  lemma SwingUnique(candles: seq<Candle>, start: int, h: real, l: real, hi: int, li: int,
                    h': real, l': real, hi': int, li': int)
    requires IsSwing(candles, start, h, l, hi, li) && IsSwing(candles, start, h', l', hi', li')
    ensures h == h' && l == l' && hi == hi' && li == li'
  {
  }

  /** FindSwingHighLow: the swing of the last `lookback` candles (all of
      them when there are fewer). Later bars equal to the extreme do not
      replace it. The source indexes past the slice for an empty input or a
      lookback below 1. */
  method FindSwingHighLow(candles: seq<Candle>, lookback: int) returns (high: real, low: real, highIndex: int, lowIndex: int)
    requires |candles| >= 1 && lookback >= 1
    ensures IsSwing(candles, WindowStart(|candles|, lookback), high, low, highIndex, lowIndex)
  {
    var start := WindowStart(|candles|, lookback);
    high, low := candles[start].high, candles[start].low;
    highIndex, lowIndex := start, start;
    var i := start;
    while i < |candles|
      invariant start <= i <= |candles|
      invariant start <= highIndex < |candles| && start <= lowIndex < |candles|
      invariant high == candles[highIndex].high && low == candles[lowIndex].low
      invariant forall k | start <= k < i :: candles[k].high <= high && candles[k].low >= low
      invariant forall k | start <= k < highIndex :: candles[k].high < high
      invariant forall k | start <= k < lowIndex :: candles[k].low > low
    {
      if candles[i].high > high {
        high, highIndex := candles[i].high, i;
      }
      if candles[i].low < low {
        low, lowIndex := candles[i].low, i;
      }
      i := i + 1;
    }
  }

  /** CalculateFibonacciFromCandles: nothing below two candles; otherwise
      the levels of the window's swing, an uptrend exactly when the swing
      low came before the swing high. */
  method CalculateFibonacciFromCandles(candles: seq<Candle>, lookback: int) returns (r: Option<FibonacciLevels>)
    requires |candles| < 2 || lookback >= 1
    ensures |candles| < 2 <==> r == None
    ensures r.Some? ==>
      && r.value == CalculateFibonacciLevels(r.value.high, r.value.low, r.value.direction == Uptrend)
      && exists hi, li :: IsSwing(candles, WindowStart(|candles|, lookback), r.value.high, r.value.low, hi, li)
                          && (r.value.direction == Uptrend <==> li < hi)
  {
    if |candles| < 2 {
      return None;
    }
    var high, low, highIndex, lowIndex := FindSwingHighLow(candles, lookback);
    r := Some(CalculateFibonacciLevels(high, low, lowIndex < highIndex));
  }

  /** Where the price sits within `threshold` of a level, relative to the
      level. For a zero level the source's float division gives +Inf or
      NaN, neither of which is below a finite threshold. */
  predicate NearLevel(price: real, level: real, threshold: real)
  {
    level != 0.0 && Abs(price - level) / level < threshold
  }

  /** Which table a matched level came from, with its key. */
  datatype FibLevelKey = RetracementKey(r: RetracementLabel) | ExtensionKey(e: ExtensionLabel)

  /** The first key of `keys` whose level in `m` is near the price. */
  function FirstNear<K>(keys: seq<K>, m: map<K, real>, price: real, threshold: real): (r: Option<K>)
    ensures r.Some? <==> exists i | 0 <= i < |keys| :: keys[i] in m && NearLevel(price, m[keys[i]], threshold)
    ensures r.Some? ==> r.value in m && NearLevel(price, m[r.value], threshold)
    ensures r.None? ==> forall k | k in keys && k in m :: !NearLevel(price, m[k], threshold)
    decreases |keys|
  {
    if |keys| == 0 then None
    else if keys[0] in m && NearLevel(price, m[keys[0]], threshold) then Some(keys[0])
    else
      var rest := FirstNear(keys[1..], m, price, threshold);
      assert forall i | 1 <= i < |keys| :: keys[i] == keys[1..][i - 1];
      rest
  }

  /** IsNearLevel: whether the price is near some retracement or extension
      level, with the key of one such level. Retracements are tried first;
      which of several near levels is named is left to map order in the
      source, and here is the first in key order. */
  function IsNearLevel(f: FibonacciLevels, price: real, threshold: real): (r: Option<FibLevelKey>)
    ensures r.Some? <==>
      (exists l: RetracementLabel | l in f.retracement :: NearLevel(price, f.retracement[l], threshold))
      || (exists l: ExtensionLabel | l in f.extension :: NearLevel(price, f.extension[l], threshold))
    ensures r.Some? && r.value.RetracementKey? ==>
      r.value.r in f.retracement && NearLevel(price, f.retracement[r.value.r], threshold)
    ensures r.Some? && r.value.ExtensionKey? ==>
      r.value.e in f.extension && NearLevel(price, f.extension[r.value.e], threshold)
    ensures r.Some? && r.value.ExtensionKey? ==>
      forall l: RetracementLabel | l in f.retracement :: !NearLevel(price, f.retracement[l], threshold)
  {
    LabelsComplete();
    match FirstNear(RetracementLabels, f.retracement, price, threshold)
    case Some(l) => Some(RetracementKey(l))
    case None =>
      match FirstNear(ExtensionLabels, f.extension, price, threshold)
      case Some(l) => Some(ExtensionKey(l))
      case None => None
  }

  /** At the level itself the price is near it for every positive threshold,
      provided the level is not zero. */
  lemma NearOwnLevel(f: FibonacciLevels, l: RetracementLabel, threshold: real)
    requires l in f.retracement && f.retracement[l] != 0.0 && threshold > 0.0
    ensures IsNearLevel(f, f.retracement[l], threshold).Some?
  {
  }
}
