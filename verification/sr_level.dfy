/** Support and resistance levels by clustering prices.

    The plain version sorts the highs and lows of the lookback window,
    splits them into runs whose neighbours are at most 2% of the overall
    span apart, keeps runs of two or more as clusters (price = run mean,
    strength = run share of all prices), takes the five strongest, and
    splits them at the last close into resistance (above) and support.

    The volume-weighted version anchors each run at its first price and
    extends it while prices stay within half the last bar's range of the
    anchor; strength is the run's total volume / 10000, capped at 1, and a
    0.1% band around the last close is neither support nor resistance. */
module SupportResistance {
  import opened Common
  import opened Model
  import opened Sorting

  /** `PriceCluster`: a cluster's mean price, its strength and its size. */
  datatype PriceCluster = PriceCluster(price: real, strength: real, count: int)

  // ---------------------------------------------------------------------
  // Runs of sorted prices

  function Concat<T>(rs: seq<seq<T>>): seq<T>
  {
    if |rs| == 0 then [] else Concat(rs[..|rs| - 1]) + rs[|rs| - 1]
  }

  lemma ConcatAppend<T>(rs: seq<seq<T>>, r: seq<T>)
    ensures Concat(rs + [r]) == Concat(rs) + r
  {
    assert (rs + [r])[..|rs|] == rs;
  }

  lemma {:induction false} ConcatPrepend<T>(r: seq<T>, rs: seq<seq<T>>)
    ensures Concat([r] + rs) == r + Concat(rs)
    decreases |rs|
  {
    if |rs| == 0 {
      assert [r] + rs == [] + [r];
      ConcatAppend([], r);
    } else {
      var init := rs[..|rs| - 1];
      assert [r] + rs == ([r] + init) + [rs[|rs| - 1]];
      assert rs == init + [rs[|rs| - 1]];
      ConcatAppend([r] + init, rs[|rs| - 1]);
      ConcatAppend(init, rs[|rs| - 1]);
      ConcatPrepend(r, init);
    }
  }

  /** Every member of every part appears in the concatenation. */
  lemma {:induction false} ConcatContains<T>(rs: seq<seq<T>>, k: int, x: T)
    requires 0 <= k < |rs| && x in rs[k]
    ensures x in Concat(rs)
    ensures |rs[k]| <= |Concat(rs)|
    decreases |rs|
  {
    if k < |rs| - 1 {
      ConcatContains(rs[..|rs| - 1], k, x);
    }
  }

  /** `rs` splits `s` into maximal runs in which each price is within `t` of
      the one before: consecutive members of a run are at most `t` apart,
      and the last of one run and the first of the next more than `t`. */
  ghost predicate IsRunsOf(rs: seq<seq<real>>, s: seq<real>, t: real)
  {
    && |rs| >= 1
    && (forall k | 0 <= k < |rs| :: |rs[k]| >= 1)
    && Concat(rs) == s
    && (forall k, j | 0 <= k < |rs| && 1 <= j < |rs[k]| :: rs[k][j] - rs[k][j - 1] <= t)
    && (forall k | 0 <= k < |rs| - 1 :: rs[k + 1][0] - rs[k][|rs[k]| - 1] > t)
  }

  /** The runs of a sequence, built left to right as the source's loop does. */
  function Runs(s: seq<real>, t: real): (rs: seq<seq<real>>)
    requires |s| >= 1
    ensures IsRunsOf(rs, s, t)
    decreases |s|
  {
    if |s| == 1 then
      assert Concat([s]) == s by { ConcatAppend([], s); }
      [s]
    else
      var rs := Runs(s[..|s| - 1], t);
      var m := |rs|;
      if s[|s| - 1] - s[|s| - 2] <= t then
        ExtendLastRun(rs, s, t);
        rs[..m - 1] + [rs[m - 1] + [s[|s| - 1]]]
      else
        StartNewRun(rs, s, t);
        rs + [[s[|s| - 1]]]
  }

  lemma LastOfLastRun(rs: seq<seq<real>>, s: seq<real>, t: real)
    requires |s| >= 2 && IsRunsOf(rs, s[..|s| - 1], t)
    ensures rs[|rs| - 1][|rs[|rs| - 1]| - 1] == s[|s| - 2]
  {
    var m := |rs|;
    assert rs == rs[..m - 1] + [rs[m - 1]];
    ConcatAppend(rs[..m - 1], rs[m - 1]);
  }

  lemma ExtendLastRun(rs: seq<seq<real>>, s: seq<real>, t: real)
    requires |s| >= 2 && IsRunsOf(rs, s[..|s| - 1], t)
    requires s[|s| - 1] - s[|s| - 2] <= t
    ensures IsRunsOf(rs[..|rs| - 1] + [rs[|rs| - 1] + [s[|s| - 1]]], s, t)
  {
    var m := |rs|;
    var x, last := s[|s| - 1], rs[m - 1];
    var rs' := rs[..m - 1] + [last + [x]];
    LastOfLastRun(rs, s, t);
    assert rs == rs[..m - 1] + [last];
    ConcatAppend(rs[..m - 1], last + [x]);
    ConcatAppend(rs[..m - 1], last);
    assert s == s[..|s| - 1] + [x];
    assert Concat(rs') == s;
    forall k, j | 0 <= k < m && 1 <= j < |rs'[k]|
      ensures rs'[k][j] - rs'[k][j - 1] <= t
    {
      if k < m - 1 {
        assert rs'[k] == rs[k];
      } else if j < |last| {
        assert rs'[k][j] == last[j] && rs'[k][j - 1] == last[j - 1];
      }
    }
    forall k | 0 <= k < m - 1
      ensures rs'[k + 1][0] - rs'[k][|rs'[k]| - 1] > t
    {
      assert rs'[k] == rs[k];
      assert rs'[k + 1][0] == rs[k + 1][0];
    }
  }

  lemma StartNewRun(rs: seq<seq<real>>, s: seq<real>, t: real)
    requires |s| >= 2 && IsRunsOf(rs, s[..|s| - 1], t)
    requires s[|s| - 1] - s[|s| - 2] > t
    ensures IsRunsOf(rs + [[s[|s| - 1]]], s, t)
  {
    var x := s[|s| - 1];
    var rs' := rs + [[x]];
    LastOfLastRun(rs, s, t);
    ConcatAppend(rs, [x]);
    assert s == s[..|s| - 1] + [x];
    forall k, j | 0 <= k < |rs'| && 1 <= j < |rs'[k]|
      ensures rs'[k][j] - rs'[k][j - 1] <= t
    {
      assert rs'[k] == rs[k];
    }
  }

  // ---------------------------------------------------------------------
  // Plain clustering

  function ClusterOf(run: seq<real>, n: int): PriceCluster
    requires n > 0
  {
    PriceCluster(Mean(run), (|run| as real) / (n as real), |run|)
  }

  /** The runs of two or more, as clusters, in run order. */
  function KeepClusters(runs: seq<seq<real>>, n: int): (cs: seq<PriceCluster>)
    requires n > 0
    ensures |cs| <= |runs|
    ensures forall c | c in cs :: exists k | 0 <= k < |runs| :: |runs[k]| >= 2 && c == ClusterOf(runs[k], n)
    decreases |runs|
  {
    if |runs| == 0 then []
    else
      var init := KeepClusters(runs[..|runs| - 1], n);
      var last := runs[|runs| - 1];
      assert forall k | 0 <= k < |runs| - 1 :: runs[..|runs| - 1][k] == runs[k];
      init + if |last| >= 2 then [ClusterOf(last, n)] else []
  }

  /** No run of two or more is dropped. */
  lemma {:induction false} KeepClustersComplete(runs: seq<seq<real>>, n: int, k: int)
    requires n > 0 && 0 <= k < |runs| && |runs[k]| >= 2
    ensures ClusterOf(runs[k], n) in KeepClusters(runs, n)
    decreases |runs|
  {
    if k < |runs| - 1 {
      KeepClustersComplete(runs[..|runs| - 1], n, k);
    }
  }

  function Neg(x: real): real { -x }
  function ClusterStrength(c: PriceCluster): real { c.strength }

  /** What every cluster of `prices` satisfies: at least two and at most all
      of the prices, strength its share of them, mean within their range. */
  ghost predicate ValidCluster(c: PriceCluster, prices: seq<real>)
    requires |prices| > 0
  {
    && 2 <= c.count <= |prices|
    && c.strength == (c.count as real) / (|prices| as real)
    && 0.0 < c.strength <= 1.0
    && SeqMin(prices) <= c.price <= SeqMax(prices)
  }

  lemma RunClusterValid(runs: seq<seq<real>>, k: int, sorted: seq<real>, prices: seq<real>)
    requires |prices| > 0 && multiset(sorted) == multiset(prices)
    requires Concat(runs) == sorted
    requires 0 <= k < |runs| && |runs[k]| >= 2
    ensures ValidCluster(ClusterOf(runs[k], |prices|), prices)
  {
    var run := runs[k];
    RunWithinRange(runs, k, sorted, prices);
    MeanBounds(run, SeqMin(prices), SeqMax(prices));
    RunNoLonger(runs, k, sorted, prices);
    FractionInUnit(|run| as real, |prices| as real);
  }

  /** Every price of a run is one of the prices, so lies within their range. */
  lemma RunWithinRange(runs: seq<seq<real>>, k: int, sorted: seq<real>, prices: seq<real>)
    requires |prices| > 0 && multiset(sorted) == multiset(prices)
    requires Concat(runs) == sorted
    requires 0 <= k < |runs|
    ensures forall i | 0 <= i < |runs[k]| :: SeqMin(prices) <= runs[k][i] <= SeqMax(prices)
  {
    var run := runs[k];
    forall i | 0 <= i < |run|
      ensures SeqMin(prices) <= run[i] <= SeqMax(prices)
    {
      ConcatContains(runs, k, run[i]);
      assert run[i] in multiset(prices);
      var j :| 0 <= j < |prices| && prices[j] == run[i];
    }
  }

  /** A run holds no more prices than there are. */
  lemma RunNoLonger(runs: seq<seq<real>>, k: int, sorted: seq<real>, prices: seq<real>)
    requires multiset(sorted) == multiset(prices)
    requires Concat(runs) == sorted
    requires 0 <= k < |runs| && |runs[k]| > 0
    ensures |runs[k]| <= |prices|
  {
    ConcatContains(runs, k, runs[k][0]);
    assert |sorted| == |multiset(prices)| == |prices|;
  }

  /** clusterPrices: nothing for no prices; otherwise the strongest
      `maxClusters` of the candidate clusters (all of them when there are
      fewer), strongest first; none left out is stronger than one kept. */
  function ClusterPrices(prices: seq<real>, maxClusters: nat): (r: seq<PriceCluster>)
    ensures |prices| == 0 ==> r == []
    ensures |r| <= maxClusters
    ensures |prices| > 0 ==> forall c | c in r :: ValidCluster(c, prices)
    ensures SortedDesc(r, ClusterStrength)
    ensures |prices| > 0 ==>
      var cands := Candidates(prices);
      && multiset(r) <= multiset(cands)
      && |r| == (if |cands| < maxClusters then |cands| else maxClusters)
      && forall x, y | x in multiset(cands) - multiset(r) && y in r :: x.strength <= y.strength
  {
    if |prices| == 0 then []
    else
      var cands := Candidates(prices);
      var r := TopBy(cands, ClusterStrength, maxClusters);
      forall c | c in r
        ensures ValidCluster(c, prices)
      {
        assert c in multiset(r);
        assert c in cands;
      }
      r
  }

  /** The prices in ascending order, as `sort.Float64s` leaves them. */
  function SortedAsc(prices: seq<real>): (r: seq<real>)
    ensures multiset(r) == multiset(prices) && |r| == |prices|
    ensures forall i, j | 0 <= i < j < |r| :: r[i] <= r[j]
  {
    var r := SortDesc(prices, Neg);
    assert forall i, j | 0 <= i < j < |r| :: Neg(r[i]) >= Neg(r[j]);
    r
  }

  /** Neighbours closer than 2% of the span of the sorted prices join. */
  function JoinDistance(sorted: seq<real>): real
    requires |sorted| > 0
  {
    (sorted[|sorted| - 1] - sorted[0]) * 0.02
  }

  /** The clusters of every run of two or more of the sorted prices, with
      neighbours joined when at most 2% of the price span apart. */
  function Candidates(prices: seq<real>): (cs: seq<PriceCluster>)
    requires |prices| > 0
    ensures forall c | c in cs :: ValidCluster(c, prices)
  {
    var sorted := SortedAsc(prices);
    var runs := Runs(sorted, JoinDistance(sorted));
    var cs := KeepClusters(runs, |prices|);
    forall c | c in cs
      ensures ValidCluster(c, prices)
    {
      var k :| 0 <= k < |runs| && |runs[k]| >= 2 && c == ClusterOf(runs[k], |prices|);
      RunClusterValid(runs, k, sorted, prices);
    }
    cs
  }

  /** When every price is the same, all of them form one cluster at that
      price with full strength. */
  lemma CandidatesAllEqual(prices: seq<real>, c: real)
    requires |prices| >= 2
    requires forall i | 0 <= i < |prices| :: prices[i] == c
    ensures Candidates(prices) == [PriceCluster(c, 1.0, |prices|)]
  {
    var sorted := SortedAsc(prices);
    assert forall i | 0 <= i < |sorted| :: sorted[i] == c by {
      forall i | 0 <= i < |sorted|
        ensures sorted[i] == c
      {
        assert sorted[i] in multiset(prices);
      }
    }
    var threshold := JoinDistance(sorted);
    assert threshold == 0.0;
    var n := |prices|;
    assert Runs(sorted, threshold) == [sorted] by { SingleRun(sorted, c); }
    assert ClusterOf(sorted, n) == PriceCluster(c, 1.0, n) by {
      ClusterOfConstant(sorted, c);
    }
    assert KeepClusters([sorted], n) == [ClusterOf(sorted, n)] by {
      assert [sorted][..0] == [];
    }
    assert Candidates(prices) == KeepClusters(Runs(sorted, threshold), n);
  }

  lemma ClusterOfConstant(run: seq<real>, c: real)
    requires |run| >= 1
    requires forall i | 0 <= i < |run| :: run[i] == c
    ensures ClusterOf(run, |run|) == PriceCluster(c, 1.0, |run|)
  {
    MeanConstant(run, c);
    var n := |run| as real;
    assert n / n == 1.0;
  }

  /** Equal prices form a single run. */
  lemma SingleRun(s: seq<real>, c: real)
    requires |s| >= 1
    requires forall i | 0 <= i < |s| :: s[i] == c
    ensures Runs(s, 0.0) == [s]
  {
    OnlyOneRun(Runs(s, 0.0), s, c);
  }

  lemma OnlyOneRun(rs: seq<seq<real>>, s: seq<real>, c: real)
    requires IsRunsOf(rs, s, 0.0)
    requires forall i | 0 <= i < |s| :: s[i] == c
    ensures rs == [s]
  {
    if |rs| >= 2 {
      var a, b := rs[0][|rs[0]| - 1], rs[1][0];
      ConcatContains(rs, 0, a);
      ConcatContains(rs, 1, b);
      assert false;
    } else {
      ConcatSingle(rs);
    }
  }

  lemma ConcatSingle<T>(rs: seq<seq<T>>)
    requires |rs| == 1
    ensures rs == [Concat(rs)]
  {
    assert rs[..0] == [];
    assert Concat(rs) == Concat(rs[..0]) + rs[0] == rs[0];
    assert rs == [rs[0]];
  }

  // ---------------------------------------------------------------------
  // Plain support/resistance split

  /** The highs and lows of the last `lookback` candles (all of them when
      there are fewer; none for a lookback of 0 or less). */
  function WindowPrices(candles: seq<Candle>, lookback: int): (r: seq<real>)
    ensures lookback <= 0 ==> r == []
    ensures lookback > 0 ==> |r| == 2 * (if |candles| < lookback then |candles| else lookback)
    decreases |candles|
  {
    if lookback <= 0 || |candles| == 0 then []
    else
      var c := candles[|candles| - 1];
      WindowPrices(candles[..|candles| - 1], lookback - 1) + [c.high, c.low]
  }

  function LevelOf(c: PriceCluster): SRLevel
  {
    SRLevel(c.price, c.strength)
  }

  function Levels(cs: seq<PriceCluster>): (r: seq<SRLevel>)
    ensures |r| == |cs|
    ensures forall i | 0 <= i < |cs| :: r[i] == LevelOf(cs[i])
  {
    seq(|cs|, i requires 0 <= i < |cs| => LevelOf(cs[i]))
  }

  /** Which side of the last close a level is kept on. */
  datatype Band = Above(bound: real) | AtOrBelow(bound: real) | Below(bound: real)

  predicate InBand(b: Band, price: real)
  {
    match b
    case Above(x) => price > x
    case AtOrBelow(x) => price <= x
    case Below(x) => price < x
  }

  /** The levels in the band, in their original order. */
  function Select(s: seq<SRLevel>, b: Band): (r: seq<SRLevel>)
    ensures forall l | l in r :: InBand(b, l.price) && l in s
    decreases |s|
  {
    if |s| == 0 then []
    else
      var init := s[..|s| - 1];
      var x := s[|s| - 1];
      assert s == init + [x];
      Select(init, b) + if InBand(b, x.price) then [x] else []
  }

  /** Each level occurs in the selection as often as in the input when it
      is in the band, and not at all otherwise. */
  lemma {:induction false} SelectCount(s: seq<SRLevel>, b: Band, l: SRLevel)
    ensures multiset(Select(s, b))[l] == if InBand(b, l.price) then multiset(s)[l] else 0
    decreases |s|
  {
    if |s| > 0 {
      var init, x := s[..|s| - 1], s[|s| - 1];
      assert s == init + [x];
      SelectCount(init, b, l);
    }
  }

  function Price(l: SRLevel): real { l.price }
  function NegPrice(l: SRLevel): real { -l.price }
  function Strength(l: SRLevel): real { l.strength }

  /** The levels of the five strongest clusters of the window. */
  function ClusterLevels(candles: seq<Candle>, lookback: int): (r: seq<SRLevel>)
    ensures |r| <= 5
    ensures forall l | l in r :: 0.0 < l.strength <= 1.0
  {
    var prices := WindowPrices(candles, lookback);
    var cl := ClusterPrices(prices, 5);
    var levels := Levels(cl);
    forall l | l in levels
      ensures 0.0 < l.strength <= 1.0
    {
      var i :| 0 <= i < |levels| && levels[i] == l;
      assert cl[i] in cl;
      assert ValidCluster(cl[i], prices);
    }
    levels
  }

  /** The split at price `cp`: levels strictly above it, lowest first, as
      resistance; levels at or below it, highest first, as support. With at
      most five levels nothing is cut, so every level lands on exactly one
      side. */
  function SplitAt(levels: seq<SRLevel>, cp: real): (r: SRLevels)
    requires |levels| <= 5
    ensures forall l | l in r.resistance :: l.price > cp
    ensures forall l | l in r.support :: l.price <= cp
    ensures SortedDesc(r.resistance, NegPrice) && SortedDesc(r.support, Price)
    ensures multiset(r.resistance) + multiset(r.support) == multiset(levels)
    ensures forall l | l in r.resistance + r.support :: l in levels
  {
    var above, below := Select(levels, Above(cp)), Select(levels, AtOrBelow(cp));
    SelectPartition(levels, cp);
    var res, sup := TopBy(above, NegPrice, 5), TopBy(below, Price, 5);
    assert multiset(res) == multiset(above) by { TopAllWhenFew(above, NegPrice, levels); }
    assert multiset(sup) == multiset(below) by { TopAllWhenFew(below, Price, levels); }
    SubMembers(res, above);
    SubMembers(sup, below);
    PartsAreMembers(res, sup, levels);
    SRLevels(res, sup)
  }

  lemma PartsAreMembers(a: seq<SRLevel>, b: seq<SRLevel>, levels: seq<SRLevel>)
    requires multiset(a) + multiset(b) == multiset(levels)
    ensures forall l | l in a + b :: l in levels
  {
    forall l | l in a + b
      ensures l in levels
    {
      assert l in multiset(a) + multiset(b);
    }
  }

  /** The two sides of the close split the levels between them. */
  lemma SelectPartition(levels: seq<SRLevel>, cp: real)
    ensures multiset(Select(levels, Above(cp))) + multiset(Select(levels, AtOrBelow(cp))) == multiset(levels)
  {
    var above, below := Select(levels, Above(cp)), Select(levels, AtOrBelow(cp));
    forall l
      ensures (multiset(above) + multiset(below))[l] == multiset(levels)[l]
    {
      SelectCount(levels, Above(cp), l);
      SelectCount(levels, AtOrBelow(cp), l);
    }
  }

  /** A side holds no more levels than there are, so at most five: keeping
      the top five keeps all of them. */
  lemma TopAllWhenFew(side: seq<SRLevel>, key: SRLevel -> real, levels: seq<SRLevel>)
    requires |levels| <= 5 && multiset(side) <= multiset(levels)
    ensures multiset(TopBy(side, key, 5)) == multiset(side)
  {
    assert multiset(levels) == multiset(side) + (multiset(levels) - multiset(side));
  }

  /** CalculateSRLevels: the (at most five) clusters of the window's highs
      and lows, split at the last close: resistance strictly above it,
      nearest first, support at or below it, nearest first. No cluster is
      lost or duplicated by the split. */
  function CalculateSRLevels(candles: seq<Candle>, lookback: int): (r: SRLevels)
    requires |candles| >= 1
    ensures var cp := candles[|candles| - 1].close;
      && (forall l | l in r.resistance :: l.price > cp)
      && (forall l | l in r.support :: l.price <= cp)
    ensures SortedDesc(r.resistance, NegPrice) && SortedDesc(r.support, Price)
    ensures |r.resistance| <= 5 && |r.support| <= 5
    ensures multiset(r.resistance) + multiset(r.support) == multiset(ClusterLevels(candles, lookback))
    ensures forall l | l in r.resistance + r.support :: 0.0 < l.strength <= 1.0
  {
    var levels := ClusterLevels(candles, lookback);
    var r := SplitAt(levels, candles[|candles| - 1].close);
    assert |multiset(r.resistance)| + |multiset(r.support)| == |multiset(levels)|;
    r
  }

  // ---------------------------------------------------------------------
  // Volume-weighted clustering

  /** A window price with the volume of the bar it came from. */
  datatype WeightedPrice = WeightedPrice(price: real, volume: real)

  /** The high and the low of each of the last `lookback` candles, each
      carrying that candle's volume. */
  function WeightedWindow(candles: seq<Candle>, lookback: int): (r: seq<WeightedPrice>)
    ensures |r| == |WindowPrices(candles, lookback)|
    ensures forall i | 0 <= i < |r| :: r[i].price == WindowPrices(candles, lookback)[i]
    decreases |candles|
  {
    if lookback <= 0 || |candles| == 0 then []
    else
      var c := candles[|candles| - 1];
      WeightedWindow(candles[..|candles| - 1], lookback - 1)
        + [WeightedPrice(c.high, c.volume), WeightedPrice(c.low, c.volume)]
  }

  /** Every weighted price carries the volume of some candle. */
  lemma {:induction false} WeightedWindowVolumes(candles: seq<Candle>, lookback: int)
    requires forall i | 0 <= i < |candles| :: candles[i].volume >= 0.0
    ensures forall w | w in WeightedWindow(candles, lookback) :: w.volume >= 0.0
    decreases |candles|
  {
    if lookback > 0 && |candles| > 0 {
      WeightedWindowVolumes(candles[..|candles| - 1], lookback - 1);
    }
  }

  function NegWeightedPrice(w: WeightedPrice): real { -w.price }

  /** The end of the run anchored at `i`: from `j` on, the first index whose
      price is more than `t` from the anchor's (or the end). */
  function RunEnd(ws: seq<WeightedPrice>, i: int, j: int, t: real): (e: int)
    requires 0 <= i < j <= |ws|
    ensures j <= e <= |ws|
    ensures forall k | j <= k < e :: Abs(ws[k].price - ws[i].price) <= t
    ensures e < |ws| ==> Abs(ws[e].price - ws[i].price) > t
    decreases |ws| - j
  {
    if j < |ws| && Abs(ws[j].price - ws[i].price) <= t then RunEnd(ws, i, j + 1, t) else j
  }

  /** `rs` cuts `ws` into runs each anchored at its first member: every
      later member is within `t` of the anchor, and the next run's anchor
      is not. */
  ghost predicate IsAnchoredRunsOf(rs: seq<seq<WeightedPrice>>, ws: seq<WeightedPrice>, t: real)
  {
    && (forall k | 0 <= k < |rs| :: |rs[k]| >= 1)
    && Concat(rs) == ws
    && (forall k, m | 0 <= k < |rs| && 1 <= m < |rs[k]| :: Abs(rs[k][m].price - rs[k][0].price) <= t)
    && (forall k | 0 <= k < |rs| - 1 :: Abs(rs[k + 1][0].price - rs[k][0].price) > t)
  }

  /** The source's outer loop: take the run anchored at the first price,
      then continue after it. */
  function AnchoredRuns(ws: seq<WeightedPrice>, t: real): (rs: seq<seq<WeightedPrice>>)
    ensures IsAnchoredRunsOf(rs, ws, t)
    decreases |ws|
  {
    if |ws| == 0 then []
    else
      var e := RunEnd(ws, 0, 1, t);
      var rest := AnchoredRuns(ws[e..], t);
      PrependRun(ws, e, rest, t);
      [ws[..e]] + rest
  }

  lemma PrependRun(ws: seq<WeightedPrice>, e: int, rest: seq<seq<WeightedPrice>>, t: real)
    requires 1 <= e <= |ws|
    requires forall k | 1 <= k < e :: Abs(ws[k].price - ws[0].price) <= t
    requires e < |ws| ==> Abs(ws[e].price - ws[0].price) > t
    requires IsAnchoredRunsOf(rest, ws[e..], t)
    ensures IsAnchoredRunsOf([ws[..e]] + rest, ws, t)
  {
    var rs: seq<seq<WeightedPrice>> := [ws[..e]] + rest;
    assert Concat(rs) == ws by {
      ConcatPrepend(ws[..e], rest);
      assert ws[..e] + ws[e..] == ws;
    }
    PrependRunAnchors(ws, e, rest, t);
    forall k, m | 0 <= k < |rs| && 1 <= m < |rs[k]|
      ensures Abs(rs[k][m].price - rs[k][0].price) <= t
    {
      if k > 0 {
        assert rs[k] == rest[k - 1];
      }
    }
  }

  lemma PrependRunAnchors(ws: seq<WeightedPrice>, e: int, rest: seq<seq<WeightedPrice>>, t: real)
    requires 1 <= e <= |ws|
    requires e < |ws| ==> Abs(ws[e].price - ws[0].price) > t
    requires IsAnchoredRunsOf(rest, ws[e..], t)
    ensures var rs := [ws[..e]] + rest;
      forall k | 0 <= k < |rs| - 1 :: Abs(rs[k + 1][0].price - rs[k][0].price) > t
  {
    var rs: seq<seq<WeightedPrice>> := [ws[..e]] + rest;
    forall k | 0 <= k < |rs| - 1
      ensures Abs(rs[k + 1][0].price - rs[k][0].price) > t
    {
      assert rs[k + 1] == rest[k];
      if k == 0 {
        FirstOfConcat(rest);
      } else {
        assert rs[k] == rest[k - 1];
      }
    }
  }

  /** The first member of the first non-empty part heads the concatenation. */
  lemma FirstOfConcat<T>(rs: seq<seq<T>>)
    requires |rs| >= 1 && |rs[0]| >= 1
    ensures |Concat(rs)| >= 1 && Concat(rs)[0] == rs[0][0]
  {
    assert rs == [rs[0]] + rs[1..];
    ConcatPrepend(rs[0], rs[1..]);
  }

  function Prices(run: seq<WeightedPrice>): (r: seq<real>)
    ensures |r| == |run| && forall i | 0 <= i < |run| :: r[i] == run[i].price
  {
    seq(|run|, i requires 0 <= i < |run| => run[i].price)
  }

  function Volumes(run: seq<WeightedPrice>): (r: seq<real>)
    ensures |r| == |run| && forall i | 0 <= i < |run| :: r[i] == run[i].volume
  {
    seq(|run|, i requires 0 <= i < |run| => run[i].volume)
  }

  /** A run's cluster: mean price, size, and total volume / 10000 capped at 1. */
  function VolumeCluster(run: seq<WeightedPrice>): (c: PriceCluster)
    ensures c.count == |run| && c.strength <= 1.0
  {
    PriceCluster(Mean(Prices(run)), Min(1.0, Sum(Volumes(run)) / 10000.0), |run|)
  }

  /** A run's cluster price lies within `t` of its anchor; with
      non-negative volumes its strength is in [0, 1]. */
  lemma VolumeClusterBounds(run: seq<WeightedPrice>, t: real)
    requires |run| >= 1
    requires forall m | 1 <= m < |run| :: Abs(run[m].price - run[0].price) <= t
    requires t >= 0.0
    ensures Abs(VolumeCluster(run).price - run[0].price) <= t
  {
    var a := run[0].price;
    MeanBounds(Prices(run), a - t, a + t);
  }

  lemma VolumeClusterNonNegative(run: seq<WeightedPrice>)
    requires forall w | w in run :: w.volume >= 0.0
    ensures 0.0 <= VolumeCluster(run).strength <= 1.0
  {
    SumNonNegative(Volumes(run));
  }

  lemma {:induction false} SumNonNegative(s: seq<real>)
    requires forall i | 0 <= i < |s| :: s[i] >= 0.0
    ensures Sum(s) >= 0.0
    decreases |s|
  {
    if |s| > 0 {
      SumNonNegative(s[..|s| - 1]);
    }
  }

  /** The clusters of the runs of two or more, in run order. */
  function KeepVolumeClusters(runs: seq<seq<WeightedPrice>>): (cs: seq<PriceCluster>)
    ensures |cs| <= |runs|
    ensures forall i | 0 <= i < |cs| :: cs[i].count >= 2 && cs[i].strength <= 1.0
    ensures forall c | c in cs :: exists k | 0 <= k < |runs| :: |runs[k]| >= 2 && c == VolumeCluster(runs[k])
    decreases |runs|
  {
    if |runs| == 0 then []
    else
      var init := KeepVolumeClusters(runs[..|runs| - 1]);
      var last := runs[|runs| - 1];
      assert forall k | 0 <= k < |runs| - 1 :: runs[..|runs| - 1][k] == runs[k];
      init + if |last| >= 2 then [VolumeCluster(last)] else []
  }

  /** No run of two or more is dropped. */
  lemma {:induction false} KeepVolumeClustersComplete(runs: seq<seq<WeightedPrice>>, k: int)
    requires 0 <= k < |runs| && |runs[k]| >= 2
    ensures VolumeCluster(runs[k]) in KeepVolumeClusters(runs)
    decreases |runs|
  {
    if k < |runs| - 1 {
      KeepVolumeClustersComplete(runs[..|runs| - 1], k);
    }
  }

  /** The volume-weighted levels of the window: the window's weighted prices
      in ascending price order, cut into anchored runs at half the last
      bar's range, one level per run of two or more. */
  function VolumeLevels(candles: seq<Candle>, lookback: int): (r: seq<SRLevel>)
    requires |candles| >= 1
    ensures forall l | l in r :: l.strength <= 1.0
  {
    var cs := VolumeClusters(candles, lookback);
    var levels := Levels(cs);
    assert forall i | 0 <= i < |levels| :: levels[i].strength == cs[i].strength;
    levels
  }

  function VolumeClusters(candles: seq<Candle>, lookback: int): (cs: seq<PriceCluster>)
    requires |candles| >= 1
    ensures forall i | 0 <= i < |cs| :: cs[i].strength <= 1.0
  {
    var ws := SortDesc(WeightedWindow(candles, lookback), NegWeightedPrice);
    var last := candles[|candles| - 1];
    KeepVolumeClusters(AnchoredRuns(ws, (last.high - last.low) * 0.5))
  }

  /** The strongest five of the levels in band `b`, strongest first; none
      in the band but left out is stronger than one kept. */
  function StrongestInBand(levels: seq<SRLevel>, b: Band): (r: seq<SRLevel>)
    ensures forall l | l in r :: InBand(b, l.price)
    ensures SortedDesc(r, Strength)
    ensures var side := Select(levels, b);
      && multiset(r) <= multiset(side)
      && |r| == (if |side| < 5 then |side| else 5)
      && (forall x, y | x in multiset(side) - multiset(r) && y in r :: Strength(x) <= Strength(y))
  {
    var side := Select(levels, b);
    var r := TopBy(side, Strength, 5);
    SubMembers(r, side);
    r
  }

  /** The split with a 0.1% dead band around `cp`. A level above the band
      goes to resistance; only a level the resistance test rejects can go
      to support, so no level lands on both sides even when `cp` is
      negative and the two bounds cross. */
  function SplitOutsideBand(levels: seq<SRLevel>, cp: real): (r: SRLevels)
    ensures (forall l | l in r.resistance :: l.price > cp * 1.001)
      && (forall l | l in r.support :: l.price < cp * 0.999 && l.price <= cp * 1.001)
    ensures |r.resistance| <= 5 && |r.support| <= 5
  {
    var rest := Select(levels, AtOrBelow(cp * 1.001));
    SRLevels(StrongestInBand(levels, Above(cp * 1.001)), StrongestInBand(rest, Below(cp * 0.999)))
  }

  /** CalculateSRLevelsAdvanced: resistance is the strongest five levels
      more than 0.1% above the last close, support the strongest five of
      the remaining levels more than 0.1% below it; levels inside the band
      are dropped and the two sides share no level. */
  function CalculateSRLevelsAdvanced(candles: seq<Candle>, lookback: int): (r: SRLevels)
    requires |candles| >= 1
    ensures var cp := candles[|candles| - 1].close;
      && (forall l | l in r.resistance :: l.price > cp * 1.001)
      && (forall l | l in r.support :: l.price < cp * 0.999 && l.price <= cp * 1.001)
    ensures forall l | l in r.resistance :: l !in r.support
    ensures |r.resistance| <= 5 && |r.support| <= 5
  {
    SplitOutsideBand(VolumeLevels(candles, lookback), candles[|candles| - 1].close)
  }

  /** Each side of the advanced split is ordered strongest first and holds
      all its band's levels when there are at most five, otherwise five;
      none left out is stronger than one kept, and every kept strength is
      at most 1. */
  lemma AdvancedResistanceStrongest(candles: seq<Candle>, lookback: int)
    requires |candles| >= 1
    ensures var r, levels := CalculateSRLevelsAdvanced(candles, lookback).resistance, VolumeLevels(candles, lookback);
      var above := Select(levels, Above(candles[|candles| - 1].close * 1.001));
      && SortedDesc(r, Strength)
      && multiset(r) <= multiset(above)
      && |r| == (if |above| < 5 then |above| else 5)
      && (forall x, y | x in multiset(above) - multiset(r) && y in r :: Strength(x) <= Strength(y))
      && (forall l | l in r :: l.strength <= 1.0)
  {
    var r, levels := CalculateSRLevelsAdvanced(candles, lookback).resistance, VolumeLevels(candles, lookback);
    var above := Select(levels, Above(candles[|candles| - 1].close * 1.001));
  }

  lemma AdvancedSupportStrongest(candles: seq<Candle>, lookback: int)
    requires |candles| >= 1
    ensures var r, levels := CalculateSRLevelsAdvanced(candles, lookback).support, VolumeLevels(candles, lookback);
      var cp := candles[|candles| - 1].close;
      var below := Select(Select(levels, AtOrBelow(cp * 1.001)), Below(cp * 0.999));
      && SortedDesc(r, Strength)
      && multiset(r) <= multiset(below)
      && |r| == (if |below| < 5 then |below| else 5)
      && (forall x, y | x in multiset(below) - multiset(r) && y in r :: Strength(x) <= Strength(y))
      && (forall l | l in r :: l.strength <= 1.0)
  {
    var r, levels := CalculateSRLevelsAdvanced(candles, lookback).support, VolumeLevels(candles, lookback);
    var cp := candles[|candles| - 1].close;
    var below := Select(Select(levels, AtOrBelow(cp * 1.001)), Below(cp * 0.999));
  }
}
