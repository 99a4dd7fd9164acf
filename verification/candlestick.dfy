/** The candlestick pattern recogniser: geometric predicates on the last one,
    two or three candles, gated by the moving-average trend label, and
    `IdentifyPatterns`, which emits one record per pattern found with a fixed
    position and reliability. The source's three-black-crows test can never
    hold; `IdentifyPatterns` keeps it as written and `IdentifyPatternsIntended`
    runs the corrected test. */
module Candlestick {
  import opened Common
  import opened Model

  function Body(c: Candle): real { Abs(c.close - c.open) }
  function UpperShadow(c: Candle): real { c.high - Max(c.open, c.close) }
  function LowerShadow(c: Candle): real { Min(c.open, c.close) - c.low }
  function Range(c: Candle): real { c.high - c.low }

  predicate IsHammer(c: Candle, trend: TrendLabel)
  {
    && Range(c) != 0.0
    && trend == Falling
    && LowerShadow(c) >= Body(c) * 2.0
    && UpperShadow(c) <= Body(c) * 0.1
    && Body(c) / Range(c) < 0.3
  }

  predicate IsHangingMan(c: Candle, trend: TrendLabel)
  {
    && trend == Rising
    && LowerShadow(c) >= Body(c) * 2.0
    && UpperShadow(c) <= Body(c) * 0.1
  }

  predicate IsInvertedHammer(c: Candle, trend: TrendLabel)
  {
    && trend == Falling
    && UpperShadow(c) >= Body(c) * 2.0
    && LowerShadow(c) <= Body(c) * 0.1
  }

  predicate IsShootingStar(c: Candle, trend: TrendLabel)
  {
    && trend == Rising
    && UpperShadow(c) >= Body(c) * 2.0
    && LowerShadow(c) <= Body(c) * 0.1
  }

  /** A doji and its subtype, or None. The subtype tests are tried in the
      order Dragonfly, Gravestone, Long-Legged, Standard. */
  function IsDoji(c: Candle): (r: Option<DojiKind>)
  {
    var total := Range(c);
    if total == 0.0 || Body(c) / total > 0.05 then None
    else if LowerShadow(c) > total * 0.6 && UpperShadow(c) < total * 0.1 then Some(Dragonfly)
    else if UpperShadow(c) > total * 0.6 && LowerShadow(c) < total * 0.1 then Some(Gravestone)
    else if LowerShadow(c) > total * 0.3 && UpperShadow(c) > total * 0.3 then Some(LongLegged)
    else Some(Standard)
  }

  /** A candle is a doji exactly when its body is at most 5% of a nonzero
      range; a long lower and a short upper shadow make it a dragonfly, and
      each other subtype has the shadows its name promises. */
  lemma DojiClassification(c: Candle)
    ensures IsDoji(c) == None <==> Range(c) == 0.0 || Body(c) / Range(c) > 0.05
    ensures IsDoji(c) == Some(Dragonfly) <==>
      IsDoji(c) != None && LowerShadow(c) > Range(c) * 0.6 && UpperShadow(c) < Range(c) * 0.1
    ensures IsDoji(c) == Some(Gravestone) ==> UpperShadow(c) > Range(c) * 0.6 && LowerShadow(c) < Range(c) * 0.1
    ensures IsDoji(c) == Some(LongLegged) ==> LowerShadow(c) > Range(c) * 0.3 && UpperShadow(c) > Range(c) * 0.3
  {
  }

  predicate IsBullishEngulfing(prev: Candle, curr: Candle, trend: TrendLabel)
  {
    && trend == Falling
    && prev.close < prev.open
    && curr.close > curr.open
    && curr.open < prev.close
    && curr.close > prev.open
    && Body(curr) > Body(prev) * 1.5
  }

  predicate IsBearishEngulfing(prev: Candle, curr: Candle, trend: TrendLabel)
  {
    && trend == Rising
    && prev.close > prev.open
    && curr.close < curr.open
    && curr.open > prev.close
    && curr.close < prev.open
    && Body(curr) > Body(prev) * 1.5
  }

  /** The guard `prev.open != prev.close` protects the penetration division. */
  predicate IsPiercingPattern(prev: Candle, curr: Candle, trend: TrendLabel)
  {
    && prev.open != prev.close
    && trend == Falling
    && prev.close < prev.open
    && curr.close > curr.open
    && curr.open < prev.low
    && curr.close > prev.close
    && curr.close < prev.open
    && (curr.close - prev.close) / (prev.open - prev.close) >= 0.5
  }

  predicate IsDarkCloudCover(prev: Candle, curr: Candle, trend: TrendLabel)
  {
    && prev.close != prev.open
    && trend == Rising
    && prev.close > prev.open
    && curr.close < curr.open
    && curr.open > prev.high
    && curr.close < prev.close
    && curr.close > prev.open
    && (prev.close - curr.close) / (prev.close - prev.open) >= 0.5
  }

  /** Harami: the current body strictly inside the previous one, with the
      opposite colour; Some(Bullish) or Some(Bearish), else None. */
  function IsHarami(prev: Candle, curr: Candle): (r: Option<Signal>)
    ensures r != Some(Neutral)
    ensures r != None ==>
      && Max(curr.open, curr.close) < Max(prev.open, prev.close)
      && Min(curr.open, curr.close) > Min(prev.open, prev.close)
    ensures r == Some(Bullish) ==> prev.close < prev.open && curr.close > curr.open
    ensures r == Some(Bearish) ==> prev.close > prev.open && curr.close < curr.open
  {
    if Max(curr.open, curr.close) < Max(prev.open, prev.close)
       && Min(curr.open, curr.close) > Min(prev.open, prev.close) then
      if prev.close < prev.open && curr.close > curr.open then Some(Bullish)
      else if prev.close > prev.open && curr.close < curr.open then Some(Bearish)
      else None
    else None
  }

  predicate IsMorningStar(c1: Candle, c2: Candle, c3: Candle, trend: TrendLabel)
  {
    && trend == Falling
    && c1.close < c1.open
    && Body(c2) < Body(c1) * 0.3
    && c3.close > c3.open
    && c3.close > (c1.open + c1.close) / 2.0
  }

  predicate IsEveningStar(c1: Candle, c2: Candle, c3: Candle, trend: TrendLabel)
  {
    && trend == Rising
    && c1.close > c1.open
    && Body(c2) < Body(c1) * 0.3
    && c3.close < c3.open
    && c3.close < (c1.open + c1.close) / 2.0
  }

  predicate IsThreeWhiteSoldiers(c1: Candle, c2: Candle, c3: Candle, trend: TrendLabel)
  {
    && trend == Falling
    && c1.close > c1.open
    && c2.close > c2.open
    && c3.close > c3.open
    && c2.open > c1.open && c2.open < c1.close
    && c3.open > c2.open && c3.open < c2.close
    && c2.close > c1.close
    && c3.close > c2.close
  }

  /** Three black crows exactly as the source writes it: each candle must open
      above the previous open and below the previous close, which a bearish
      previous candle (close below open) makes impossible. */
  predicate IsThreeBlackCrowsAsWritten(c1: Candle, c2: Candle, c3: Candle, trend: TrendLabel)
  {
    && trend == Rising
    && c1.close < c1.open
    && c2.close < c2.open
    && c3.close < c3.open
    && c2.open < c1.close && c2.open > c1.open
    && c3.open < c2.close && c3.open > c2.open
    && c2.close < c1.close
    && c3.close < c2.close
  }

  /** Three black crows as intended: each candle opens inside the previous
      (bearish) body and closes lower, the mirror of three white soldiers. */
  predicate IsThreeBlackCrows(c1: Candle, c2: Candle, c3: Candle, trend: TrendLabel)
  {
    && trend == Rising
    && c1.close < c1.open
    && c2.close < c2.open
    && c3.close < c3.open
    && c2.open < c1.open && c2.open > c1.close
    && c3.open < c2.open && c3.open > c2.close
    && c2.close < c1.close
    && c3.close < c2.close
  }

  /** Which three-black-crows test the catalogue runs: the source's own,
      which never holds, or the intended one. Every other test is the same
      under both readings. */
  datatype Reading = AsWritten | Intended

  function Reversal(name: PatternName, direction: Signal, position: int, reliability: real): CandlestickPattern
  {
    CandlestickPattern(name, PatternCategory.Reversal, direction, position, reliability)
  }

  function DojiReliability(kind: DojiKind, trend: TrendLabel): real
  {
    if kind == Dragonfly && trend == Falling then 0.75
    else if kind == Gravestone && trend == Rising then 0.75
    else 0.70
  }

  /** How many candles a pattern spans; its record's position is 1 - arity. */
  function Arity(name: PatternName): nat
  {
    match name
    case Hammer | HangingMan | InvertedHammer | ShootingStar | Doji(_) => 1
    case BullishEngulfing | BearishEngulfing | Piercing | DarkCloudCover | Harami => 2
    case MorningStar | EveningStar | ThreeWhiteSoldiers | ThreeBlackCrows => 3
  }

  /** The trend label a pattern is gated on, if any. */
  function RequiredTrend(name: PatternName): Option<TrendLabel>
  {
    match name
    case Hammer | InvertedHammer | BullishEngulfing | Piercing | MorningStar | ThreeWhiteSoldiers => Some(Falling)
    case HangingMan | ShootingStar | BearishEngulfing | DarkCloudCover | EveningStar | ThreeBlackCrows => Some(Rising)
    case Doji(_) | Harami => None
  }

  /** Whether the named pattern matches `tail`, the last Arity(name)
      candles: one entry per variant, the catalogue the recogniser walks. */
  predicate FiresOn(name: PatternName, tail: seq<Candle>, trend: TrendLabel, reading: Reading)
    requires |tail| == Arity(name)
  {
    match name
    case Hammer => IsHammer(tail[0], trend)
    case HangingMan => IsHangingMan(tail[0], trend)
    case InvertedHammer => IsInvertedHammer(tail[0], trend)
    case ShootingStar => IsShootingStar(tail[0], trend)
    case Doji(kind) => IsDoji(tail[0]) == Some(kind)
    case BullishEngulfing => IsBullishEngulfing(tail[0], tail[1], trend)
    case BearishEngulfing => IsBearishEngulfing(tail[0], tail[1], trend)
    case Piercing => IsPiercingPattern(tail[0], tail[1], trend)
    case DarkCloudCover => IsDarkCloudCover(tail[0], tail[1], trend)
    case Harami => IsHarami(tail[0], tail[1]) != None
    case MorningStar => IsMorningStar(tail[0], tail[1], tail[2], trend)
    case EveningStar => IsEveningStar(tail[0], tail[1], tail[2], trend)
    case ThreeWhiteSoldiers => IsThreeWhiteSoldiers(tail[0], tail[1], tail[2], trend)
    case ThreeBlackCrows =>
      if reading == AsWritten then IsThreeBlackCrowsAsWritten(tail[0], tail[1], tail[2], trend)
      else IsThreeBlackCrows(tail[0], tail[1], tail[2], trend)
  }

  /** Whether the named pattern is present at the end of `candles`. */
  predicate Fires(name: PatternName, candles: seq<Candle>, trend: TrendLabel, reading: Reading)
  {
    |candles| >= Arity(name) && FiresOn(name, candles[|candles| - Arity(name)..], trend, reading)
  }

  /** Invariants every emitted record keeps, whatever the candles. */
  ghost predicate WellPlaced(p: CandlestickPattern, trend: TrendLabel)
  {
    && p.category == PatternCategory.Reversal
    && p.position == 1 - Arity(p.pattern)
    && 0.65 <= p.reliability <= 0.95
    && (RequiredTrend(p.pattern) == None || RequiredTrend(p.pattern) == Some(trend))
    && (p.pattern.Doji? ==> p.direction == Neutral && p.reliability == DojiReliability(p.pattern.kind, trend))
    && (p.pattern == Harami ==> p.direction != Neutral && p.reliability == 0.70)
  }

  ghost predicate Distinct(ps: seq<CandlestickPattern>)
  {
    forall i, j | 0 <= i < j < |ps| :: ps[i].pattern != ps[j].pattern
  }

  // ---------------------------------------------------------------------
  // Each arity group is a fixed catalogue of rows, tested in the source's
  // order; a row's record is appended when its test fires.

  datatype Row = Row(fires: bool, record: CandlestickPattern)

  /** The records of the rows that fire, in row order. */
  function Emitted(rows: seq<Row>): (r: seq<CandlestickPattern>)
    ensures forall p | p in r :: Row(true, p) in rows
    decreases |rows|
  {
    if |rows| == 0 then []
    else
      var rest := Emitted(rows[1..]);
      assert forall p | p in rest :: Row(true, p) in rows[1..];
      (if rows[0].fires then [rows[0].record] else []) + rest
  }

  /** A name has a record exactly when some row of that name fires. */
  lemma {:induction false} EmittedNames(rows: seq<Row>, name: PatternName)
    ensures (exists p | p in Emitted(rows) :: p.pattern == name) <==>
      (exists row | row in rows :: row.fires && row.record.pattern == name)
    decreases |rows|
  {
    if |rows| > 0 {
      EmittedNames(rows[1..], name);
      assert rows == [rows[0]] + rows[1..];
      var head: seq<CandlestickPattern> := if rows[0].fires then [rows[0].record] else [];
      assert Emitted(rows) == head + Emitted(rows[1..]);
      if exists row | row in rows :: row.fires && row.record.pattern == name {
        var row :| row in rows && row.fires && row.record.pattern == name;
        if row != rows[0] {
          assert row in rows[1..];
          var p :| p in Emitted(rows[1..]) && p.pattern == name;
          assert p in Emitted(rows);
        } else {
          assert rows[0].record in Emitted(rows);
        }
      }
    }
  }

  /** When names are not repeated, a name fires exactly when its own row does. */
  lemma RowByName(rows: seq<Row>, k: int, name: PatternName)
    requires 0 <= k < |rows| && rows[k].record.pattern == name
    requires forall i, j | 0 <= i < j < |rows| :: rows[i].record.pattern != rows[j].record.pattern
    ensures (exists row | row in rows :: row.fires && row.record.pattern == name) <==> rows[k].fires
  {
    if exists row | row in rows :: row.fires && row.record.pattern == name {
      var row :| row in rows && row.fires && row.record.pattern == name;
      var j :| 0 <= j < |rows| && rows[j] == row;
      assert j == k;
    }
    assert rows[k] in rows;
  }

  /** Rows with pairwise different names emit pairwise different records. */
  lemma {:induction false} EmittedDistinct(rows: seq<Row>)
    requires forall i, j | 0 <= i < j < |rows| :: rows[i].record.pattern != rows[j].record.pattern
    ensures Distinct(Emitted(rows))
    decreases |rows|
  {
    if |rows| > 0 {
      var rest := Emitted(rows[1..]);
      EmittedDistinct(rows[1..]);
      if rows[0].fires {
        forall p | p in rest
          ensures p.pattern != rows[0].record.pattern
        {
          var k :| 0 <= k < |rows[1..]| && rows[1..][k] == Row(true, p);
          assert rows[k + 1].record == p;
        }
        var r := [rows[0].record] + rest;
        forall i, j | 0 <= i < j < |r|
          ensures r[i].pattern != r[j].pattern
        {
          if i == 0 {
            assert r[j] == rest[j - 1];
            assert rest[j - 1] in rest;
          } else {
            assert r[i] == rest[i - 1] && r[j] == rest[j - 1];
          }
        }
      } else {
        assert Emitted(rows) == [] + rest;
      }
    }
  }

  /** Every row of the catalogue that fires carries a well-placed record of
      arity `k`. */
  ghost predicate RowsWellPlaced(rows: seq<Row>, trend: TrendLabel, k: nat)
  {
    forall row | row in rows && row.fires :: WellPlaced(row.record, trend) && Arity(row.record.pattern) == k
  }

  function SingleRows(curr: Candle, trend: TrendLabel): (rows: seq<Row>)
    ensures RowsWellPlaced(rows, trend, 1)
    ensures forall i, j | 0 <= i < j < |rows| :: rows[i].record.pattern != rows[j].record.pattern
  {
    var doji := IsDoji(curr);
    var kind := if doji.Some? then doji.value else Standard;
    [ Row(FiresOn(Hammer, [curr], trend, AsWritten), Reversal(Hammer, Bullish, 0, 0.80)),
      Row(FiresOn(HangingMan, [curr], trend, AsWritten), Reversal(HangingMan, Bearish, 0, 0.70)),
      Row(FiresOn(InvertedHammer, [curr], trend, AsWritten), Reversal(InvertedHammer, Bullish, 0, 0.65)),
      Row(FiresOn(ShootingStar, [curr], trend, AsWritten), Reversal(ShootingStar, Bearish, 0, 0.75)),
      Row(doji.Some?, Reversal(Doji(kind), Neutral, 0, DojiReliability(kind, trend))) ]
  }

  function TwoRows(prev: Candle, curr: Candle, trend: TrendLabel): (rows: seq<Row>)
    ensures RowsWellPlaced(rows, trend, 2)
    ensures forall i, j | 0 <= i < j < |rows| :: rows[i].record.pattern != rows[j].record.pattern
  {
    var harami := IsHarami(prev, curr);
    var direction := if harami.Some? then harami.value else Bullish;
    [ Row(FiresOn(BullishEngulfing, [prev, curr], trend, AsWritten), Reversal(BullishEngulfing, Bullish, -1, 0.90)),
      Row(FiresOn(BearishEngulfing, [prev, curr], trend, AsWritten), Reversal(BearishEngulfing, Bearish, -1, 0.90)),
      Row(FiresOn(Piercing, [prev, curr], trend, AsWritten), Reversal(Piercing, Bullish, -1, 0.80)),
      Row(FiresOn(DarkCloudCover, [prev, curr], trend, AsWritten), Reversal(DarkCloudCover, Bearish, -1, 0.80)),
      Row(harami.Some?, Reversal(Harami, direction, -1, 0.70)) ]
  }

  function ThreeRows(c1: Candle, c2: Candle, c3: Candle, trend: TrendLabel, reading: Reading): (rows: seq<Row>)
    ensures RowsWellPlaced(rows, trend, 3)
    ensures forall i, j | 0 <= i < j < |rows| :: rows[i].record.pattern != rows[j].record.pattern
  {
    [ Row(FiresOn(MorningStar, [c1, c2, c3], trend, AsWritten), Reversal(MorningStar, Bullish, -2, 0.95)),
      Row(FiresOn(EveningStar, [c1, c2, c3], trend, AsWritten), Reversal(EveningStar, Bearish, -2, 0.95)),
      Row(FiresOn(ThreeWhiteSoldiers, [c1, c2, c3], trend, AsWritten), Reversal(ThreeWhiteSoldiers, Bullish, -2, 0.85)),
      Row(FiresOn(ThreeBlackCrows, [c1, c2, c3], trend, reading), Reversal(ThreeBlackCrows, Bearish, -2, 0.85)) ]
  }

  /** The records of the catalogue rows that fire, duplicate-free and well placed. */
  function Group(rows: seq<Row>, trend: TrendLabel, k: nat): (r: seq<CandlestickPattern>)
    requires RowsWellPlaced(rows, trend, k)
    requires forall i, j | 0 <= i < j < |rows| :: rows[i].record.pattern != rows[j].record.pattern
    ensures forall p | p in r :: WellPlaced(p, trend) && Arity(p.pattern) == k
    ensures Distinct(r)
  {
    EmittedDistinct(rows);
    Emitted(rows)
  }

  /** The one-candle records on `curr`: hammer, hanging man, inverted hammer,
      shooting star, doji, in that order. */
  function SingleCandlePatterns(curr: Candle, trend: TrendLabel): (r: seq<CandlestickPattern>)
    ensures forall p | p in r :: WellPlaced(p, trend) && Arity(p.pattern) == 1
    ensures Distinct(r)
  {
    Group(SingleRows(curr, trend), trend, 1)
  }

  /** A one-candle pattern has a record exactly when it fires. */
  lemma SingleCandleNames(curr: Candle, trend: TrendLabel, reading: Reading, name: PatternName)
    requires Arity(name) == 1
    ensures (exists p | p in SingleCandlePatterns(curr, trend) :: p.pattern == name) <==> FiresOn(name, [curr], trend, reading)
  {
    var rows := SingleRows(curr, trend);
    EmittedNames(rows, name);
    var k := if name == Hammer then 0 else if name == HangingMan then 1
      else if name == InvertedHammer then 2 else if name == ShootingStar then 3 else 4;
    if rows[k].record.pattern == name {
      RowByName(rows, k, name);
    }
  }

  /** The two-candle records on `prev`, `curr`: engulfing both ways,
      piercing, dark cloud cover, harami, in that order. */
  function TwoCandlePatterns(prev: Candle, curr: Candle, trend: TrendLabel): (r: seq<CandlestickPattern>)
    ensures forall p | p in r :: WellPlaced(p, trend) && Arity(p.pattern) == 2
    ensures Distinct(r)
  {
    Group(TwoRows(prev, curr, trend), trend, 2)
  }

  /** A two-candle pattern has a record exactly when it fires. */
  lemma TwoCandleNames(prev: Candle, curr: Candle, trend: TrendLabel, reading: Reading, name: PatternName)
    requires Arity(name) == 2
    ensures (exists p | p in TwoCandlePatterns(prev, curr, trend) :: p.pattern == name) <==> FiresOn(name, [prev, curr], trend, reading)
  {
    var rows := TwoRows(prev, curr, trend);
    EmittedNames(rows, name);
    var k := if name == BullishEngulfing then 0 else if name == BearishEngulfing then 1
      else if name == Piercing then 2 else if name == DarkCloudCover then 3 else 4;
    RowByName(rows, k, name);
  }

  /** The three-candle records: morning star, evening star, three white
      soldiers, three black crows, in that order. */
  function ThreeCandlePatterns(c1: Candle, c2: Candle, c3: Candle, trend: TrendLabel, reading: Reading): (r: seq<CandlestickPattern>)
    ensures forall p | p in r :: WellPlaced(p, trend) && Arity(p.pattern) == 3
    ensures Distinct(r)
  {
    Group(ThreeRows(c1, c2, c3, trend, reading), trend, 3)
  }

  /** A three-candle pattern has a record exactly when it fires. */
  lemma ThreeCandleNames(c1: Candle, c2: Candle, c3: Candle, trend: TrendLabel, reading: Reading, name: PatternName)
    requires Arity(name) == 3
    ensures (exists p | p in ThreeCandlePatterns(c1, c2, c3, trend, reading) :: p.pattern == name)
        <==> FiresOn(name, [c1, c2, c3], trend, reading)
  {
    EmittedNames(ThreeRows(c1, c2, c3, trend, reading), name);
  }

  /** All patterns at the tail of `candles` under the given reading:
      single-candle ones on the last candle, two-candle ones when there are
      at least two candles, and three-candle ones when there are at least
      three. */
  function PatternsAtTail(candles: seq<Candle>, trend: TrendLabel, reading: Reading): (r: seq<CandlestickPattern>)
    ensures |candles| == 0 ==> r == []
    ensures forall p | p in r :: WellPlaced(p, trend)
    ensures forall p | p in r :: -|candles| < p.position <= 0
    ensures forall name :: (exists p | p in r :: p.pattern == name) <==> Fires(name, candles, trend, reading)
    ensures Distinct(r)
  {
    var n := |candles|;
    if n < 1 then []
    else
      var single := SingleCandlePatterns(candles[n - 1], trend);
      var double := if n >= 2 then TwoCandlePatterns(candles[n - 2], candles[n - 1], trend) else [];
      var triple := if n >= 3 then ThreeCandlePatterns(candles[n - 3], candles[n - 2], candles[n - 1], trend, reading) else [];
      forall name | Arity(name) == 1
        ensures (exists p | p in single :: p.pattern == name) <==> FiresOn(name, [candles[n - 1]], trend, reading)
      {
        SingleCandleNames(candles[n - 1], trend, reading, name);
      }
      forall name | n >= 2 && Arity(name) == 2
        ensures (exists p | p in double :: p.pattern == name) <==> FiresOn(name, [candles[n - 2], candles[n - 1]], trend, reading)
      {
        TwoCandleNames(candles[n - 2], candles[n - 1], trend, reading, name);
      }
      forall name | n >= 3 && Arity(name) == 3
        ensures (exists p | p in triple :: p.pattern == name)
            <==> FiresOn(name, [candles[n - 3], candles[n - 2], candles[n - 1]], trend, reading)
      {
        ThreeCandleNames(candles[n - 3], candles[n - 2], candles[n - 1], trend, reading, name);
      }
      CombineTails(candles, trend, reading, single, double, triple);
      single + double + triple
  }

  /** The recogniser as the source runs it. Its three-black-crows test can
      never hold, so that pattern is never reported. */
  function IdentifyPatterns(candles: seq<Candle>, trend: TrendLabel): (r: seq<CandlestickPattern>)
    ensures |candles| == 0 ==> r == []
    ensures forall p | p in r :: WellPlaced(p, trend)
    ensures forall p | p in r :: -|candles| < p.position <= 0
    ensures forall name :: (exists p | p in r :: p.pattern == name) <==> Fires(name, candles, trend, AsWritten)
    ensures forall p | p in r :: p.pattern != ThreeBlackCrows
    ensures Distinct(r)
  {
    AsWrittenThreeBlackCrowsNeverFires(candles, trend);
    PatternsAtTail(candles, trend, AsWritten)
  }

  lemma AsWrittenThreeBlackCrowsNeverFires(candles: seq<Candle>, trend: TrendLabel)
    ensures !Fires(ThreeBlackCrows, candles, trend, AsWritten)
  {
    var n := |candles|;
    if n >= 3 {
      ThreeBlackCrowsAsWrittenNeverHolds(candles[n - 3], candles[n - 2], candles[n - 1], trend);
    }
  }

  /** The recogniser with the intended three-black-crows test. */
  function IdentifyPatternsIntended(candles: seq<Candle>, trend: TrendLabel): (r: seq<CandlestickPattern>)
    ensures |candles| == 0 ==> r == []
    ensures forall p | p in r :: WellPlaced(p, trend)
    ensures forall p | p in r :: -|candles| < p.position <= 0
    ensures forall name :: (exists p | p in r :: p.pattern == name) <==> Fires(name, candles, trend, Intended)
    ensures Distinct(r)
  {
    PatternsAtTail(candles, trend, Intended)
  }

  /** The two readings differ only in the three-black-crows record, which
      the intended recogniser appends when its test holds on the last three
      candles. */
  lemma IntendedAddsOnlyThreeBlackCrows(candles: seq<Candle>, trend: TrendLabel)
    ensures IdentifyPatternsIntended(candles, trend)
         == IdentifyPatterns(candles, trend)
            + (if Fires(ThreeBlackCrows, candles, trend, Intended) then [Reversal(ThreeBlackCrows, Bearish, -2, 0.85)] else [])
  {
    PatternsAtTailIsGroups(candles, trend, AsWritten);
    PatternsAtTailIsGroups(candles, trend, Intended);
    ReadingsDiffer(candles, trend);
  }

  /** The arity groups of the tail, concatenated. */
  function TailGroups(candles: seq<Candle>, trend: TrendLabel, reading: Reading): seq<CandlestickPattern>
  {
    var n := |candles|;
    if n < 1 then []
    else
      SingleCandlePatterns(candles[n - 1], trend)
      + (if n >= 2 then TwoCandlePatterns(candles[n - 2], candles[n - 1], trend) else [])
      + (if n >= 3 then ThreeCandlePatterns(candles[n - 3], candles[n - 2], candles[n - 1], trend, reading) else [])
  }

  lemma PatternsAtTailIsGroups(candles: seq<Candle>, trend: TrendLabel, reading: Reading)
    ensures PatternsAtTail(candles, trend, reading) == TailGroups(candles, trend, reading)
  {
  }

  lemma ReadingsDiffer(candles: seq<Candle>, trend: TrendLabel)
    ensures TailGroups(candles, trend, Intended)
         == TailGroups(candles, trend, AsWritten)
            + (if Fires(ThreeBlackCrows, candles, trend, Intended) then [Reversal(ThreeBlackCrows, Bearish, -2, 0.85)] else [])
  {
    FiresThreeBlackCrows(candles, trend);
    if |candles| >= 3 {
      TailGroupsOnThree(candles, trend);
    }
  }

  lemma FiresThreeBlackCrows(candles: seq<Candle>, trend: TrendLabel)
    ensures var n := |candles|;
      Fires(ThreeBlackCrows, candles, trend, Intended)
      <==> n >= 3 && IsThreeBlackCrows(candles[n - 3], candles[n - 2], candles[n - 1], trend)
  {
    var n := |candles|;
    if n >= 3 {
      assert candles[n - 3..] == [candles[n - 3], candles[n - 2], candles[n - 1]];
    }
  }

  lemma TailGroupsSplit(candles: seq<Candle>, trend: TrendLabel, reading: Reading)
    ensures var n := |candles|;
      n >= 3 ==>
      TailGroups(candles, trend, reading)
      == SingleCandlePatterns(candles[n - 1], trend) + TwoCandlePatterns(candles[n - 2], candles[n - 1], trend)
         + ThreeCandlePatterns(candles[n - 3], candles[n - 2], candles[n - 1], trend, reading)
  {
  }

  lemma TailGroupsOnThree(candles: seq<Candle>, trend: TrendLabel)
    requires |candles| >= 3
    ensures var n := |candles|;
      TailGroups(candles, trend, Intended)
      == TailGroups(candles, trend, AsWritten)
         + (if IsThreeBlackCrows(candles[n - 3], candles[n - 2], candles[n - 1], trend)
            then [Reversal(ThreeBlackCrows, Bearish, -2, 0.85)] else [])
  {
    TailGroupsSplit(candles, trend, AsWritten);
    TailGroupsIntended(candles, trend);
  }

  lemma TailGroupsIntended(candles: seq<Candle>, trend: TrendLabel)
    requires |candles| >= 3
    ensures var n := |candles|;
      var c1, c2, c3 := candles[n - 3], candles[n - 2], candles[n - 1];
      TailGroups(candles, trend, Intended)
      == SingleCandlePatterns(c3, trend) + TwoCandlePatterns(c2, c3, trend)
         + ThreeCandlePatterns(c1, c2, c3, trend, AsWritten)
         + (if IsThreeBlackCrows(c1, c2, c3, trend) then [Reversal(ThreeBlackCrows, Bearish, -2, 0.85)] else [])
  {
    var n := |candles|;
    GlueIntended(candles, trend, candles[n - 3], candles[n - 2], candles[n - 1]);
  }

  lemma GlueIntended(candles: seq<Candle>, trend: TrendLabel, c1: Candle, c2: Candle, c3: Candle)
    requires |candles| >= 3 && candles[|candles| - 3..] == [c1, c2, c3]
    ensures TailGroups(candles, trend, Intended)
      == SingleCandlePatterns(c3, trend) + TwoCandlePatterns(c2, c3, trend)
         + ThreeCandlePatterns(c1, c2, c3, trend, AsWritten)
         + (if IsThreeBlackCrows(c1, c2, c3, trend) then [Reversal(ThreeBlackCrows, Bearish, -2, 0.85)] else [])
  {
    TailGroupsSplit(candles, trend, Intended);
    ThreeCandleReadings(c1, c2, c3, trend);
    AppendAssoc(SingleCandlePatterns(c3, trend) + TwoCandlePatterns(c2, c3, trend),
                ThreeCandlePatterns(c1, c2, c3, trend, AsWritten),
                if IsThreeBlackCrows(c1, c2, c3, trend) then [Reversal(ThreeBlackCrows, Bearish, -2, 0.85)] else []);
  }

  lemma AppendAssoc(a: seq<CandlestickPattern>, b: seq<CandlestickPattern>, c: seq<CandlestickPattern>)
    ensures a + (b + c) == a + b + c
  {
  }

  /** The three-candle group under the intended reading is the as-written
      group plus the three-black-crows record when the intended test holds. */
  lemma ThreeCandleReadings(c1: Candle, c2: Candle, c3: Candle, trend: TrendLabel)
    ensures ThreeCandlePatterns(c1, c2, c3, trend, Intended)
         == ThreeCandlePatterns(c1, c2, c3, trend, AsWritten)
            + (if IsThreeBlackCrows(c1, c2, c3, trend) then [Reversal(ThreeBlackCrows, Bearish, -2, 0.85)] else [])
  {
    var written, intended := ThreeRows(c1, c2, c3, trend, AsWritten), ThreeRows(c1, c2, c3, trend, Intended);
    var crows := Row(IsThreeBlackCrows(c1, c2, c3, trend), Reversal(ThreeBlackCrows, Bearish, -2, 0.85));
    ThreeBlackCrowsAsWrittenNeverHolds(c1, c2, c3, trend);
    assert written == written[..3] + [Row(false, crows.record)];
    assert intended == written[..3] + [crows];
    EmittedSnoc(written[..3], Row(false, crows.record));
    EmittedSnoc(written[..3], crows);
  }

  /** Appending a row appends its record when it fires. */
  lemma {:induction false} EmittedSnoc(rows: seq<Row>, row: Row)
    ensures Emitted(rows + [row]) == Emitted(rows) + (if row.fires then [row.record] else [])
    decreases |rows|
  {
    if |rows| > 0 {
      assert (rows + [row])[1..] == rows[1..] + [row];
      EmittedSnoc(rows[1..], row);
    }
  }

  /** The three arity groups glue together into one duplicate-free list whose
      names are exactly the patterns that fire. */
  lemma CombineTails(candles: seq<Candle>, trend: TrendLabel, reading: Reading,
                     single: seq<CandlestickPattern>, double: seq<CandlestickPattern>, triple: seq<CandlestickPattern>)
    requires |candles| >= 1
    requires forall p | p in single :: WellPlaced(p, trend) && Arity(p.pattern) == 1
    requires forall p | p in double :: WellPlaced(p, trend) && Arity(p.pattern) == 2
    requires forall p | p in triple :: WellPlaced(p, trend) && Arity(p.pattern) == 3
    requires Distinct(single) && Distinct(double) && Distinct(triple)
    requires forall name | Arity(name) == 1 ::
      (exists p | p in single :: p.pattern == name) <==> FiresOn(name, [candles[|candles| - 1]], trend, reading)
    requires |candles| >= 2 ==> forall name | Arity(name) == 2 ::
      (exists p | p in double :: p.pattern == name) <==> FiresOn(name, [candles[|candles| - 2], candles[|candles| - 1]], trend, reading)
    requires |candles| < 2 ==> double == []
    requires |candles| >= 3 ==> forall name | Arity(name) == 3 ::
      (exists p | p in triple :: p.pattern == name) <==> FiresOn(name, [candles[|candles| - 3], candles[|candles| - 2], candles[|candles| - 1]], trend, reading)
    requires |candles| < 3 ==> triple == []
    ensures forall p | p in single + double + triple :: WellPlaced(p, trend) && 1 <= Arity(p.pattern) <= |candles|
    ensures forall name :: (exists p | p in single + double + triple :: p.pattern == name) <==> Fires(name, candles, trend, reading)
    ensures Distinct(single + double + triple)
  {
    forall name
      ensures (exists p | p in single + double + triple :: p.pattern == name) <==> Fires(name, candles, trend, reading)
    {
      CombineOne(candles, trend, reading, single, double, triple, name);
    }
    DistinctConcat(single, double, triple);
  }

  lemma CombineOne(candles: seq<Candle>, trend: TrendLabel, reading: Reading,
                   single: seq<CandlestickPattern>, double: seq<CandlestickPattern>, triple: seq<CandlestickPattern>,
                   name: PatternName)
    requires |candles| >= 1
    requires forall p | p in single :: Arity(p.pattern) == 1
    requires forall p | p in double :: Arity(p.pattern) == 2
    requires forall p | p in triple :: Arity(p.pattern) == 3
    requires forall name | Arity(name) == 1 ::
      (exists p | p in single :: p.pattern == name) <==> FiresOn(name, [candles[|candles| - 1]], trend, reading)
    requires |candles| >= 2 ==> forall name | Arity(name) == 2 ::
      (exists p | p in double :: p.pattern == name) <==> FiresOn(name, [candles[|candles| - 2], candles[|candles| - 1]], trend, reading)
    requires |candles| < 2 ==> double == []
    requires |candles| >= 3 ==> forall name | Arity(name) == 3 ::
      (exists p | p in triple :: p.pattern == name) <==> FiresOn(name, [candles[|candles| - 3], candles[|candles| - 2], candles[|candles| - 1]], trend, reading)
    requires |candles| < 3 ==> triple == []
    ensures (exists p | p in single + double + triple :: p.pattern == name) <==> Fires(name, candles, trend, reading)
  {
    var n := |candles|;
    ExistsInConcat(single, double, triple, name);
    if Arity(name) == 1 {
      NoneOfOtherArity(double, name, 2);
      NoneOfOtherArity(triple, name, 3);
      TailOne(candles, trend, reading, name);
    } else if Arity(name) == 2 {
      NoneOfOtherArity(single, name, 1);
      NoneOfOtherArity(triple, name, 3);
      if n >= 2 {
        TailTwo(candles, trend, reading, name);
      }
    } else {
      NoneOfOtherArity(single, name, 1);
      NoneOfOtherArity(double, name, 2);
      if n >= 3 {
        TailThree(candles, trend, reading, name);
      }
    }
  }

  lemma NoneOfOtherArity(ps: seq<CandlestickPattern>, name: PatternName, k: nat)
    requires forall p | p in ps :: Arity(p.pattern) == k
    requires Arity(name) != k
    ensures !(exists p | p in ps :: p.pattern == name)
  {
  }

  lemma TailOne(candles: seq<Candle>, trend: TrendLabel, reading: Reading, name: PatternName)
    requires |candles| >= 1 && Arity(name) == 1
    ensures Fires(name, candles, trend, reading) == FiresOn(name, [candles[|candles| - 1]], trend, reading)
  {
    assert candles[|candles| - 1..] == [candles[|candles| - 1]];
  }

  lemma TailTwo(candles: seq<Candle>, trend: TrendLabel, reading: Reading, name: PatternName)
    requires |candles| >= 2 && Arity(name) == 2
    ensures Fires(name, candles, trend, reading) == FiresOn(name, [candles[|candles| - 2], candles[|candles| - 1]], trend, reading)
  {
    assert candles[|candles| - 2..] == [candles[|candles| - 2], candles[|candles| - 1]];
  }

  lemma TailThree(candles: seq<Candle>, trend: TrendLabel, reading: Reading, name: PatternName)
    requires |candles| >= 3 && Arity(name) == 3
    ensures Fires(name, candles, trend, reading) == FiresOn(name, [candles[|candles| - 3], candles[|candles| - 2], candles[|candles| - 1]], trend, reading)
  {
    assert candles[|candles| - 3..] == [candles[|candles| - 3], candles[|candles| - 2], candles[|candles| - 1]];
  }

  lemma ExistsInConcat(a: seq<CandlestickPattern>, b: seq<CandlestickPattern>, c: seq<CandlestickPattern>, name: PatternName)
    ensures (exists p | p in a + b + c :: p.pattern == name) <==>
      (exists p | p in a :: p.pattern == name) || (exists p | p in b :: p.pattern == name) || (exists p | p in c :: p.pattern == name)
  {
    if exists p | p in a + b + c :: p.pattern == name {
      var p :| p in a + b + c && p.pattern == name;
      assert p in a || p in b || p in c;
    }
    if exists p | p in a :: p.pattern == name {
      var p :| p in a && p.pattern == name;
      assert p in a + b + c;
    }
    if exists p | p in b :: p.pattern == name {
      var p :| p in b && p.pattern == name;
      assert p in a + b + c;
    }
    if exists p | p in c :: p.pattern == name {
      var p :| p in c && p.pattern == name;
      assert p in a + b + c;
    }
  }

  lemma DistinctConcat(a: seq<CandlestickPattern>, b: seq<CandlestickPattern>, c: seq<CandlestickPattern>)
    requires Distinct(a) && Distinct(b) && Distinct(c)
    requires forall p | p in a :: Arity(p.pattern) == 1
    requires forall p | p in b :: Arity(p.pattern) == 2
    requires forall p | p in c :: Arity(p.pattern) == 3
    ensures Distinct(a + b + c)
  {
    var r := a + b + c;
    forall i, j | 0 <= i < j < |r|
      ensures r[i].pattern != r[j].pattern
    {
      if j < |a| {
        assert r[i] == a[i] && r[j] == a[j];
      } else if i >= |a| + |b| {
        assert r[i] == c[i - |a| - |b|] && r[j] == c[j - |a| - |b|];
      } else if |a| <= i && j < |a| + |b| {
        assert r[i] == b[i - |a|] && r[j] == b[j - |a|];
      } else {
        assert r[i] in r && r[j] in r;
        assert Arity(r[i].pattern) != Arity(r[j].pattern);
      }
    }
  }

  /** Under a ranging trend only doji and harami records can appear. */
  lemma RangingOnlyDojiOrHarami(candles: seq<Candle>)
    ensures forall p | p in IdentifyPatterns(candles, Ranging) :: p.pattern.Doji? || p.pattern == Harami
  {
    forall p | p in IdentifyPatterns(candles, Ranging)
      ensures p.pattern.Doji? || p.pattern == Harami
    {
      assert WellPlaced(p, Ranging);
      UngatedNames(p.pattern);
    }
  }

  /** No pattern is gated on a ranging market; only the doji and the
      harami are not gated at all. */
  lemma UngatedNames(name: PatternName)
    ensures RequiredTrend(name) != Some(Ranging)
    ensures RequiredTrend(name) == None ==> name.Doji? || name == Harami
  {
  }

  /** With a single candle every record sits at position 0. */
  lemma OneCandleOnlyPositionZero(c: Candle, trend: TrendLabel)
    ensures forall p | p in IdentifyPatterns([c], trend) :: p.position == 0
  {
    forall p | p in IdentifyPatterns([c], trend)
      ensures p.position == 0
    {
      assert WellPlaced(p, trend) && 1 <= Arity(p.pattern) <= 1;
    }
  }

  // ---------------------------------------------------------------------
  // Price mirror (Model.Mirror): negating every price turns a bullish
  // pattern into its bearish counterpart, with the trend label flipped.

  lemma MirrorGeometry(c: Candle)
    ensures Body(Mirror(c)) == Body(c)
    ensures UpperShadow(Mirror(c)) == LowerShadow(c)
    ensures LowerShadow(Mirror(c)) == UpperShadow(c)
    ensures Range(Mirror(c)) == Range(c)
  {
  }

  /** Bearish engulfing, dark cloud cover, evening star and (corrected) three
      black crows are the price mirrors of their bullish counterparts. */
  lemma BearishPatternsMirrorBullish(c1: Candle, c2: Candle, c3: Candle, trend: TrendLabel)
    ensures IsBearishEngulfing(c2, c3, trend) <==> IsBullishEngulfing(Mirror(c2), Mirror(c3), FlipTrend(trend))
    ensures IsDarkCloudCover(c2, c3, trend) <==> IsPiercingPattern(Mirror(c2), Mirror(c3), FlipTrend(trend))
    ensures IsEveningStar(c1, c2, c3, trend) <==> IsMorningStar(Mirror(c1), Mirror(c2), Mirror(c3), FlipTrend(trend))
    ensures IsThreeBlackCrows(c1, c2, c3, trend) <==>
      IsThreeWhiteSoldiers(Mirror(c1), Mirror(c2), Mirror(c3), FlipTrend(trend))
    ensures IsHangingMan(c3, trend) <==> IsInvertedHammer(Mirror(c3), FlipTrend(trend))
  {
    MirrorGeometry(c1);
    MirrorGeometry(c2);
    MirrorGeometry(c3);
    var m2, m3 := Mirror(c2), Mirror(c3);
    if c2.close != c2.open {
      assert (m3.close - m2.close) / (m2.open - m2.close) == (c2.close - c3.close) / (c2.close - c2.open);
    }
  }

  /** Mirroring swaps bullish and bearish harami. */
  lemma HaramiMirror(prev: Candle, curr: Candle)
    ensures IsHarami(prev, curr) == Some(Bullish) <==> IsHarami(Mirror(prev), Mirror(curr)) == Some(Bearish)
    ensures IsHarami(prev, curr) == None <==> IsHarami(Mirror(prev), Mirror(curr)) == None
  {
  }

  /** Mirroring swaps dragonfly and gravestone doji. */
  lemma DojiMirror(c: Candle)
    requires Range(c) > 0.0
    ensures IsDoji(c) == Some(Dragonfly) <==> IsDoji(Mirror(c)) == Some(Gravestone)
    ensures IsDoji(c) == None <==> IsDoji(Mirror(c)) == None
  {
    MirrorGeometry(c);
  }

  /** On a candle with a positive range the dragonfly and gravestone shapes
      exclude each other, so the test order between them does not matter. */
  lemma DragonflyGravestoneExclusive(c: Candle)
    requires Range(c) > 0.0
    ensures !(LowerShadow(c) > Range(c) * 0.6 && UpperShadow(c) < Range(c) * 0.1
              && UpperShadow(c) > Range(c) * 0.6 && LowerShadow(c) < Range(c) * 0.1)
  {
  }

  /** The source's three-black-crows test can never hold. */
  lemma ThreeBlackCrowsAsWrittenNeverHolds(c1: Candle, c2: Candle, c3: Candle, trend: TrendLabel)
    ensures !IsThreeBlackCrowsAsWritten(c1, c2, c3, trend)
  {
  }

  /** A textbook three-black-crows sequence that the corrected test accepts
      and the source's test rejects. */
  lemma ThreeBlackCrowsWitness()
    ensures var c1 := Candle(0, 100.0, 101.0, 89.0, 90.0, 1.0);
            var c2 := Candle(1, 95.0, 96.0, 84.0, 85.0, 1.0);
            var c3 := Candle(2, 90.0, 91.0, 79.0, 80.0, 1.0);
            IsThreeBlackCrows(c1, c2, c3, Rising) && !IsThreeBlackCrowsAsWritten(c1, c2, c3, Rising)
  {
  }
}
