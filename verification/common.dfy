/** Numeric helpers over `real` shared by the indicators and services:
    absolute value, min/max, clamping, sums, means and sequence extrema,
    together with the bounds the indicator proofs lean on. */
module Common {

  /** An absent-or-present value; stands for Go's nil pointer results. */
  datatype Option<+T> = None | Some(value: T)

  function Abs(x: real): (r: real)
    ensures r >= 0.0 && (r == x || r == -x)
  {
    if x < 0.0 then -x else x
  }

  /** math.Max */
  function Max(a: real, b: real): (r: real)
    ensures r >= a && r >= b && (r == a || r == b)
  {
    if a >= b then a else b
  }

  /** math.Min */
  function Min(a: real, b: real): (r: real)
    ensures r <= a && r <= b && (r == a || r == b)
  {
    if a <= b then a else b
  }

  /** math.Max(lo, math.Min(hi, x)) */
  function Clamp(x: real, lo: real, hi: real): (r: real)
    requires lo <= hi
    ensures lo <= r <= hi
    ensures lo <= x <= hi ==> r == x
    ensures x < lo ==> r == lo
    ensures x > hi ==> r == hi
  {
    Max(lo, Min(hi, x))
  }

  /** Left-to-right sum, as the Go accumulation loops compute it. */
  function Sum(s: seq<real>): real
  {
    if |s| == 0 then 0.0 else Sum(s[..|s| - 1]) + s[|s| - 1]
  }

  /** `average` in sr_level.go: 0 for an empty slice. */
  function Mean(s: seq<real>): real
  {
    if |s| == 0 then 0.0 else Sum(s) / (|s| as real)
  }

  lemma SumAppend(a: seq<real>, b: seq<real>)
    ensures Sum(a + b) == Sum(a) + Sum(b)
    decreases |b|
  {
    if |b| == 0 {
      assert a + b == a;
    } else {
      assert (a + b)[..|a + b| - 1] == a + b[..|b| - 1];
      SumAppend(a, b[..|b| - 1]);
    }
  }

  lemma SumBounds(s: seq<real>, lo: real, hi: real)
    requires forall i | 0 <= i < |s| :: lo <= s[i] <= hi
    ensures (|s| as real) * lo <= Sum(s) <= (|s| as real) * hi
    decreases |s|
  {
    if |s| > 0 {
      SumBounds(s[..|s| - 1], lo, hi);
    }
  }

  lemma SumConstant(s: seq<real>, c: real)
    requires forall i | 0 <= i < |s| :: s[i] == c
    ensures Sum(s) == (|s| as real) * c
    decreases |s|
  {
    if |s| > 0 {
      SumConstant(s[..|s| - 1], c);
    }
  }

  lemma DivBounds(a: real, n: real, lo: real, hi: real)
    requires n > 0.0
    requires n * lo <= a <= n * hi
    ensures lo <= a / n <= hi
  {
    var q := a / n;
    assert q * n == a;
  }

  /** A mean lies between any bounds of its members. */
  lemma MeanBounds(s: seq<real>, lo: real, hi: real)
    requires |s| > 0
    requires forall i | 0 <= i < |s| :: lo <= s[i] <= hi
    ensures lo <= Mean(s) <= hi
  {
    SumBounds(s, lo, hi);
    DivBounds(Sum(s), |s| as real, lo, hi);
  }

  lemma MeanConstant(s: seq<real>, c: real)
    requires |s| > 0
    requires forall i | 0 <= i < |s| :: s[i] == c
    ensures Mean(s) == c
  {
    SumConstant(s, c);
  }

  /** The least element. That it is an element is the separate lemma
      SeqMinIn, so that callers pay for it only where they need it. */
  function SeqMin(s: seq<real>): (r: real)
    requires |s| > 0
    ensures forall i | 0 <= i < |s| :: r <= s[i]
    decreases |s|
  {
    if |s| == 1 then s[0] else Min(SeqMin(s[..|s| - 1]), s[|s| - 1])
  }

  /** The greatest element; SeqMaxIn shows it is one of the elements. */
  function SeqMax(s: seq<real>): (r: real)
    requires |s| > 0
    ensures forall i | 0 <= i < |s| :: s[i] <= r
    decreases |s|
  {
    if |s| == 1 then s[0] else Max(SeqMax(s[..|s| - 1]), s[|s| - 1])
  }

  lemma {:induction false} SeqMinIn(s: seq<real>)
    requires |s| > 0
    ensures SeqMin(s) in s
    decreases |s|
  {
    if |s| > 1 {
      SeqMinIn(s[..|s| - 1]);
    }
  }

  lemma {:induction false} SeqMaxIn(s: seq<real>)
    requires |s| > 0
    ensures SeqMax(s) in s
    decreases |s|
  {
    if |s| > 1 {
      SeqMaxIn(s[..|s| - 1]);
    }
  }

  lemma MulNonNegative(x: real, y: real)
    requires x >= 0.0 && y >= 0.0
    ensures x * y >= 0.0
  {
  }

  lemma MulPositive(x: real, y: real)
    requires x > 0.0 && y > 0.0
    ensures x * y > 0.0
  {
  }

  /** `(a - b) * m + b` with 0 < m <= 1 stays between common bounds of a and b. */
  lemma ConvexStep(a: real, b: real, m: real, lo: real, hi: real)
    requires 0.0 < m <= 1.0
    requires lo <= a <= hi && lo <= b <= hi
    ensures lo <= (a - b) * m + b <= hi
  {
    var v := (a - b) * m + b;
    assert v - lo == m * (a - lo) + (1.0 - m) * (b - lo);
    assert hi - v == m * (hi - a) + (1.0 - m) * (hi - b);
    MulNonNegative(m, a - lo);
    MulNonNegative(1.0 - m, b - lo);
    MulNonNegative(m, hi - a);
    MulNonNegative(1.0 - m, hi - b);
  }

  lemma DivSum(a: real, b: real, d: real)
    requires d != 0.0
    ensures a / d + b / d == (a + b) / d
  {
  }

  /** 0 <= a/b <= 1 when 0 <= a <= b and b > 0. */
  lemma FractionInUnit(a: real, b: real)
    requires b > 0.0 && 0.0 <= a <= b
    ensures 0.0 <= a / b <= 1.0
  {
    DivBounds(a, b, 0.0, 1.0);
  }
}
