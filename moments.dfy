/** Sums, means and sums of squared deviations of lists of reals, and the
    pairwise combination of two lists' statistics (Chan, Golub and
    LeVeque): the mean and squared-deviation sum of a concatenation follow
    from those of its two parts and their sizes alone. */
module Moments {
  import opened Vec

  /** The sum of squares. */
  function SumSq(xs: seq<real>): real {
    if xs == [] then 0.0 else xs[0] * xs[0] + SumSq(xs[1..])
  }

  /** The sum of squared deviations from `m`. */
  function Deviation(xs: seq<real>, m: real): real {
    if xs == [] then 0.0 else (xs[0] - m) * (xs[0] - m) + Deviation(xs[1..], m)
  }

  function MeanOf(xs: seq<real>): real
    requires |xs| > 0
  {
    Sum(xs) / |xs| as real
  }

  /** The sum of squares about the mean, in its expanded form
      `Q - n * mean^2`; `M2IsDeviation` shows it is the sum of squared
      deviations from the mean. */
  function M2(xs: seq<real>): real
    requires |xs| > 0
  {
    M2Of(|xs| as real, Sum(xs), SumSq(xs))
  }

  /** `Q - n * (S / n)^2` from a list's size `n`, sum `S` and sum of squares `Q`. */
  function M2Of(n: real, s: real, q: real): real
    requires n > 0.0
  {
    q - n * ((s / n) * (s / n))
  }

  /** The variance with divisor `n`, as `colwise().mean()` of squared deviations. */
  function PopulationVariance(xs: seq<real>): real
    requires |xs| > 0
  {
    M2(xs) / |xs| as real
  }

  /** The variance with divisor `n - 1`. */
  function SampleVariance(xs: seq<real>): real
    requires |xs| > 1
  {
    M2(xs) / (|xs| - 1) as real
  }

  lemma {:induction false} SumAppend(xs: seq<real>, ys: seq<real>)
    ensures Sum(xs + ys) == Sum(xs) + Sum(ys)
  {
    if xs != [] {
      assert (xs + ys)[1..] == xs[1..] + ys;
      SumAppend(xs[1..], ys);
    } else {
      assert xs + ys == ys;
    }
  }

  lemma {:induction false} SumSqAppend(xs: seq<real>, ys: seq<real>)
    ensures SumSq(xs + ys) == SumSq(xs) + SumSq(ys)
  {
    if xs != [] {
      assert (xs + ys)[1..] == xs[1..] + ys;
      SumSqAppend(xs[1..], ys);
    } else {
      assert xs + ys == ys;
    }
  }

  /** `m * xs[0] + m * xs[1] + ...`, and `c` added once per element. */
  function Cross(xs: seq<real>, m: real): real {
    if xs == [] then 0.0 else m * xs[0] + Cross(xs[1..], m)
  }

  function Repeat(xs: seq<real>, c: real): real {
    if xs == [] then 0.0 else c + Repeat(xs[1..], c)
  }

  lemma {:induction false} CrossIsProduct(xs: seq<real>, m: real)
    ensures Cross(xs, m) == m * Sum(xs)
  {
    if xs != [] {
      CrossIsProduct(xs[1..], m);
    }
  }

  lemma {:induction false} RepeatIsProduct(xs: seq<real>, c: real)
    ensures Repeat(xs, c) == |xs| as real * c
  {
    if xs != [] {
      RepeatIsProduct(xs[1..], c);
    }
  }

  lemma SquareExpand(x: real, m: real)
    ensures (x - m) * (x - m) == x * x - 2.0 * (m * x) + m * m
  {
  }

  /** The expansion term by term. */
  lemma {:induction false} DeviationTerms(xs: seq<real>, m: real)
    ensures Deviation(xs, m) == SumSq(xs) - 2.0 * Cross(xs, m) + Repeat(xs, m * m)
  {
    if xs != [] {
      DeviationTerms(xs[1..], m);
      SquareExpand(xs[0], m);
    }
  }

  /** Expanding the square: the deviation sum is `Q - 2mS + n m^2`. */
  lemma {:induction false} DeviationExpand(xs: seq<real>, m: real)
    ensures Deviation(xs, m) == SumSq(xs) - 2.0 * (m * Sum(xs)) + |xs| as real * (m * m)
  {
    DeviationTerms(xs, m);
    CrossIsProduct(xs, m);
    RepeatIsProduct(xs, m * m);
  }

  /** The expanded form is the sum of squared deviations from the mean. */
  lemma {:induction false} M2IsDeviation(xs: seq<real>)
    requires |xs| > 0
    ensures M2(xs) == Deviation(xs, MeanOf(xs))
  {
    var q, s, n, m := SumSq(xs), Sum(xs), |xs| as real, MeanOf(xs);
    DeviationExpand(xs, m);
    AroundMean(q, s, n, m);
  }

  lemma AroundMean(q: real, s: real, n: real, m: real)
    requires n > 0.0 && m == s / n
    ensures q - 2.0 * (m * s) + n * (m * m) == M2Of(n, s, q)
  {
    assert s == n * m;
  }

  /** The algebraic core of the pairwise combination, over the two means
      `x`, `y` and sizes `a`, `b`. */
  lemma PooledSquares(a: real, b: real, x: real, y: real)
    requires a > 0.0 && b > 0.0
    ensures (a + b) * ((a * x + b * y) / (a + b)) * ((a * x + b * y) / (a + b))
            == a * x * x + b * y * y - a * b * (y - x) * (y - x) / (a + b)
  {
    var t := a + b;
    var m := (a * x + b * y) / t;
    assert m * t == a * x + b * y;
    assert (a * x + b * y) * (a * x + b * y) == t * (a * x * x + b * y * y) - a * b * (y - x) * (y - x);
    calc {
      t * m * m;
      (m * t) * (m * t) / t;
      (a * x + b * y) * (a * x + b * y) / t;
      (t * (a * x * x + b * y * y) - a * b * (y - x) * (y - x)) / t;
      a * x * x + b * y * y - a * b * (y - x) * (y - x) / t;
    }
  }

  /** The cross term of the pairwise combination: `a b (y - x)^2 / (a + b)`
      for parts of sizes `a`, `b` and means `x`, `y`. */
  function Pair(a: real, b: real, x: real, y: real): real
    requires a + b != 0.0
  {
    a * b * (y - x) * (y - x) / (a + b)
  }

  /** The mean of a concatenation is the size-weighted mean of the parts' means. */
  lemma {:induction false} PooledMean(xs: seq<real>, ys: seq<real>)
    requires |xs| > 0 && |ys| > 0
    ensures MeanOf(xs + ys) == (|xs| as real * MeanOf(xs) + |ys| as real * MeanOf(ys)) / (|xs| + |ys|) as real
  {
    var a, b, sx, sy := |xs| as real, |ys| as real, Sum(xs), Sum(ys);
    var mx, my, m := MeanOf(xs), MeanOf(ys), MeanOf(xs + ys);
    assert m == (sx + sy) / (a + b) by {
      SumAppend(xs, ys);
      assert |xs + ys| as real == a + b;
    }
    assert (sx + sy) / (a + b) == (a * mx + b * my) / (a + b) by {
      WeightedMean(a, b, sx, sy, mx, my);
    }
    assert (|xs| + |ys|) as real == a + b;
  }

  lemma WeightedMean(a: real, b: real, sx: real, sy: real, mx: real, my: real)
    requires a > 0.0 && b > 0.0 && mx == sx / a && my == sy / b
    ensures (sx + sy) / (a + b) == (a * mx + b * my) / (a + b)
  {
    assert a * mx == sx && b * my == sy;
  }

  /** Chan, Golub and LeVeque: the deviation sum of a concatenation is the
      parts' deviation sums plus the cross term of their sizes and means. */
  lemma {:induction false} PooledDeviation(xs: seq<real>, ys: seq<real>)
    requires |xs| > 0 && |ys| > 0
    ensures M2(xs + ys) == M2(xs) + M2(ys) + Pair(|xs| as real, |ys| as real, MeanOf(xs), MeanOf(ys))
  {
    SumAppend(xs, ys);
    SumSqAppend(xs, ys);
    assert |xs + ys| as real == |xs| as real + |ys| as real;
    PooledSummary(|xs| as real, |ys| as real, Sum(xs), Sum(ys), SumSq(xs), SumSq(ys));
  }

  /** The same identity over sizes `a`, `b`, sums `sx`, `sy` and sums of
      squares `qx`, `qy`. */
  lemma PooledSummary(a: real, b: real, sx: real, sy: real, qx: real, qy: real)
    requires a > 0.0 && b > 0.0
    ensures M2Of(a + b, sx + sy, qx + qy) == M2Of(a, sx, qx) + M2Of(b, sy, qy) + Pair(a, b, sx / a, sy / b)
  {
    var x, y := sx / a, sy / b;
    var z := (sx + sy) / (a + b);
    assert sx == a * x && sy == b * y;
    assert z == (a * x + b * y) / (a + b);
    PooledSquares(a, b, x, y);
  }

  /** Feature `k` of every row, in row order. */
  function Column(rows: seq<seq<real>>, k: nat, d: nat): (col: seq<real>)
    requires AllLength(rows, d) && k < d
    ensures |col| == |rows|
  {
    seq(|rows|, i requires 0 <= i < |rows| => rows[i][k])
  }

  lemma ColumnAppend(xs: seq<seq<real>>, ys: seq<seq<real>>, k: nat, d: nat)
    requires AllLength(xs, d) && AllLength(ys, d) && k < d
    ensures AllLength(xs + ys, d)
    ensures Column(xs + ys, k, d) == Column(xs, k, d) + Column(ys, k, d)
  {
    AllLengthAppend(xs, ys, d);
  }

  lemma AllLengthAppend(xs: seq<seq<real>>, ys: seq<seq<real>>, d: nat)
    requires AllLength(xs, d) && AllLength(ys, d)
    ensures AllLength(xs + ys, d)
  {
    forall i | 0 <= i < |xs + ys| ensures |(xs + ys)[i]| == d {
      if i >= |xs| {
        assert (xs + ys)[i] == ys[i - |xs|];
      }
    }
  }
}
