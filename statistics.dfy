/**
 * The numpy statistics the emergency detector relies on (`np.mean` and the
 * population variance `np.var`), evaluated exactly, and the integer forms of
 * the two tests built on them: the dispersion test of the coordination rule
 * and the z-score test of the burst rule. The rules evaluate the integer
 * forms; the lemmas here show they are the tests the source writes in
 * floating point.
 */
module Statistics {

  function Total(xs: seq<int>): int
  {
    if xs == [] then 0 else Total(xs[..|xs| - 1]) + xs[|xs| - 1]
  }

  lemma {:induction false} TotalConcat(a: seq<int>, b: seq<int>)
    ensures Total(a + b) == Total(a) + Total(b)
    decreases |b|
  {
    if b == [] {
      assert a + b == a;
    } else {
      TotalConcat(a, b[..|b| - 1]);
      assert (a + b)[..|a + b| - 1] == a + b[..|b| - 1];
    }
  }

  function SumSquares(xs: seq<int>): int
  {
    if xs == [] then 0 else SumSquares(xs[..|xs| - 1]) + xs[|xs| - 1] * xs[|xs| - 1]
  }

  /** `n * sum(x^2) - sum(x)^2`, that is `n^2` times the population variance. */
  function Spread(xs: seq<int>): int
  {
    |xs| * SumSquares(xs) - Total(xs) * Total(xs)
  }

  /** The quotient `a / b` of two integers, as a real. */
  function Ratio(a: int, b: int): real
    requires b != 0
  {
    a as real / b as real
  }

  /** `np.mean`. */
  function Mean(xs: seq<int>): real
    requires |xs| > 0
  {
    Ratio(Total(xs), |xs|)
  }

  /** `np.var`, the population variance, as the mean of the squares minus the square of the mean. */
  function Variance(xs: seq<int>): real
    requires |xs| > 0
  {
    Ratio(Spread(xs), |xs| * |xs|)
  }

  lemma {:induction false} TotalConstant(xs: seq<int>, c: int)
    requires forall i :: 0 <= i < |xs| ==> xs[i] == c
    ensures Total(xs) == |xs| * c
  {
    if xs != [] {
      TotalConstant(xs[..|xs| - 1], c);
    }
  }

  lemma {:induction false} SumSquaresConstant(xs: seq<int>, c: int)
    requires forall i :: 0 <= i < |xs| ==> xs[i] == c
    ensures SumSquares(xs) == |xs| * (c * c)
  {
    if xs != [] {
      SumSquaresConstant(xs[..|xs| - 1], c);
    }
  }

  /** Equal values have no spread. */
  lemma ConstantSpread(xs: seq<int>, c: int)
    requires forall i :: 0 <= i < |xs| ==> xs[i] == c
    ensures Total(xs) == |xs| * c
    ensures Spread(xs) == 0
  {
    TotalConstant(xs, c);
    SumSquaresConstant(xs, c);
    var n := |xs|;
    assert n * (n * (c * c)) == (n * c) * (n * c);
  }

  /** `sum((x - c)^2 for x in xs)`. */
  function Deviations(xs: seq<int>, c: int): (r: int)
    ensures r >= 0
  {
    if xs == [] then 0 else Deviations(xs[..|xs| - 1], c) + (xs[|xs| - 1] - c) * (xs[|xs| - 1] - c)
  }

  lemma ExpandStep(a: int, b: int, q: int, qq: int, s: int, ss: int, n: int, nn: int, x: int, c: int)
    requires b == a + (x - c) * (x - c)
    requires qq == q + x * x && ss == s + x && nn == n + 1
    requires a == q - 2 * c * s + n * c * c
    ensures b == qq - 2 * c * ss + nn * c * c
  {
    assert c * ss == c * s + c * x;
    assert nn * c * c == n * c * c + c * c;
  }

  /** The squared deviations from `c` expand into the sums the variance is computed from. */
  lemma {:induction false} DeviationsExpand(xs: seq<int>, c: int)
    ensures Deviations(xs, c) == SumSquares(xs) - 2 * c * Total(xs) + |xs| * c * c
  {
    if xs != [] {
      var init := xs[..|xs| - 1];
      DeviationsExpand(init, c);
      ExpandStep(Deviations(init, c), Deviations(xs, c), SumSquares(init), SumSquares(xs),
        Total(init), Total(xs), |init|, |xs|, xs[|xs| - 1], c);
    }
  }

  lemma SpreadStep(sp: int, spp: int, q: int, qq: int, s: int, ss: int, n: int, nn: int, x: int, d: int)
    requires sp == n * q - s * s && spp == nn * qq - ss * ss
    requires qq == q + x * x && ss == s + x && nn == n + 1
    requires d == q - 2 * x * s + n * x * x
    ensures spp == sp + d
  {
    assert nn * qq == n * q + n * (x * x) + q + x * x;
    assert ss * ss == s * s + 2 * x * s + x * x;
  }

  /** The spread, and with it the variance, is never negative: appending `x` adds the squared deviations from `x`. */
  lemma {:induction false} SpreadNonNegative(xs: seq<int>)
    ensures Spread(xs) >= 0
  {
    if xs != [] {
      var init, x := xs[..|xs| - 1], xs[|xs| - 1];
      SpreadNonNegative(init);
      DeviationsExpand(init, x);
      SpreadStep(Spread(init), Spread(xs), SumSquares(init), SumSquares(xs), Total(init), Total(xs),
        |init|, |xs|, x, Deviations(init, x));
    }
  }

  lemma VarianceNonNegative(xs: seq<int>)
    requires |xs| > 0
    ensures Variance(xs) >= 0.0
  {
    SpreadNonNegative(xs);
  }

  /**
   * The coordination test `var / mean^2 < 0.1`, where a non-positive mean
   * makes the ratio infinite, with the denominators cleared:
   * `10 * spread < total^2` for a positive total.
   */
  predicate LowDispersion(xs: seq<int>)
  {
    LowDispersionOf(Total(xs), Spread(xs))
  }

  /** The coordination test on a total `t` and a spread `sp`: `t > 0` and `10 sp < t^2`. */
  predicate LowDispersionOf(t: int, sp: int)
  {
    t > 0 && 10 * sp < t * t
  }

  /** `mean > 0 and variance / mean ** 2 < 0.1`. */
  predicate CoefficientBelow(mean: real, variance: real)
  {
    mean > 0.0 && variance / (mean * mean) < 0.1
  }

  /** Identical positive values always pass the coordination test. */
  lemma IdenticalLowDispersion(xs: seq<int>, c: int)
    requires |xs| > 0 && c > 0
    requires forall i :: 0 <= i < |xs| ==> xs[i] == c
    ensures LowDispersion(xs)
  {
    ConstantSpread(xs, c);
    assert Total(xs) >= c;
  }

  /** Multiplying by a positive factor keeps a strict order. */
  lemma ScaleLess(x: real, y: real, c: real)
    requires c > 0.0
    ensures x < y <==> x * c < y * c
  {
    if x < y {
      assert (y - x) * c > 0.0;
    } else {
      assert (x - y) * c >= 0.0;
    }
  }

  lemma CastProduct(a: int, b: int)
    ensures (a * b) as real == a as real * b as real
  {
  }

  /** The ratio test over reals, stated on the quantities alone so that no real square is formed by the caller. */
  lemma RatioCleared(s: real, n: real, n2: real, m: real, s2: real, v: real, sp: real)
    requires n > 0.0 && n2 > 0.0 && m * n == s && n2 == n * n && s2 == s * s && v * n2 == sp
    ensures CoefficientBelow(m, v) <==> (s > 0.0 && 10.0 * sp < s2)
  {
    var m2 := m * m;
    ScaleLess(0.0, m, n);
    if s > 0.0 {
      assert s2 == m2 * n2;
      assert m2 != 0.0;
      var r := v / m2;
      assert r * m2 == v;
      assert r * s2 == sp;
      ScaleLess(r, 0.1, s2);
    }
  }

  /** `LowDispersion` is the floating-point test of the source, evaluated exactly. */
  lemma LowDispersionIsRatio(xs: seq<int>)
    requires |xs| > 0
    ensures LowDispersion(xs) <==> CoefficientBelow(Mean(xs), Variance(xs))
  {
    LowDispersionCleared(|xs|, Total(xs), Spread(xs));
  }

  /** The coordination test on the totals alone, with the mean `t / n` and the variance `spread / n^2`. */
  lemma LowDispersionCleared(n: int, t: int, sp: int)
    requires n > 0
    ensures LowDispersionOf(t, sp) <==> CoefficientBelow(Ratio(t, n), Ratio(sp, n * n))
  {
    var nr, s, n2, s2 := n as real, t as real, (n * n) as real, (t * t) as real;
    assert LowDispersionOf(t, sp) <==> s > 0.0 && 10.0 * sp as real < s2;
    assert n2 == nr * nr by { CastProduct(n, n); }
    assert s2 == s * s by { CastProduct(t, t); }
    RatioCleared(s, nr, n2, Ratio(t, n), s2, Ratio(sp, n * n), sp as real);
  }

  /**
   * The burst test `std > 0 and mean < 300 and (300 - mean) / std > 3.0`
   * with the denominators cleared: a positive spread, `total < 300 n` and
   * `(300 n - total)^2 > 9 spread`.
   */
  predicate BurstTest(diffs: seq<int>)
  {
    |diffs| > 0 && BurstTestOf(|diffs|, Total(diffs), Spread(diffs))
  }

  /** The burst test on a count `n`, a total `t` and a spread `sp`. */
  predicate BurstTestOf(n: int, t: int, sp: int)
  {
    sp > 0 && t < 300 * n && (300 * n - t) * (300 * n - t) > 9 * sp
  }

  /** `std > 0 and mean < 300 and (300 - mean) / std > 3.0`. */
  predicate ZScoreAbove(mean: real, std: real)
  {
    std > 0.0 && mean < 300.0 && (300.0 - mean) / std > 3.0
  }

  /** For a positive `std` with `std^2 = v`, `a / std > 3` is `a^2 > 9 v`. */
  lemma ZCleared(a: real, std: real, v: real)
    requires std > 0.0 && a > 0.0 && std * std == v
    ensures a / std > 3.0 <==> a * a > 9.0 * v
  {
    var z := a / std;
    assert z * std == a;
    ScaleLess(3.0, z, std);
    if z > 3.0 {
      ScaleLess(3.0 * std, a, a);
      ScaleLess(3.0 * std, a, 3.0 * std);
    } else if a < 3.0 * std {
      ScaleLess(a, 3.0 * std, a);
      ScaleLess(a, 3.0 * std, 3.0 * std);
    }
  }

  /** The burst test over reals, stated on the quantities alone. */
  lemma BurstCleared(s: real, n: real, n2: real, m: real, v: real, sp: real, std: real, b2: real)
    requires n > 0.0 && n2 > 0.0 && m * n == s && n2 == n * n && v * n2 == sp
    requires std >= 0.0 && std * std == v && (std > 0.0 <==> v > 0.0)
    requires b2 == (300.0 * n - s) * (300.0 * n - s)
    ensures ZScoreAbove(m, std) <==> (sp > 0.0 && s < 300.0 * n && b2 > 9.0 * sp)
  {
    ScaleLess(0.0, v, n2);
    ScaleLess(m, 300.0, n);
    if std > 0.0 && m < 300.0 {
      var a := 300.0 - m;
      ZCleared(a, std, v);
      assert a * n == 300.0 * n - s;
      assert b2 == (a * a) * n2;
      ScaleLess(9.0 * v, a * a, n2);
    }
  }

  /** `(300 - mean) / std`, the z-score of a 300-second interval. */
  function ZScore(diffs: seq<int>, std: real): real
    requires |diffs| > 0 && std > 0.0
  {
    (300.0 - Mean(diffs)) / std
  }

  /** The burst test as the source writes it: `std > 0 and mean < 300 and zscore > 3.0`. */
  predicate ZScoreExceeds(diffs: seq<int>, std: real)
    requires |diffs| > 0
  {
    ZScoreAbove(Mean(diffs), std)
  }

  /**
   * `BurstTest` is the floating-point test of the source, evaluated exactly,
   * for `std` the square root of the variance (non-negative, squaring to the
   * variance, and positive exactly when the variance is).
   */
  lemma BurstTestIsZScore(diffs: seq<int>, std: real)
    requires |diffs| > 0
    requires std >= 0.0 && std * std == Variance(diffs) && (std > 0.0 <==> Variance(diffs) > 0.0)
    ensures BurstTest(diffs) <==> ZScoreExceeds(diffs, std)
  {
    BurstTestCleared(|diffs|, Total(diffs), Spread(diffs), std);
  }

  /** The burst test on the totals alone, with the mean `t / n`, the variance `spread / n^2` and `std^2` the variance. */
  lemma BurstTestCleared(n: int, t: int, sp: int, std: real)
    requires n > 0
    requires std >= 0.0 && std * std == Ratio(sp, n * n) && (std > 0.0 <==> Ratio(sp, n * n) > 0.0)
    ensures BurstTestOf(n, t, sp) <==> ZScoreAbove(Ratio(t, n), std)
  {
    var b := 300 * n - t;
    var nr, s, n2, b2 := n as real, t as real, (n * n) as real, (b * b) as real;
    assert BurstTestOf(n, t, sp) <==> sp as real > 0.0 && s < 300.0 * nr && b2 > 9.0 * sp as real;
    assert n2 == nr * nr by { CastProduct(n, n); }
    assert b2 == (300.0 * nr - s) * (300.0 * nr - s) by { CastProduct(b, b); }
    BurstCleared(s, nr, n2, Ratio(t, n), Ratio(sp, n * n), sp as real, std, b2);
  }
}
