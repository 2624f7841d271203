/** The spectral-variation measure: the population variance of zero-crossing rates,
    and the most it can be. */
module Variation {
  import opened Sequences

  function Total(xs: seq<real>): real {
    if xs == [] then 0.0 else Total(xs[..|xs| - 1]) + xs[|xs| - 1]
  }

  function Deviations(xs: seq<real>, mean: real): seq<real> {
    if xs == [] then []
    else Deviations(xs[..|xs| - 1], mean) + [(xs[|xs| - 1] - mean) * (xs[|xs| - 1] - mean)]
  }

  function Variance(xs: seq<real>): real {
    if xs == [] then 0.0 else Total(Deviations(xs, Total(xs) / |xs| as real)) / |xs| as real
  }

  /** Zero-crossing rates lie between 0 and 1. */
  predicate AreRates(rates: seq<real>) {
    forall k :: 0 <= k < |rates| ==> 0.0 <= rates[k] <= 1.0
  }

  /** Two laws that leave no choice about the total. */
  lemma {:induction false} TotalConcat(xs: seq<real>, ys: seq<real>)
    ensures Total(xs + ys) == Total(xs) + Total(ys)
    ensures |ys| == 1 ==> Total(ys) == ys[0]
    decreases |ys|
  {
    if ys == [] {
      assert xs + ys == xs;
    } else {
      assert (xs + ys)[..|xs + ys| - 1] == xs + ys[..|ys| - 1];
      TotalConcat(xs, ys[..|ys| - 1]);
    }
  }

  // ---- The variance by sums ----

  function Squares(xs: seq<real>): real {
    if xs == [] then 0.0 else Squares(xs[..|xs| - 1]) + xs[|xs| - 1] * xs[|xs| - 1]
  }

  // Three facts about products. Each stands behind a key, so that a proof about
  // sums carries it along whole and only lemmas about plain numbers open it.

  predicate Key(k: nat) {
    k >= 0
  }

  /** `d` is the sum of the squared deviations from `mean` of `n` numbers with the
      sum `s` and the sum of squares `q`. */
  ghost predicate Deviates(d: real, q: real, s: real, n: real, mean: real) {
    forall k: nat :: Key(k) ==> d == q - 2.0 * mean * s + n * mean * mean
  }

  /** `v` is the variance of `n` such numbers. */
  ghost predicate Varies(v: real, q: real, s: real, n: real) {
    forall k: nat :: Key(k) ==> n * n * v == n * q - s * s
  }

  /** The spread of such numbers is within a bound. */
  ghost predicate SpreadWithin(q: real, s: real, n: real, bound: real) {
    forall k: nat :: Key(k) ==> n * q - s * s <= bound
  }

  /** One more number `x`. */
  ghost predicate Adds(d: real, q: real, s: real, mean: real, x: real, d': real, q': real, s': real) {
    forall k: nat :: Key(k) ==> d' == d + (x - mean) * (x - mean) && q' == q + x * x && s' == s + x
  }

  lemma {:induction false} DeviationsTotal(xs: seq<real>, mean: real)
    ensures Deviates(Total(Deviations(xs, mean)), Squares(xs), Total(xs), |xs| as real, mean)
  {
    if xs != [] {
      var before, x := xs[..|xs| - 1], xs[|xs| - 1];
      DeviationsTotal(before, mean);
      LastAdds(xs, mean);
      OneDeviation(Total(Deviations(before, mean)), Squares(before), Total(before), |before| as real, mean, x,
                   Total(Deviations(xs, mean)), Squares(xs), Total(xs), |xs| as real);
    }
  }

  lemma LastAdds(xs: seq<real>, mean: real)
    requires xs != []
    ensures
      var before, x := xs[..|xs| - 1], xs[|xs| - 1];
      Adds(Total(Deviations(before, mean)), Squares(before), Total(before), mean, x,
           Total(Deviations(xs, mean)), Squares(xs), Total(xs))
  {
    TotalSnoc(Deviations(xs[..|xs| - 1], mean), (xs[|xs| - 1] - mean) * (xs[|xs| - 1] - mean));
  }

  lemma TotalSnoc(xs: seq<real>, x: real)
    ensures Total(xs + [x]) == Total(xs) + x
  {
    PrefixOfSnoc(xs, x, |xs|);
    WholePrefix(xs);
  }

  lemma OneDeviation(
    d: real, q: real, s: real, n: real, mean: real, x: real, d': real, q': real, s': real, n': real)
    requires Deviates(d, q, s, n, mean) && Adds(d, q, s, mean, x, d', q', s') && n' == n + 1.0
    ensures Deviates(d', q', s', n', mean)
  {
    assert Key(0);
  }

  lemma VarianceBySums(xs: seq<real>)
    requires xs != []
    ensures Varies(Variance(xs), Squares(xs), Total(xs), |xs| as real)
  {
    var n := |xs| as real;
    var mean := Total(xs) / n;
    DeviationsTotal(xs, mean);
    MeanDeviation(Variance(xs), Total(Deviations(xs, mean)), Squares(xs), Total(xs), n, mean);
  }

  lemma MeanDeviation(v: real, d: real, q: real, s: real, n: real, mean: real)
    requires n > 0.0 && v == d / n && mean == s / n && Deviates(d, q, s, n, mean)
    ensures Varies(v, q, s, n)
  {
    assert Key(0);
    assert mean * n == s && v * n == d;
    assert n * mean * mean == s * mean;
    assert v * n == q - s * mean;
    assert n * n * v == n * (v * n);
    assert n * (q - s * mean) == n * q - s * (mean * n);
  }

  // ---- The most it can be ----

  /** Pairs of one number from each of the two halves of `n`. */
  function Pairs(n: nat): nat {
    (n / 2) * ((n + 1) / 2)
  }

  /** The variance of `n` rates of which half are 0 and half 1. */
  function Peak(n: nat): real {
    if n == 0 then 0.0 else Pairs(n) as real / (n * n) as real
  }

  /** Among rates at the ends of the range alone, `c` of them at the upper. */
  lemma WholeCount(n: nat, c: int)
    ensures n * c - c * c <= Pairs(n)
  {
    var m := n / 2;
    if c <= m {
      assert (m - c) * ((n - m) - c) >= 0;
    } else {
      assert (c - m) * (c - (n - m)) >= 0;
    }
    assert (c - m) * (c - (n - m)) == c * c - n * c + m * (n - m);
  }

  lemma AllAtEnds(n: nat, c: int, q: real, s: real)
    requires q == s == c as real
    ensures SpreadWithin(q, s, n as real, Pairs(n) as real)
  {
    WholeCount(n, c);
    assert (n * c - c * c) as real == n as real * c as real - c as real * c as real;
  }

  /** Moving a rate to one end of the range or the other does not lessen the spread:
      `q0` and `s0` are the sums with it at the lower end, `q1` and `s1` at the
      upper, `q` and `s` with it where it is. */
  lemma EndsSpreadMore(
    n: real, x: real, q0: real, s0: real, q1: real, s1: real, q: real, s: real, bound: real)
    requires n >= 1.0 && 0.0 <= x <= 1.0
    requires q == q0 + x * x && s == s0 + x && q1 == q0 + 1.0 && s1 == s0 + 1.0
    requires SpreadWithin(q0, s0, n, bound) && SpreadWithin(q1, s1, n, bound)
    ensures SpreadWithin(q, s, n, bound)
  {
    assert Key(0);
    var at0, at1 := n * q0 - s0 * s0, n * q1 - s1 * s1;
    assert at1 == at0 + n - 2.0 * s0 - 1.0;
    assert n * q - s * s == at0 + x * (at1 - at0) - (n - 1.0) * (x * (1.0 - x));
    ProductIsNonNegative(x, 1.0 - x);
    ProductIsNonNegative(n - 1.0, x * (1.0 - x));
    assert at0 + x * (at1 - at0) == (1.0 - x) * at0 + x * at1;
    Between(at0, at1, x, bound);
  }

  lemma Between(a: real, b: real, x: real, bound: real)
    requires 0.0 <= x <= 1.0 && a <= bound && b <= bound
    ensures (1.0 - x) * a + x * b <= bound
  {
    ProductIsNonNegative(1.0 - x, bound - a);
    ProductIsNonNegative(x, bound - b);
  }

  lemma ProductIsNonNegative(a: real, b: real)
    requires a >= 0.0 && b >= 0.0
    ensures a * b >= 0.0
  {
  }

  /** The spread of `xs` and any further rates at the ends, `c` of them at the upper:
      `q` is the sum of all squares and `s` of all rates. */
  lemma {:induction false} SpreadIsAtMostPairs(n: nat, c: int, xs: seq<real>, q: real, s: real)
    requires n >= 1 && AreRates(xs) && q == c as real + Squares(xs) && s == c as real + Total(xs)
    ensures SpreadWithin(q, s, n as real, Pairs(n) as real)
    decreases |xs|
  {
    if xs == [] {
      AllAtEnds(n, c, q, s);
    } else {
      var before, x := xs[..|xs| - 1], xs[|xs| - 1];
      var q0, s0 := c as real + Squares(before), c as real + Total(before);
      var q1, s1 := q0 + 1.0, s0 + 1.0;
      SpreadIsAtMostPairs(n, c, before, q0, s0);
      SpreadIsAtMostPairs(n, c + 1, before, q1, s1);
      EndsSpreadMore(n as real, x, q0, s0, q1, s1, q, s, Pairs(n) as real);
    }
  }

  /** No window of rates varies more than the peak. */
  lemma VarianceIsAtMostPeak(xs: seq<real>)
    requires AreRates(xs)
    ensures Variance(xs) <= Peak(|xs|)
  {
    if xs != [] {
      VarianceBySums(xs);
      SpreadIsAtMostPairs(|xs|, 0, xs, Squares(xs), Total(xs));
      AtMostPeak(|xs|, |xs| as real, Variance(xs), Squares(xs), Total(xs));
    }
  }

  lemma AtMostPeak(n: nat, r: real, v: real, q: real, s: real)
    requires n > 0 && r == n as real && Varies(v, q, s, r) && SpreadWithin(q, s, r, Pairs(n) as real)
    ensures v <= Peak(n)
  {
    assert Key(0);
    HalvesMakePairs(n);
    Divided((n * n) as real, v, Pairs(n) as real);
  }

  lemma Divided(d: real, v: real, p: real)
    requires d > 0.0
    ensures d * v <= p <==> v <= p / d
    ensures d * v == p <==> v == p / d
  {
    assert d * (p / d) == p;
    assert d * (v - p / d) == d * v - p;
  }

  /** Half of the rates at each end. */
  function Extremes(n: nat): (xs: seq<real>)
    ensures |xs| == n && AreRates(xs)
  {
    if n == 0 then [] else Extremes(n - 1) + [if n % 2 == 1 then 1.0 else 0.0]
  }

  lemma {:induction false} ExtremesSums(n: nat)
    ensures Total(Extremes(n)) == Squares(Extremes(n)) == ((n + 1) / 2) as real
  {
    if n > 0 {
      ExtremesSums(n - 1);
    }
  }

  /** And half of the rates at each end vary as much. */
  lemma ExtremesVary(n: nat)
    ensures Variance(Extremes(n)) == Peak(n)
  {
    if n > 0 {
      ExtremesSums(n);
      VarianceBySums(Extremes(n));
      IsPeak(n, n as real, Variance(Extremes(n)), Squares(Extremes(n)), Total(Extremes(n)));
    }
  }

  lemma IsPeak(n: nat, r: real, v: real, q: real, s: real)
    requires n > 0 && r == n as real && Varies(v, q, s, r) && q == s == ((n + 1) / 2) as real
    ensures v == Peak(n)
  {
    assert Key(0);
    HalvesMakePairs(n);
    Divided((n * n) as real, v, Pairs(n) as real);
  }

  lemma HalvesMakePairs(n: nat)
    ensures
      var k := ((n + 1) / 2) as real;
      n as real * k - k * k == Pairs(n) as real
    ensures (n * n) as real == n as real * n as real
  {
    var k := (n + 1) / 2;
    assert n / 2 == n - k;
    assert (n - k) * k == n * k - k * k;
  }
}
