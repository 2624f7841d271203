/** The energy of a frame: the sum of the squares of its samples, and their mean. */
module Energy {
  import opened Reals
  import opened ZeroCrossings

  function SumOfSquares(frame: seq<real>): real {
    if frame == [] then 0.0 else SumOfSquares(frame[..|frame| - 1]) + frame[|frame| - 1] * frame[|frame| - 1]
  }

  function MeanSquare(frame: seq<real>): real
    requires frame != []
  {
    SumOfSquares(frame) / |frame| as real
  }

  // ---- Two laws that leave no choice about the sum ----

  lemma SumOfOne(x: real)
    ensures SumOfSquares([]) == 0.0 && SumOfSquares([x]) == x * x
  {
    assert [x][..0] == [];
  }

  lemma {:induction false} SumConcat(a: seq<real>, b: seq<real>)
    ensures SumOfSquares(a + b) == SumOfSquares(a) + SumOfSquares(b)
    decreases |b|
  {
    if b == [] {
      assert a + b == a;
    } else {
      assert (a + b)[..|a + b| - 1] == a + b[..|b| - 1];
      SumConcat(a, b[..|b| - 1]);
    }
  }

  // ---- What it is worth ----

  lemma SquareIsNotNegative(x: real, square: real)
    requires square == x * x
    ensures square >= 0.0 && (square == 0.0 <==> x == 0.0)
  {
    if x > 0.0 {
      ProductIsPositive(x, x, square);
    } else if x < 0.0 {
      ProductOfNegatives(x, x, square);
    }
  }

  /** No energy is silence. */
  lemma {:induction false} SumIsZeroIff(frame: seq<real>)
    ensures SumOfSquares(frame) >= 0.0
    ensures SumOfSquares(frame) == 0.0 <==> forall k :: 0 <= k < |frame| ==> frame[k] == 0.0
  {
    if frame != [] {
      var before, last := frame[..|frame| - 1], frame[|frame| - 1];
      SumIsZeroIff(before);
      SquareIsNotNegative(last, last * last);
      assert forall k :: 0 <= k < |before| ==> frame[k] == before[k];
    }
  }

  lemma LessOne(a: seq<real>, x: real, b: seq<real>, c: seq<real>)
    requires multiset(a + [x]) == multiset(b + [x] + c)
    ensures multiset(a) == multiset(b + c)
  {
    assert multiset(a) == multiset(a + [x]) - multiset{x};
    assert multiset(b + c) == multiset(b + [x] + c) - multiset{x};
  }

  lemma Somewhere(x: real, s: seq<real>) returns (before: seq<real>, after: seq<real>)
    requires x in multiset(s)
    ensures s == before + [x] + after
  {
    var i :| 0 <= i < |s| && s[i] == x;
    before, after := s[..i], s[i + 1..];
  }

  /** The order of the samples does not matter. */
  lemma {:induction false} SumIgnoresOrder(a: seq<real>, b: seq<real>)
    requires multiset(a) == multiset(b)
    ensures SumOfSquares(a) == SumOfSquares(b)
    decreases |a|
  {
    if a == [] {
      assert |multiset(b)| == |b|;
    } else {
      var x := a[|a| - 1];
      assert a == a[..|a| - 1] + [x];
      assert x in multiset(a);
      var before, after := Somewhere(x, b);
      LessOne(a[..|a| - 1], x, before, after);
      SumIgnoresOrder(a[..|a| - 1], before + after);
      TakenOut(before, x, after);
    }
  }

  /** Taking one sample out takes its square out. */
  lemma TakenOut(a: seq<real>, x: real, b: seq<real>)
    ensures multiset(a + b) == multiset(a + [x] + b) - multiset{x}
    ensures SumOfSquares(a + [x] + b) == SumOfSquares(a + b) + x * x
  {
    SumConcat(a + [x], b);
    SumConcat(a, [x]);
    SumConcat(a, b);
    SumOfOne(x);
  }

  lemma AmplifiedPrefix(frame: seq<real>, gain: real, n: nat)
    requires n <= |frame|
    ensures Amplified(frame, gain)[..n] == Amplified(frame[..n], gain)
  {
    forall k | 0 <= k < n ensures Amplified(frame, gain)[..n][k] == Amplified(frame[..n], gain)[k] {
      assert frame[..n][k] == frame[k];
    }
  }

  /** A gain multiplies it by its square. */
  lemma {:induction false} SumUnderGain(frame: seq<real>, gain: real, power: real)
    requires power == gain * gain
    ensures SumOfSquares(Amplified(frame, gain)) == power * SumOfSquares(frame)
    decreases |frame|
  {
    if frame != [] {
      var before, last := frame[..|frame| - 1], frame[|frame| - 1];
      SumUnderGain(before, gain, power);
      AmplifiedPrefix(frame, gain, |frame| - 1);
      OneMoreSquare(SumOfSquares(before), last, gain, power);
    }
  }

  lemma OneMoreSquare(sum: real, x: real, gain: real, power: real)
    requires power == gain * gain
    ensures power * sum + (gain * x) * (gain * x) == power * (sum + x * x)
  {
    SquareOfProduct(gain, x);
    Distributes(power, sum, x * x);
  }

  lemma SquareOfProduct(a: real, b: real)
    ensures (a * b) * (a * b) == (a * a) * (b * b)
  {
    assert (a * b) * (a * b) == a * (b * (a * b));
    assert b * (a * b) == a * (b * b);
    assert a * (a * (b * b)) == (a * a) * (b * b);
  }

  /** The mean is at most the largest square, and at least the smallest. */
  lemma {:induction false} SumIsBounded(frame: seq<real>, low: real, high: real)
    requires forall k :: 0 <= k < |frame| ==> low <= frame[k] * frame[k] <= high
    ensures |frame| as real * low <= SumOfSquares(frame) <= |frame| as real * high
  {
    if frame != [] {
      SumIsBounded(frame[..|frame| - 1], low, high);
      assert |frame| as real == (|frame| - 1) as real + 1.0;
      Distributes(low, (|frame| - 1) as real, 1.0);
      Distributes(high, (|frame| - 1) as real, 1.0);
    }
  }
}
