/** The streaming linear resampler. The read position, a fraction of one input
    interval, is kept as a whole numerator over `toHz`, and samples are exact
    reals: rounding is not part of this model. */
module Resampler {
  import opened Reals
  import opened Rings
  import opened Streams
  import opened Sequences

  function CeilDiv(a: nat, b: nat): nat
    requires b > 0
  {
    if a % b == 0 then a / b else a / b + 1
  }

  function Lerp(a: real, b: real, num: nat, den: nat): real
    requires den > 0
  {
    a + (b - a) * (num as real / den as real)
  }

  /** Output `m`: the stream read at position `m * from / to`. */
  function Interpolated(xs: seq<real>, m: nat, from: nat, to: nat): real
    requires from > 0 && to > 0
  {
    var q := (m * from) / to;
    Lerp(At(xs, q), At(xs, q + 1), (m * from) % to, to)
  }

  /** Everything a stream of samples determines: one output for each position
      strictly before the last sample. */
  function Resampled(xs: seq<real>, from: nat, to: nat): seq<real>
    requires from > 0 && to > 0
  {
    if xs == [] then []
    else seq(CeilDiv((|xs| - 1) * to, from), m requires 0 <= m => Interpolated(xs, m, from, to))
  }

  lemma QuotientIs(a: nat, b: nat, q: nat, r: nat)
    requires b > 0 && a == q * b + r && r < b
    ensures a / b == q && a % b == r
  {
    if a / b < q {
      assert (a / b + 1) * b <= q * b by {
        MulMono(a / b + 1, q, b);
      }
    } else if a / b > q {
      assert (q + 1) * b <= (a / b) * b by {
        MulMono(q + 1, a / b, b);
      }
    }
  }

  lemma MulMono(x: int, y: int, b: nat)
    requires x <= y
    ensures x * b <= y * b
  {
  }

  lemma CeilIs(a: nat, b: nat, m: nat)
    requires b > 0 && 0 <= m * b - a < b
    ensures m == CeilDiv(a, b)
  {
    var r := m * b - a;
    if r == 0 {
      QuotientIs(a, b, m, 0);
    } else {
      assert m == 0 ==> m * b == 0;
      assert (m - 1) * b + (b - r) == a;
      QuotientIs(a, b, m - 1, b - r);
    }
  }

  /** How far output `n` lies past input `k`, as a numerator over `to`. */
  function Ahead(n: int, k: int, from: nat, to: nat): int {
    n * from - k * to
  }

  lemma AheadMoves(n: int, k: int, from: nat, to: nat)
    ensures Ahead(n + 1, k, from, to) == Ahead(n, k, from, to) + from
    ensures Ahead(n, k + 1, from, to) == Ahead(n, k, from, to) - to
  {
  }

  /** Outputs already determined do not change when the stream grows. */
  lemma InterpolatedIsStable(xs: seq<real>, more: seq<real>, m: nat, from: nat, to: nat)
    requires from > 0 && to > 0 && (m * from) / to + 1 < |xs|
    ensures Interpolated(xs + more, m, from, to) == Interpolated(xs, m, from, to)
  {
  }

  // ---- What the outputs are ----

  lemma BelowCeil(a: nat, b: nat, m: nat)
    requires b > 0 && m < CeilDiv(a, b)
    ensures m * b < a
  {
    MulMono(m, CeilDiv(a, b) - 1, b);
    CeilIsLeast(a, b);
  }

  lemma QuotientBelow(a: nat, b: nat, k: nat)
    requires b > 0 && a < k * b
    ensures a / b < k
  {
    if k <= a / b {
      MulMono(k, a / b, b);
    }
  }

  /** Output `m` is one the stream determines: it lies between inputs `m * from / to`
      and the next. */
  lemma OutputHasNeighbours(xs: seq<real>, from: nat, to: nat, m: nat)
    requires from > 0 && to > 0 && m < |Resampled(xs, from, to)|
    ensures (m * from) / to + 1 < |xs|
  {
    BelowCeil((|xs| - 1) * to, from, m);
    QuotientBelow(m * from, to, |xs| - 1);
  }

  /** The outputs are those at the positions strictly before the last input. */
  lemma OutputsReachTheEnd(xs: seq<real>, from: nat, to: nat, m: nat)
    requires from > 0 && to > 0 && xs != []
    ensures m < |Resampled(xs, from, to)| <==> m * from < (|xs| - 1) * to
  {
    var last := (|xs| - 1) * to;
    var n := CeilDiv(last, from);
    if m < n {
      MulMono(m, n - 1, from);
      if last > 0 {
        CeilIsLeast(last, from);
      }
    } else {
      MulMono(n, m, from);
      CeilIsEnough(last, from);
    }
  }

  lemma CeilIsEnough(a: nat, b: nat)
    requires b > 0
    ensures a <= CeilDiv(a, b) * b
  {
    assert a == (a / b) * b + a % b;
    assert (a / b + 1) * b == (a / b) * b + b;
  }

  lemma CeilIsLeast(a: nat, b: nat)
    requires b > 0 && a > 0
    ensures CeilDiv(a, b) > 0 && (CeilDiv(a, b) - 1) * b < a
  {
    if a % b == 0 {
      assert (a / b - 1) * b == a - b;
    }
  }

  lemma Share(num: nat, den: nat)
    requires num < den
    ensures 0.0 <= num as real / den as real < 1.0 && (num == 0 ==> num as real / den as real == 0.0)
  {
    assert den as real * (num as real / den as real) == num as real;
  }

  /** Where an output falls on an input, it is that input. */
  lemma OutputOnInput(xs: seq<real>, from: nat, to: nat, m: nat)
    requires from > 0 && to > 0 && m < |Resampled(xs, from, to)| && (m * from) % to == 0
    ensures (m * from) / to < |xs| && Resampled(xs, from, to)[m] == xs[(m * from) / to]
  {
    OutputHasNeighbours(xs, from, to, m);
    Share(0, to);
  }

  lemma OutputIsLerp(xs: seq<real>, from: nat, to: nat, m: nat)
    requires from > 0 && to > 0 && m < |Resampled(xs, from, to)|
    ensures
      var q := (m * from) / to;
      q + 1 < |xs| && Resampled(xs, from, to)[m] == Lerp(xs[q], xs[q + 1], (m * from) % to, to)
  {
    OutputHasNeighbours(xs, from, to, m);
  }

  predicate Between(y: real, a: real, b: real) {
    a <= y <= b || b <= y <= a
  }

  lemma LerpIsBetween(a: real, b: real, num: nat, den: nat)
    requires num < den
    ensures Between(Lerp(a, b, num, den), a, b)
  {
    Share(num, den);
    var part := (b - a) * (num as real / den as real);
    if a <= b {
      Scaled(b - a, num as real / den as real, part);
    } else {
      ScaledDown(b - a, num as real / den as real, part);
    }
  }

  lemma Scaled(d: real, share: real, part: real)
    requires d >= 0.0 && 0.0 <= share < 1.0 && part == d * share
    ensures 0.0 <= part <= d
  {
    ProductIsNotNegative(d, share, part);
    Distributes(d, share, 1.0 - share);
    ProductIsNotNegative(d, 1.0 - share, d * (1.0 - share));
  }

  lemma ScaledDown(d: real, share: real, part: real)
    requires d <= 0.0 && 0.0 <= share < 1.0 && part == d * share
    ensures d <= part <= 0.0
  {
    Distributes(share, d, -d);
    Scaled(-d, share, -part);
  }

  /** Every output lies between the two inputs around its position. */
  lemma OutputIsBetween(xs: seq<real>, from: nat, to: nat, m: nat, q: nat)
    requires from > 0 && to > 0 && m < |Resampled(xs, from, to)| && q == (m * from) / to
    ensures q + 1 < |xs| && Between(Resampled(xs, from, to)[m], xs[q], xs[q + 1])
  {
    OutputIsLerp(xs, from, to, m);
    LerpIsBetween(xs[q], xs[q + 1], (m * from) % to, to);
  }

  /** The stream is a straight line, `rise` higher with every sample. */
  predicate IsLine(xs: seq<real>, start: real, rise: real) {
    forall k :: 0 <= k < |xs| ==> xs[k] == OnLine(start, rise, k as real)
  }

  /** A straight line is read off at the exact positions. */
  lemma LineStaysLine(xs: seq<real>, from: nat, to: nat, m: nat, start: real, rise: real)
    requires from > 0 && to > 0 && m < |Resampled(xs, from, to)| && IsLine(xs, start, rise)
    ensures Resampled(xs, from, to)[m] == OnLine(start, rise, (m * from) as real / to as real)
  {
    var q := (m * from) / to;
    OutputIsLerp(xs, from, to, m);
    Position(m * from, to);
    LerpOnLine(xs[q], xs[q + 1], start, rise, q, (m * from) % to, to);
  }

  function OnLine(start: real, rise: real, at: real): real {
    start + rise * at
  }

  lemma LerpOnLine(a: real, b: real, start: real, rise: real, q: nat, num: nat, den: nat)
    requires den > 0 && a == OnLine(start, rise, q as real) && b == OnLine(start, rise, (q + 1) as real)
    ensures Lerp(a, b, num, den) == OnLine(start, rise, q as real + num as real / den as real)
  {
    var at, share := q as real, num as real / den as real;
    Distributes(rise, at, 1.0);
    Distributes(rise, at, share);
  }

  lemma Position(a: nat, b: nat)
    requires b > 0
    ensures a as real / b as real == (a / b) as real + (a % b) as real / b as real
  {
    var q, r := a / b, a % b;
    assert a == q * b + r;
    assert a as real == q as real * b as real + r as real;
    assert b as real * (a as real / b as real) == a as real;
    assert b as real * (r as real / b as real) == r as real;
    SameQuotient(b as real, a as real / b as real, q as real + r as real / b as real);
  }

  lemma SameQuotient(d: real, x: real, y: real)
    requires d > 0.0 && d * x == d * y
    ensures x == y
  {
    assert d * (x - y) == 0.0;
  }

  /** Between equal rates every output is its input. */
  lemma EqualRatesCopy(xs: seq<real>, hz: nat)
    requires hz > 0 && xs != []
    ensures Resampled(xs, hz, hz) == xs[..|xs| - 1]
  {
    QuotientIs((|xs| - 1) * hz, hz, |xs| - 1, 0);
    forall m | 0 <= m < |xs| - 1 ensures Resampled(xs, hz, hz)[m] == xs[m] {
      QuotientIs(m * hz, hz, m, 0);
      OutputOnInput(xs, hz, hz, m);
    }
  }

  class Resampler {
    const fromHz: nat
    const toHz: nat
    var frac: nat
    var prev: real
    var cur: real
    var primed: bool
    ghost var inputs: seq<real>
    ghost var outputs: seq<real>

    constructor (fromHz: nat, toHz: nat)
      requires fromHz > 0 && toHz > 0
      ensures this.fromHz == fromHz && this.toHz == toHz
      ensures inputs == [] && outputs == [] && Pushing() && Pulling()
    {
      this.fromHz, this.toHz := fromHz, toHz;
      frac, prev, cur, primed := 0, 0.0, 0.0, false;
      inputs, outputs := [], [];
    }

    // ---- Driven by the producer ----

    /** The fields against the history, when only `Push` has been called. */
    ghost predicate Pushing()
      reads this
    {
      && fromHz > 0 && toHz > 0
      && (primed <==> inputs != [])
      && (inputs == [] ==> outputs == [] && frac == 0)
      && (inputs != [] ==> cur == inputs[|inputs| - 1] && frac < fromHz)
      && (inputs != [] ==> frac == Ahead(|outputs|, |inputs| - 1, fromHz, toHz))
      && Determined(inputs, outputs)
    }

    /** Every output is the interpolation at its position, within the stream. */
    ghost predicate Determined(xs: seq<real>, ys: seq<real>)
    {
      fromHz > 0 && toHz > 0 &&
      forall m :: 0 <= m < |ys| ==>
        (m * fromHz) / toHz + 1 < |xs| && ys[m] == Interpolated(xs, m, fromHz, toHz)
    }

    lemma DeterminedMore(xs: seq<real>, x: real, ys: seq<real>)
      requires Determined(xs, ys)
      ensures Determined(xs + [x], ys)
    {
      forall m | 0 <= m < |ys| ensures ys[m] == Interpolated(xs + [x], m, fromHz, toHz) {
        InterpolatedIsStable(xs, [x], m, fromHz, toHz);
      }
    }

    /** One more output, at read position `num` in the interval that ends the stream. */
    lemma DeterminedNext(xs: seq<real>, ys: seq<real>, num: nat)
      requires Determined(xs, ys) && |xs| >= 2 && num < toHz
      requires num == Ahead(|ys|, |xs| - 2, fromHz, toHz)
      ensures Determined(xs, ys + [Lerp(xs[|xs| - 2], xs[|xs| - 1], num, toHz)])
    {
      QuotientIs(|ys| * fromHz, toHz, |xs| - 2, num);
      var more := ys + [Lerp(xs[|xs| - 2], xs[|xs| - 1], num, toHz)];
      forall m | 0 <= m < |more|
        ensures (m * fromHz) / toHz + 1 < |xs| && more[m] == Interpolated(xs, m, fromHz, toHz)
      {
        if m < |ys| {
          assert more[m] == ys[m];
        }
      }
    }

    /** One input sample; returns the samples it completes, in order. */
    method Push(sample: real) returns (out: seq<real>)
      requires Pushing()
      modifies this
      ensures Pushing() && inputs == old(inputs) + [sample] && outputs == old(outputs) + out
    {
      out := [];
      DeterminedMore(inputs, sample, outputs);
      inputs := inputs + [sample];
      if !primed {
        prev, cur, primed := sample, sample, true;
        return;
      }
      prev := cur;
      cur := sample;
      while frac < toHz
        invariant primed
        invariant inputs == old(inputs) + [sample] && |inputs| >= 2
        invariant prev == inputs[|inputs| - 2] && cur == inputs[|inputs| - 1]
        invariant outputs == old(outputs) + out && Determined(inputs, outputs)
        invariant frac == Ahead(|outputs|, |inputs| - 2, fromHz, toHz) && frac < toHz + fromHz
        decreases toHz - frac
      {
        var y := Lerp(prev, cur, frac, toHz);
        DeterminedNext(inputs, outputs, frac);
        AheadMoves(|outputs|, |inputs| - 2, fromHz, toHz);
        out := out + [y];
        outputs := outputs + [y];
        frac := frac + fromHz;
      }
      AheadMoves(|outputs|, |inputs| - 2, fromHz, toHz);
      frac := frac - toHz;
    }

    /** The outputs are exactly those the inputs determine, however they came. */
    lemma PushedAll()
      requires Pushing()
      ensures outputs == Resampled(inputs, fromHz, toHz)
    {
      if inputs != [] {
        CeilIs((|inputs| - 1) * toHz, fromHz, |outputs|);
      }
    }

    // ---- Driven by the consumer ----

    /** The fields against the history, when only `Pull` has been called: the stream
        is read as if its first sample came twice. */
    ghost predicate Pulling()
      reads this
    {
      && fromHz > 0 && toHz > 0
      && (primed <==> inputs != []) && (inputs == [] <==> outputs == [])
      && (inputs == [] ==> frac == 0)
      && (inputs != [] ==>
            && prev == Doubled(inputs)[|inputs| - 1] && cur == Doubled(inputs)[|inputs|]
            && frac == Ahead(|outputs|, |inputs| - 1, fromHz, toHz)
            && |inputs| == ((|outputs| - 1) * fromHz) / toHz + 1)
      && Determined(Doubled(inputs), outputs)
    }

    /** Primed, and positioned somewhere at or after the last input. */
    ghost predicate Reading()
      reads this
    {
      && fromHz > 0 && toHz > 0 && primed && inputs != []
      && prev == Doubled(inputs)[|inputs| - 1] && cur == Doubled(inputs)[|inputs|]
      && frac == Ahead(|outputs|, |inputs| - 1, fromHz, toHz)
      && Determined(Doubled(inputs), outputs)
    }

    /** What was read is what the source delivered, in order. */
    twostate predicate Heard(source: PlaybackSource)
      reads this, source
    {
      && old(source.delivered) <= source.delivered
      && inputs == old(inputs) + source.delivered[|old(source.delivered)|..]
    }

    method Prime(source: PlaybackSource)
      requires Pulling() && source.Valid()
      modifies this, source, source.ring
      ensures Reading() && source.Valid() && Heard(source) && outputs == old(outputs)
    {
      if !primed {
        var s := source.Next();
        DropSnoc(old(source.delivered), s, |old(source.delivered)|);
        prev, cur, primed := s, s, true;
        inputs := [s];
        assert Ahead(0, 0, fromHz, toHz) == 0;
      }
    }

    /** Moves on by one input. */
    method ReadOne(source: PlaybackSource)
      requires Reading() && frac >= toHz && source.Valid()
      modifies this, source, source.ring
      ensures Reading() && source.Valid() && Heard(source) && outputs == old(outputs) && frac == old(frac) - toHz
    {
      ghost var heard := source.delivered;
      AheadMoves(|outputs|, |inputs| - 1, fromHz, toHz);
      frac := frac - toHz;
      prev := cur;
      cur := source.Next();
      DoubledSnoc(inputs, cur);
      DeterminedMore(Doubled(inputs), cur, outputs);
      DropSnoc(heard, cur, |heard|);
      inputs := inputs + [cur];
    }

    /** Reads inputs until the next output lies inside the current interval. */
    method CatchUp(source: PlaybackSource)
      requires Reading() && source.Valid()
      modifies this, source, source.ring
      ensures Reading() && source.Valid() && Heard(source) && outputs == old(outputs) && frac < toHz
    {
      ghost var first, from := inputs, source.delivered;
      while frac >= toHz
        invariant Reading() && source.Valid() && outputs == old(outputs)
        invariant from <= source.delivered && inputs == first + source.delivered[|from|..]
        decreases frac
      {
        ghost var middle := source.delivered;
        ReadOne(source);
        AppendOnward(first, from, middle, source.delivered);
      }
    }

    method EmitNext() returns (out: real)
      requires Reading() && frac < toHz
      modifies this
      ensures Pulling() && inputs == old(inputs) && outputs == old(outputs) + [out]
    {
      ghost var n, k := |outputs|, |inputs| - 1;
      out := Lerp(prev, cur, frac, toHz);
      DeterminedNext(Doubled(inputs), outputs, frac);
      QuotientIs(n * fromHz, toHz, k, frac);
      AheadMoves(n, k, fromHz, toHz);
      frac := frac + fromHz;
      outputs := outputs + [out];
      assert |outputs| - 1 == n;
    }

    /** One output sample, reading the source as far as needed. */
    method Pull(source: PlaybackSource) returns (out: real)
      requires Pulling() && source.Valid()
      modifies this, source, source.ring
      ensures Pulling() && source.Valid() && Heard(source) && outputs == old(outputs) + [out]
    {
      Prime(source);
      ghost var primedAt := source.delivered;
      CatchUp(source);
      DropTwice(old(source.delivered), primedAt, source.delivered);
      Associates(old(inputs), primedAt[|old(source.delivered)|..], source.delivered[|primedAt|..]);
      out := EmitNext();
    }

    /** The pulled outputs are the first of those the producer-driven mode gives for
        the same stream with its first sample repeated. */
    lemma PulledIsPushed()
      requires Pulling()
      ensures outputs <= Resampled(Doubled(inputs), fromHz, toHz)
    {
      if inputs != [] {
        ReachesCount((|outputs| - 1) * fromHz, toHz, |inputs|, |outputs|, fromHz);
      }
    }
  }

  /** Reading position `a / to` inside input `k` is one of the determined ones. */
  lemma ReachesCount(a: nat, to: nat, k: nat, n: nat, from: nat)
    requires to > 0 && from > 0 && n >= 1 && a == (n - 1) * from && k == a / to + 1
    ensures n <= CeilDiv(k * to, from)
  {
    assert a < k * to;
    var c := CeilDiv(k * to, from);
    assert k * to <= c * from by {
      assert k * to == (k * to / from) * from + k * to % from;
      assert (k * to / from + 1) * from == (k * to / from) * from + from;
    }
    if c <= n - 1 {
      MulMono(c, n - 1, from);
    }
  }

  function Doubled(xs: seq<real>): (ys: seq<real>)
    ensures |ys| == if xs == [] then 0 else |xs| + 1
  {
    if xs == [] then [] else [xs[0]] + xs
  }

  lemma DoubledSnoc(xs: seq<real>, x: real)
    requires xs != []
    ensures Doubled(xs + [x]) == Doubled(xs) + [x]
  {
  }

  lemma DoubledAt(xs: seq<real>, q: nat)
    requires q <= |xs| && xs != []
    ensures Doubled(xs)[q] == if q == 0 then xs[0] else xs[q - 1]
  {
  }

  /** An output of the stream with its first sample repeated lies between the inputs
      around its position, one late. */
  lemma PulledIsBetween(xs: seq<real>, ys: seq<real>, from: nat, to: nat, m: nat, q: nat)
    requires from > 0 && to > 0 && xs != [] && ys <= Resampled(Doubled(xs), from, to) && m < |ys|
    requires q == (m * from) / to
    ensures q < |xs| && Between(ys[m], if q == 0 then xs[0] else xs[q - 1], xs[q])
  {
    OutputIsBetween(Doubled(xs), from, to, m, q);
    DoubledAt(xs, q);
    DoubledAt(xs, q + 1);
  }

  /** Where it falls on an input it is that input. */
  lemma PulledOnInput(xs: seq<real>, ys: seq<real>, from: nat, to: nat, m: nat, q: nat)
    requires from > 0 && to > 0 && xs != [] && ys <= Resampled(Doubled(xs), from, to) && m < |ys|
    requires q == (m * from) / to && (m * from) % to == 0
    ensures q < |xs| && ys[m] == if q == 0 then xs[0] else xs[q - 1]
  {
    OutputOnInput(Doubled(xs), from, to, m);
    OutputHasNeighbours(Doubled(xs), from, to, m);
    DoubledAt(xs, q);
  }
}
