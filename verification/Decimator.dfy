/** The 48 kHz to 16 kHz decimator: a causal 31-tap filter of which every third
    output is kept. The taps are any 31 reals; sums are exact. */
module Decimator {
  import opened Reals
  import opened Sequences
  import opened Streams

  const DECIMATION: nat := 3
  const NUM_TAPS: nat := 31

  /** The filter at input `i`, over its first `n` taps: tap `t` weighs the sample
      `t` before the newest. */
  function Filtered(taps: seq<real>, xs: seq<real>, i: int, n: nat): real
    requires n <= |taps|
  {
    if n == 0 then 0.0 else Filtered(taps, xs, i, n - 1) + At(xs, i - (n - 1)) * taps[n - 1]
  }

  /** How many inputs at or before `n - 1` have an index divisible by 3. */
  function Kept(n: nat): nat {
    (n + 2) / 3
  }

  /** What a whole stream decimates to: direct convolution at every third input. */
  function Decimated(taps: seq<real>, xs: seq<real>): seq<real> {
    seq(Kept(|xs|), k requires 0 <= k => Filtered(taps, xs, 3 * k, |taps|))
  }

  lemma {:induction false} FilteredIsCausal(taps: seq<real>, xs: seq<real>, more: seq<real>, i: int, n: nat)
    requires n <= |taps| && i < |xs|
    ensures Filtered(taps, xs + more, i, n) == Filtered(taps, xs, i, n)
  {
    if n > 0 {
      FilteredIsCausal(taps, xs, more, i, n - 1);
    }
  }

  /** Decimating a longer stream continues the shorter one's output. */
  lemma DecimatedExtends(taps: seq<real>, xs: seq<real>, more: seq<real>)
    ensures Decimated(taps, xs) <= Decimated(taps, xs + more)
  {
    forall k | 0 <= k < Kept(|xs|) ensures Decimated(taps, xs)[k] == Decimated(taps, xs + more)[k] {
      FilteredIsCausal(taps, xs, more, 3 * k, |taps|);
    }
  }

  /** What a chunk yields after everything in `before`. */
  function Yield(taps: seq<real>, before: seq<real>, chunk: seq<real>): seq<real> {
    DecimatedExtends(taps, before, chunk);
    Decimated(taps, before + chunk)[|Decimated(taps, before)|..]
  }

  /** Chunking does not matter: two chunks in turn yield what they yield as one. */
  lemma ChunkingIsInvisible(taps: seq<real>, before: seq<real>, a: seq<real>, b: seq<real>)
    ensures Yield(taps, before, a + b) == Yield(taps, before, a) + Yield(taps, before + a, b)
  {
    Associates(before, a, b);
    DecimatedExtends(taps, before, a);
    DecimatedExtends(taps, before + a, b);
    DecimatedExtends(taps, before, a + b);
    DropTwice(Decimated(taps, before), Decimated(taps, before + a), Decimated(taps, before + a + b));
  }

  // ---- What the outputs are ----

  /** One output for each input whose index is divisible by 3. */
  lemma EveryThird(taps: seq<real>, xs: seq<real>, k: nat)
    ensures k < |Decimated(taps, xs)| <==> 3 * k < |xs|
  {
  }

  /** Silence but for a single 1 at `at`. */
  function Impulse(n: nat, at: nat): (xs: seq<real>)
    ensures |xs| == n && forall k :: 0 <= k < n ==> xs[k] == if k == at then 1.0 else 0.0
  {
    seq(n, k => if k == at then 1.0 else 0.0)
  }

  /** Tap `i` where it has been reached, and nothing otherwise. */
  function TapAt(taps: seq<real>, i: int, n: nat): real
    requires n <= |taps|
  {
    if 0 <= i < n then taps[i] else 0.0
  }

  lemma {:induction false} FilteredImpulse(taps: seq<real>, size: nat, at: nat, i: int, n: nat)
    requires n <= |taps| && i < size && at < size
    ensures Filtered(taps, Impulse(size, at), i, n) == TapAt(taps, i - at, n)
  {
    if n > 0 {
      FilteredImpulse(taps, size, at, i, n - 1);
      var x := At(Impulse(size, at), i - (n - 1));
      assert x == if i - (n - 1) == at then 1.0 else 0.0;
    }
  }

  /** A single 1 brings out the taps, every third of them. */
  lemma ImpulseYieldsTaps(taps: seq<real>, size: nat, at: nat, k: nat)
    requires at < size && 3 * k < size
    ensures Decimated(taps, Impulse(size, at))[k] == if 0 <= 3 * k - at < |taps| then taps[3 * k - at] else 0.0
  {
    FilteredImpulse(taps, size, at, 3 * k, |taps|);
  }

  function TapSum(taps: seq<real>, n: nat): real
    requires n <= |taps|
  {
    if n == 0 then 0.0 else TapSum(taps, n - 1) + taps[n - 1]
  }

  lemma {:induction false} FilteredConstant(taps: seq<real>, xs: seq<real>, level: real, i: int, n: nat)
    requires n <= |taps| && n - 1 <= i < |xs| && forall k :: 0 <= k < |xs| ==> xs[k] == level
    ensures Filtered(taps, xs, i, n) == level * TapSum(taps, n)
  {
    if n > 0 {
      FilteredConstant(taps, xs, level, i, n - 1);
      assert At(xs, i - (n - 1)) == level;
      Distributes(level, TapSum(taps, n - 1), taps[n - 1]);
    }
  }

  /** Once all taps are reached a constant comes out at its level, times their sum. */
  lemma ConstantKeepsLevel(taps: seq<real>, xs: seq<real>, level: real, k: nat)
    requires |taps| - 1 <= 3 * k < |xs| && forall j :: 0 <= j < |xs| ==> xs[j] == level
    ensures Decimated(taps, xs)[k] == level * TapSum(taps, |taps|)
  {
    FilteredConstant(taps, xs, level, 3 * k, |taps|);
  }

  predicate Key(k: nat) {
    k >= 0
  }

  /** `z` is `x` at volume `a` and `y` at volume `b`. Behind a key, so that a proof
      about sums carries it along whole. */
  ghost predicate Mixes(z: real, x: real, y: real, a: real, b: real) {
    forall k: nat :: Key(k) ==> z == a * x + b * y
  }

  /** Two streams mixed, each at its own volume. */
  ghost predicate Mixed(zs: seq<real>, xs: seq<real>, ys: seq<real>, a: real, b: real) {
    |zs| == |xs| == |ys| && forall i :: Mixes(At(zs, i), At(xs, i), At(ys, i), a, b)
  }

  lemma MixedMeans(zs: seq<real>, xs: seq<real>, ys: seq<real>, a: real, b: real)
    requires |zs| == |xs| == |ys|
    ensures Mixed(zs, xs, ys, a, b) <==> forall i :: 0 <= i < |zs| ==> zs[i] == a * xs[i] + b * ys[i]
  {
    assert Key(0);
    if Mixed(zs, xs, ys, a, b) {
      forall i | 0 <= i < |zs| ensures zs[i] == a * xs[i] + b * ys[i] {
        assert Mixes(At(zs, i), At(xs, i), At(ys, i), a, b);
      }
    }
  }

  lemma MixOneMore(h: real, f: real, g: real, z: real, x: real, y: real, t: real, a: real, b: real)
    requires Mixes(h, f, g, a, b) && Mixes(z, x, y, a, b)
    ensures Mixes(h + z * t, f + x * t, g + y * t, a, b)
  {
    assert Key(0);
    assert (a * x + b * y) * t == a * (x * t) + b * (y * t);
    assert a * (f + x * t) == a * f + a * (x * t) && b * (g + y * t) == b * g + b * (y * t);
  }

  lemma MixNothing(a: real, b: real)
    ensures Mixes(0.0, 0.0, 0.0, a, b)
  {
  }

  lemma {:induction false} FilteredMix(
    taps: seq<real>, zs: seq<real>, xs: seq<real>, ys: seq<real>, a: real, b: real, i: int, n: nat)
    requires n <= |taps| && Mixed(zs, xs, ys, a, b)
    ensures Mixes(Filtered(taps, zs, i, n), Filtered(taps, xs, i, n), Filtered(taps, ys, i, n), a, b)
  {
    if n == 0 {
      MixNothing(a, b);
    } else {
      var j := i - (n - 1);
      FilteredMix(taps, zs, xs, ys, a, b, i, n - 1);
      MixOneMore(Filtered(taps, zs, i, n - 1), Filtered(taps, xs, i, n - 1), Filtered(taps, ys, i, n - 1),
                 At(zs, j), At(xs, j), At(ys, j), taps[n - 1], a, b);
    }
  }

  /** Decimating a mix gives the mix of what each stream decimates to. */
  lemma DecimatedMix(taps: seq<real>, zs: seq<real>, xs: seq<real>, ys: seq<real>, a: real, b: real)
    requires |zs| == |xs| == |ys| && forall i :: 0 <= i < |zs| ==> zs[i] == a * xs[i] + b * ys[i]
    ensures |Decimated(taps, zs)| == |Decimated(taps, xs)| == |Decimated(taps, ys)|
    ensures forall k :: 0 <= k < |Decimated(taps, zs)| ==>
      Decimated(taps, zs)[k] == a * Decimated(taps, xs)[k] + b * Decimated(taps, ys)[k]
  {
    MixedMeans(zs, xs, ys, a, b);
    forall k | 0 <= k < Kept(|zs|)
      ensures Decimated(taps, zs)[k] == a * Decimated(taps, xs)[k] + b * Decimated(taps, ys)[k]
    {
      FilteredMix(taps, zs, xs, ys, a, b, 3 * k, |taps|);
      assert Key(0);
    }
  }

  class Resampler48to16 {
    const taps: seq<real>
    var history: seq<real>
    var sampleIndex: nat
    ghost var inputs: seq<real>

    ghost predicate Valid()
      reads this
    {
      Remembers() && sampleIndex == |inputs|
    }

    /** The history is the newest 31 inputs over silence. */
    ghost predicate Remembers()
      reads this
    {
      && |taps| == NUM_TAPS && |history| == NUM_TAPS
      && forall j :: 0 <= j < NUM_TAPS ==> history[j] == At(inputs, |inputs| - NUM_TAPS + j)
    }

    constructor (taps: seq<real>)
      requires |taps| == NUM_TAPS
      ensures Valid() && this.taps == taps && inputs == []
      ensures history == seq(NUM_TAPS, _ => 0.0) && sampleIndex == 0
    {
      this.taps := taps;
      history, sampleIndex, inputs := seq(NUM_TAPS, _ => 0.0), 0, [];
    }

    /** Back to exactly the state of a new decimator. */
    method Reset()
      requires Valid()
      modifies this
      ensures Valid() && inputs == []
      ensures history == seq(NUM_TAPS, _ => 0.0) && sampleIndex == 0
    {
      history, sampleIndex, inputs := seq(NUM_TAPS, _ => 0.0), 0, [];
    }

    /** The filter output at the newest input. */
    method Convolve() returns (y: real)
      requires Remembers()
      ensures y == Filtered(taps, inputs, |inputs| - 1, NUM_TAPS)
    {
      y := 0.0;
      for t := 0 to NUM_TAPS
        invariant y == Filtered(taps, inputs, |inputs| - 1, t)
      {
        y := y + history[NUM_TAPS - 1 - t] * taps[t];
      }
    }

    /** One input; yields a sample when its index is divisible by 3. */
    method Step(sample: real) returns (out: seq<real>)
      requires Valid()
      modifies this
      ensures Valid() && inputs == old(inputs) + [sample]
      ensures Decimated(taps, inputs) == Decimated(taps, old(inputs)) + out
    {
      history := history[1..] + [sample];
      inputs := inputs + [sample];
      out := [];
      DecimatedExtends(taps, old(inputs), [sample]);
      if sampleIndex % DECIMATION == 0 {
        var y := Convolve();
        out := [y];
      }
      sampleIndex := sampleIndex + 1;
    }

    /** A chunk yields exactly what direct convolution of the whole stream adds. */
    method Process(input: seq<real>) returns (out: seq<real>)
      requires Valid()
      modifies this
      ensures Valid() && inputs == old(inputs) + input
      ensures out == Yield(taps, old(inputs), input)
    {
      out := [];
      for k := 0 to |input|
        invariant Valid() && inputs == old(inputs) + input[..k]
        invariant Decimated(taps, inputs) == Decimated(taps, old(inputs)) + out
      {
        ghost var sofar := out;
        var more := Step(input[k]);
        out := out + more;
        PrefixSnoc(input, k);
        Associates(old(inputs), input[..k], [input[k]]);
        Associates(Decimated(taps, old(inputs)), sofar, more);
      }
      WholePrefix(input);
      DropPrefix(Decimated(taps, old(inputs)), out);
    }
  }

  lemma DropPrefix<T>(a: seq<T>, b: seq<T>)
    ensures (a + b)[|a|..] == b
  {
  }
}
