/** The zero-crossing rate of a frame, and what it tells: on how many of the
    neighbouring pairs of samples the sign changes. */
module ZeroCrossings {
  import opened Sequences

  /** Whether the sign changes from sample `k` to the next. */
  predicate Crosses(frame: seq<real>, k: nat)
    requires k + 1 < |frame|
  {
    (frame[k] >= 0.0) != (frame[k + 1] >= 0.0)
  }

  function Crossings(frame: seq<real>, n: nat): (count: nat)
    requires n < |frame|
    ensures count <= n
  {
    if n == 0 then 0 else Crossings(frame, n - 1) + if Crosses(frame, n - 1) then 1 else 0
  }

  lemma Share(part: nat, whole: nat)
    requires part <= whole && whole > 0
    ensures 0.0 <= part as real / whole as real <= 1.0
    ensures part as real / whole as real == 0.0 <==> part == 0
    ensures part as real / whole as real == 1.0 <==> part == whole
  {
    var p, w := part as real, whole as real;
    assert w * (p / w) == p;
  }

  function Zcr(frame: seq<real>): (rate: real)
    ensures 0.0 <= rate <= 1.0
  {
    if |frame| < 2 then 0.0
    else
      Share(Crossings(frame, |frame| - 1), |frame| - 1);
      Crossings(frame, |frame| - 1) as real / (|frame| - 1) as real
  }

  // ---- What is counted ----

  /** The sample is below zero and the next is not, or the other way round. */
  predicate Rises(frame: seq<real>, k: nat)
    requires k + 1 < |frame|
  {
    frame[k] < 0.0 <= frame[k + 1]
  }

  predicate Falls(frame: seq<real>, k: nat)
    requires k + 1 < |frame|
  {
    frame[k + 1] < 0.0 <= frame[k]
  }

  function Changes(frame: seq<real>, n: nat): set<nat>
    requires n < |frame|
  {
    set k: nat | k < n && (Rises(frame, k) || Falls(frame, k))
  }

  lemma {:induction false} CrossingsAreChanges(frame: seq<real>, n: nat)
    requires n < |frame|
    ensures Crossings(frame, n) == |Changes(frame, n)|
  {
    if n == 0 {
      assert Changes(frame, 0) == {};
    } else {
      CrossingsAreChanges(frame, n - 1);
      assert Changes(frame, n) == Changes(frame, n - 1) + if Crosses(frame, n - 1) then {n - 1} else {};
    }
  }

  /** The rate is the share of neighbouring pairs between which the sign changes. */
  lemma RateIsShareOfChanges(frame: seq<real>)
    requires |frame| >= 2
    ensures Zcr(frame) * (|frame| - 1) as real == |Changes(frame, |frame| - 1)| as real
  {
    CrossingsAreChanges(frame, |frame| - 1);
  }

  // ---- The ends of its range ----

  predicate OneSided(frame: seq<real>) {
    (forall k :: 0 <= k < |frame| ==> frame[k] >= 0.0) || (forall k :: 0 <= k < |frame| ==> frame[k] < 0.0)
  }

  /** Every sample but the last lies on the other side than the next. */
  predicate Zigzag(frame: seq<real>) {
    forall i, j :: 0 <= i < |frame| && j == i + 1 < |frame| ==> (frame[i] >= 0.0 <==> frame[j] < 0.0)
  }

  /** No crossing up to sample `n`: all of them lie on the side of the first. */
  lemma {:induction false} NoCrossings(frame: seq<real>, n: nat)
    requires n < |frame|
    ensures Crossings(frame, n) == 0 <==> forall k :: 0 <= k <= n ==> (frame[k] >= 0.0 <==> frame[0] >= 0.0)
  {
    if n > 0 {
      NoCrossings(frame, n - 1);
    }
  }

  lemma {:induction false} AllCrossings(frame: seq<real>, n: nat)
    requires n < |frame|
    ensures Crossings(frame, n) == n <==> forall k :: 0 <= k < n ==> Crosses(frame, k)
  {
    if n > 0 {
      AllCrossings(frame, n - 1);
    }
  }

  /** The rate is 0 exactly for frames that stay on one side of zero. */
  lemma RateIsZeroIff(frame: seq<real>)
    ensures Zcr(frame) == 0.0 <==> OneSided(frame)
  {
    if |frame| >= 2 {
      NoCrossings(frame, |frame| - 1);
      Share(Crossings(frame, |frame| - 1), |frame| - 1);
    }
  }

  /** The rate is 1 exactly for frames that change sides at every sample. */
  lemma RateIsOneIff(frame: seq<real>)
    requires |frame| >= 2
    ensures Zcr(frame) == 1.0 <==> Zigzag(frame)
  {
    AllCrossings(frame, |frame| - 1);
    Share(Crossings(frame, |frame| - 1), |frame| - 1);
    if Zigzag(frame) {
      forall k | 0 <= k < |frame| - 1 ensures Crosses(frame, k) {
        assert frame[k] >= 0.0 <==> frame[k + 1] < 0.0;
      }
    } else {
      var i, j :| 0 <= i < |frame| && j == i + 1 < |frame| && !(frame[i] >= 0.0 <==> frame[j] < 0.0);
      assert !Crosses(frame, i);
    }
  }

  // ---- What it does not depend on ----

  /** Both frames have their samples on the same sides of zero. */
  predicate SameSides(a: seq<real>, b: seq<real>) {
    |a| == |b| && forall k :: 0 <= k < |a| ==> (a[k] >= 0.0 <==> b[k] >= 0.0)
  }

  lemma {:induction false} SameCrossings(a: seq<real>, b: seq<real>, n: nat)
    requires SameSides(a, b) && n < |a|
    ensures Crossings(a, n) == Crossings(b, n)
  {
    if n > 0 {
      SameCrossings(a, b, n - 1);
    }
  }

  function Amplified(frame: seq<real>, gain: real): (louder: seq<real>)
    ensures |louder| == |frame| && forall k :: 0 <= k < |frame| ==> louder[k] == gain * frame[k]
  {
    seq(|frame|, k requires 0 <= k < |frame| => gain * frame[k])
  }

  lemma GainKeepsSide(x: real, gain: real)
    requires gain > 0.0
    ensures gain * x >= 0.0 <==> x >= 0.0
  {
    if x < 0.0 {
      assert gain * -x > 0.0;
    }
  }

  /** Turning the volume up or down does not change the rate. */
  lemma RateIgnoresGain(frame: seq<real>, gain: real)
    requires gain > 0.0
    ensures Zcr(Amplified(frame, gain)) == Zcr(frame)
  {
    forall k | 0 <= k < |frame| ensures Amplified(frame, gain)[k] >= 0.0 <==> frame[k] >= 0.0 {
      GainKeepsSide(frame[k], gain);
    }
    if |frame| >= 2 {
      SameCrossings(frame, Amplified(frame, gain), |frame| - 1);
    }
  }
}
