/** Runs of voiced and silent frames at the end of a history, shared by the two
    voice-activity detectors. */
module VoiceRuns {
  import opened Sequences
  import T = SessionTypes

  /** How many frames at the end of the history are voiced. */
  function VoicedRun(h: seq<bool>): nat {
    if h != [] && h[|h| - 1] then VoicedRun(h[..|h| - 1]) + 1 else 0
  }

  /** How many frames at the end of the history are silent. */
  function SilentRun(h: seq<bool>): nat {
    if h != [] && !h[|h| - 1] then SilentRun(h[..|h| - 1]) + 1 else 0
  }

  lemma RunsSnoc(h: seq<bool>, v: bool)
    ensures VoicedRun(h + [v]) == if v then VoicedRun(h) + 1 else 0
    ensures SilentRun(h + [v]) == if v then 0 else SilentRun(h) + 1
    ensures (h + [v])[..|h|] == h
  {
    assert (h + [v])[..|h|] == h;
  }

  /** A run of `n` voiced frames is `n` voiced frames at the end. */
  lemma {:induction false} VoicedRunMeans(h: seq<bool>, n: nat)
    ensures VoicedRun(h) >= n <==> n <= |h| && forall k :: |h| - n <= k < |h| ==> h[k]
    decreases n
  {
    if n > 0 && h != [] {
      VoicedRunMeans(h[..|h| - 1], n - 1);
      if h[|h| - 1] {
        forall k | |h| - n <= k < |h| && VoicedRun(h) >= n ensures h[k] {
          assert k < |h| - 1 ==> h[k] == h[..|h| - 1][k];
        }
      }
    }
  }

  /** A run of `n` silent frames is `n` silent frames at the end. */
  lemma {:induction false} SilentRunMeans(h: seq<bool>, n: nat)
    ensures SilentRun(h) >= n <==> n <= |h| && forall k :: |h| - n <= k < |h| ==> !h[k]
    decreases n
  {
    if n > 0 && h != [] {
      SilentRunMeans(h[..|h| - 1], n - 1);
      if !h[|h| - 1] {
        forall k | |h| - n <= k < |h| && SilentRun(h) >= n ensures !h[k] {
          assert k < |h| - 1 ==> h[k] == h[..|h| - 1][k];
        }
      }
    }
  }

  /** `n` voiced frames. */
  function Voices(n: nat): (h: seq<bool>)
    ensures |h| == n && forall k :: 0 <= k < n ==> h[k]
  {
    if n == 0 then [] else Voices(n - 1) + [true]
  }

  // ---- Silence after a moment ----

  /** No prefix of `h` longer than `i` ends in a silent run as long as `closes`. */
  ghost predicate NeverQuiet(h: seq<bool>, i: nat, closes: nat) {
    forall j :: i < j <= |h| ==> SilenceAt(h, j) < closes
  }

  function SilenceAt(h: seq<bool>, j: nat): nat
    requires j <= |h|
  {
    SilentRun(h[..j])
  }

  lemma SilenceAtSnoc(h: seq<bool>, v: bool)
    ensures SilenceAt(h + [v], |h| + 1) == SilentRun(h + [v])
    ensures forall j :: 0 <= j <= |h| ==> SilenceAt(h + [v], j) == SilenceAt(h, j)
  {
    WholePrefix(h + [v]);
    forall j | 0 <= j <= |h| ensures SilenceAt(h + [v], j) == SilenceAt(h, j) {
      PrefixOfSnoc(h, v, j);
    }
  }

  lemma QuietSnoc(h: seq<bool>, v: bool, i: nat, closes: nat)
    requires i <= |h|
    ensures NeverQuiet(h + [v], i, closes) <==> NeverQuiet(h, i, closes) && SilenceAt(h + [v], |h| + 1) < closes
  {
    SilenceAtSnoc(h, v);
  }

  // ---- Hysteresis ----

  /** Speech is on: some frame that starts it was never followed by a silent run of
      length `closes`. */
  ghost predicate On(starts: seq<bool>, h: seq<bool>, closes: nat)
    requires |starts| == |h|
  {
    exists i :: 0 < i <= |h| && StartsAt(starts, i) && NeverQuiet(h, i, closes)
  }

  predicate StartsAt(starts: seq<bool>, i: nat)
    requires 0 < i <= |starts|
  {
    starts[i - 1]
  }

  /** How one frame switches speech on or off. */
  lemma OnSnoc(starts: seq<bool>, h: seq<bool>, start: bool, v: bool, closes: nat)
    requires |starts| == |h|
    ensures On(starts + [start], h + [v], closes) <==>
      start || (On(starts, h, closes) && SilentRun(h + [v]) < closes)
  {
    var all, g := starts + [start], h + [v];
    SilenceAtSnoc(h, v);
    if start {
      assert StartsAt(all, |g|) && NeverQuiet(g, |g|, closes);
    }
    if On(starts, h, closes) && SilentRun(g) < closes {
      var i :| 0 < i <= |h| && StartsAt(starts, i) && NeverQuiet(h, i, closes);
      QuietSnoc(h, v, i, closes);
      assert StartsAt(all, i);
    }
    if On(all, g, closes) && !start {
      var i :| 0 < i <= |g| && StartsAt(all, i) && NeverQuiet(g, i, closes);
      QuietSnoc(h, v, i, closes);
      assert StartsAt(starts, i);
    }
  }

  // ---- What a detector reports ----

  /** The event of a frame, from whether speech was on before it and is on after. */
  function Verdict(before: bool, after: bool): T.DetectorEvent {
    if after then (if before then T.SpeechContinue else T.SpeechStart)
    else if before then T.SpeechEnd
    else T.DetectorEvent.Silence
  }

  predicate Quiet(e: T.DetectorEvent) {
    e == T.DetectorEvent.Silence || e == T.SpeechEnd
  }

  /** Whether `next` may follow `e`: speech starts only from quiet, continues and
      ends only while it lasts. */
  predicate MayFollow(e: T.DetectorEvent, next: T.DetectorEvent) {
    if Quiet(e) then next == T.DetectorEvent.Silence || next == T.SpeechStart
    else next == T.SpeechContinue || next == T.SpeechEnd
  }

  /** Events that alternate, leaving speech `on` or off: each stretch is opened
      once, continued and closed once. */
  ghost predicate Alternates(events: seq<T.DetectorEvent>, on: bool) {
    && (if events == [] then !on
        else (Quiet(events[|events| - 1]) <==> !on) && MayFollow(T.SpeechEnd, events[0]))
    && forall i, j :: 0 <= i < |events| && j == i + 1 < |events| ==> MayFollow(events[i], events[j])
  }

  lemma AlternatesSnoc(events: seq<T.DetectorEvent>, on: bool, next: bool)
    requires Alternates(events, on)
    ensures Alternates(events + [Verdict(on, next)], next)
  {
    ElementsOfSnoc(events, Verdict(on, next));
  }
}
