/** The detectors on raw frames: what the spectral-variation gate keeps out, and for
    which configurations the documented rules hold of everything a microphone can
    deliver. */
module DetectorFrames {
  import opened Wrappers
  import opened Arithmetic
  import opened Sequences
  import opened VoiceRuns
  import opened Variation
  import opened Energy
  import opened Reals
  import opened ZeroCrossings
  import T = SessionTypes
  import N = NoiseFloor
  import B = BargeIn
  import E = Endpoint

  // ---- Sounds that never interrupt ----

  lemma {:induction false} EqualSums(xs: seq<real>, r: real)
    requires forall k :: 0 <= k < |xs| ==> xs[k] == r
    ensures Total(xs) == |xs| as real * r && Total(Deviations(xs, r)) == 0.0
  {
    if xs != [] {
      EqualSums(xs[..|xs| - 1], r);
    }
  }

  lemma EqualRatesDoNotVary(xs: seq<real>, r: real)
    requires forall k :: 0 <= k < |xs| ==> xs[k] == r
    ensures Variance(xs) == 0.0
  {
    EqualSums(xs, r);
    if xs != [] {
      MeanOf(Total(xs), |xs| as real, r);
      MeanOf(Total(Deviations(xs, r)), |xs| as real, 0.0);
    }
  }

  lemma NewestRates(frames: seq<N.AudioFrame>, n: nat, r: real)
    requires forall f :: f in Newest(frames, n) ==> Zcr(f) == r
    ensures forall i :: 0 <= i < |Newest(N.Zcrs(frames), n)| ==> Newest(N.Zcrs(frames), n)[i] == r
  {
    forall i | 0 <= i < |Newest(N.Zcrs(frames), n)| ensures Newest(N.Zcrs(frames), n)[i] == r {
      assert Newest(frames, n)[i] in Newest(frames, n);
    }
  }

  lemma EvenRatesDoNotStart(c: B.Config, log: seq<B.Entry>, r: real)
    requires c.minVariance > 0.0
    requires forall i :: 0 <= i < |Newest(B.Rates(log), c.confirmWindow)| ==>
      Newest(B.Rates(log), c.confirmWindow)[i] == r
    ensures !B.Starts(c, log)
  {
    EqualRatesDoNotVary(Newest(B.Rates(log), c.confirmWindow), r);
  }

  /** A sound whose newest frames, as many as the window holds, all have the same
      zero-crossing rate starts no interruption, however loud it is and whatever
      came before: a constant offset, for one, or the same wave in every frame. */
  lemma EvenSoundNeverInterrupts(c: B.Config, k: B.Known, frames: seq<N.AudioFrame>, frame: N.AudioFrame, r: real)
    requires B.Sight(c, k.log, frames) && c.minVariance > 0.0
    requires forall f :: f in Newest(frames + [frame], c.confirmWindow) ==> Zcr(f) == r
    ensures
      var voiced := N.Snr(c.frontend, frames, frame) >= c.thresholdDb;
      B.Report(c, k.log, B.EntryOf(k, voiced, Zcr(frame))) != T.SpeechStart
  {
    var voiced := N.Snr(c.frontend, frames, frame) >= c.thresholdDb;
    var e := B.EntryOf(k, voiced, Zcr(frame));
    B.LogSnoc(k.log, e);
    N.FramesSnoc(c.frontend, c.thresholdDb, frames, frame);
    NewestRates(frames + [frame], c.confirmWindow, r);
    EvenRatesDoNotStart(c, k.log + [e], r);
    B.ReportMeans(c, k.log, e);
  }

  /** Among them every sound that stays on one side of zero within each frame. */
  lemma OneSidedSoundNeverInterrupts(c: B.Config, k: B.Known, frames: seq<N.AudioFrame>, frame: N.AudioFrame)
    requires B.Sight(c, k.log, frames) && c.minVariance > 0.0
    requires forall f :: f in Newest(frames + [frame], c.confirmWindow) ==> OneSided(f)
    ensures
      var voiced := N.Snr(c.frontend, frames, frame) >= c.thresholdDb;
      B.Report(c, k.log, B.EntryOf(k, voiced, Zcr(frame))) != T.SpeechStart
  {
    forall f | f in Newest(frames + [frame], c.confirmWindow) ensures Zcr(f) == 0.0 {
      RateIsZeroIff(f);
    }
    EvenSoundNeverInterrupts(c, k, frames, frame, 0.0);
  }

  // ---- Square waves ----

  function Constant(x: real): N.AudioFrame {
    seq(T.FRAME_SAMPLES, _ => x)
  }

  function Alternating(x: real): N.AudioFrame {
    seq(T.FRAME_SAMPLES, k => if k % 2 == 0 then x else -x)
  }

  /** A frame of samples `x` and `-x` that changes sides at every sample or never. */
  function Square(x: real, fast: bool): N.AudioFrame {
    if fast then Alternating(x) else Constant(x)
  }

  lemma {:induction false} SquareSum(frame: seq<real>, x: real)
    requires forall k :: 0 <= k < |frame| ==> frame[k] == x || frame[k] == -x
    ensures SumOfSquares(frame) == |frame| as real * (x * x)
  {
    if frame != [] {
      SquareSum(frame[..|frame| - 1], x);
      assert -x * -x == x * x;
    }
  }

  lemma SquareLevel(c: N.Config, frame: seq<real>, x: real)
    requires x > 0.0 && frame != [] && forall k :: 0 <= k < |frame| ==> frame[k] == x || frame[k] == -x
    ensures N.Level(c, frame) == N.MaxReal(c.decibels(x * x), c.silenceFloor)
  {
    SquareSum(frame, x);
    MeanOf(SumOfSquares(frame), |frame| as real, x * x);
    ProductIsPositive(x, x, SumOfSquares(frame) / |frame| as real);
  }

  lemma SquareFeatures(c: N.Config, x: real, fast: bool)
    requires x > 0.0
    ensures N.Level(c, Square(x, fast)) == N.MaxReal(c.decibels(x * x), c.silenceFloor)
    ensures Zcr(Square(x, fast)) == if fast then 1.0 else 0.0
  {
    SquareLevel(c, Square(x, fast), x);
    if fast {
      RateIsOneIff(Alternating(x));
    } else {
      RateIsZeroIff(Constant(x));
    }
  }

  lemma MeanOf(total: real, n: real, x: real)
    requires n > 0.0 && total == n * x
    ensures total / n == x
  {
  }

  // ---- Every history is that of some frames ----

  /** A front end that hears full scale at the threshold, anything softer as silence. */
  function Steps(thresholdDb: real): N.Config {
    N.Config(0.0, 0.0, 0.0, (meanSquare: real) => if meanSquare >= 1.0 then thresholdDb else 0.0)
  }

  lemma {:induction false} StepsKeepFloor(thresholdDb: real, levels: seq<real>)
    requires forall k :: 0 <= k < |levels| ==> levels[k] >= 0.0
    ensures N.Floor(Steps(thresholdDb), levels) == 0.0
  {
    if levels != [] {
      StepsKeepFloor(thresholdDb, levels[..|levels| - 1]);
    }
  }

  predicate Bits(rates: seq<real>) {
    forall k :: 0 <= k < |rates| ==> rates[k] == 0.0 || rates[k] == 1.0
  }

  function Sound(voiced: bool, rate: real): N.AudioFrame {
    Square(if voiced then 1.0 else 0.5, rate == 1.0)
  }

  function Sounds(h: seq<bool>, rates: seq<real>): (frames: seq<N.AudioFrame>)
    requires |h| == |rates|
  {
    if h == [] then [] else Sounds(h[..|h| - 1], rates[..|h| - 1]) + [Sound(h[|h| - 1], rates[|h| - 1])]
  }

  lemma SoundIs(thresholdDb: real, before: seq<N.AudioFrame>, voiced: bool, rate: real)
    requires thresholdDb > 0.0 && (rate == 0.0 || rate == 1.0)
    ensures N.Snr(Steps(thresholdDb), before, Sound(voiced, rate)) >= thresholdDb <==> voiced
    ensures Zcr(Sound(voiced, rate)) == rate
  {
    var c := Steps(thresholdDb);
    var level := N.Level(c, Sound(voiced, rate));
    SquareFeatures(c, if voiced then 1.0 else 0.5, rate == 1.0);
    StepsKeepFloor(thresholdDb, N.Levels(c, before) + [level]);
  }

  lemma {:induction false} SoundsAre(thresholdDb: real, h: seq<bool>, rates: seq<real>)
    requires thresholdDb > 0.0 && |h| == |rates| && Bits(rates)
    ensures N.Voiced(Steps(thresholdDb), thresholdDb, Sounds(h, rates)) == h && N.Zcrs(Sounds(h, rates)) == rates
  {
    if h != [] {
      var before, last := Sounds(h[..|h| - 1], rates[..|h| - 1]), Sound(h[|h| - 1], rates[|h| - 1]);
      SoundsAre(thresholdDb, h[..|h| - 1], rates[..|h| - 1]);
      SoundIs(thresholdDb, before, h[|h| - 1], rates[|h| - 1]);
      N.FramesSnoc(Steps(thresholdDb), thresholdDb, before, last);
      WithoutLast(h);
      WithoutLast(rates);
    }
  }

  /** A frame never lies below the floor it makes, so a threshold that is not above
      zero takes everything for voice. */
  lemma SnrIsNotNegative(frontend: N.Config, before: seq<N.AudioFrame>, frame: N.AudioFrame)
    ensures N.Snr(frontend, before, frame) >= 0.0
  {
    N.FloorSnoc(frontend, N.Levels(frontend, before), N.Level(frontend, frame));
  }

  lemma {:induction false} AllVoiced(frontend: N.Config, thresholdDb: real, frames: seq<N.AudioFrame>)
    requires thresholdDb <= 0.0
    ensures N.Voiced(frontend, thresholdDb, frames) == Voices(|frames|)
  {
    if frames != [] {
      AllVoiced(frontend, thresholdDb, frames[..|frames| - 1]);
      SnrIsNotNegative(frontend, frames[..|frames| - 1], frames[|frames| - 1]);
    }
  }

  // ---- The count rule of the barge-in detector ----

  ghost predicate CountRuleHolds(c: B.Config, frontend: N.Config, frames: seq<N.AudioFrame>) {
    B.AgreesOn(c, N.Voiced(frontend, c.thresholdDb, frames), N.Zcrs(frames))
  }

  lemma {:induction false} ExtremesAreBits(n: nat)
    ensures Bits(Extremes(n))
  {
    if n > 0 {
      ExtremesAreBits(n - 1);
    }
  }

  lemma VoicesAgree(c: B.Config, n: nat, rates: seq<real>)
    requires |rates| == n && 1 <= c.confirmWindow && c.confirmCount <= c.confirmWindow
    ensures B.AgreesOn(c, Voices(n), rates)
  {
    VoicedRunMeans(Voices(n), c.confirmWindow);
    B.CountBounds(Newest(Voices(n), c.confirmWindow));
  }

  /** Whatever is recorded, and through whatever front end, the documented rule
      agrees with the detector: exactly if the count is no smaller than the window,
      or no window can vary enough, or everything is voiced in a window that is one. */
  lemma CountRuleHoldsOnFramesIff(c: B.Config)
    ensures
      (forall frontend, frames :: CountRuleHolds(c, frontend, frames)) <==>
      || c.confirmCount >= Max(1, c.confirmWindow)
      || !B.Attainable(c)
      || (c.thresholdDb <= 0.0 && c.confirmWindow >= 1)
  {
    if c.confirmCount >= Max(1, c.confirmWindow) || !B.Attainable(c) {
      forall frontend, frames ensures CountRuleHolds(c, frontend, frames) {
        B.RuleAgrees(c, N.Voiced(frontend, c.thresholdDb, frames), N.Zcrs(frames));
      }
    } else if c.thresholdDb <= 0.0 && c.confirmWindow >= 1 {
      forall frontend, frames ensures CountRuleHolds(c, frontend, frames) {
        AllVoiced(frontend, c.thresholdDb, frames);
        VoicesAgree(c, |frames|, N.Zcrs(frames));
      }
    } else {
      CountRuleFails(c);
    }
  }

  lemma CountRuleFails(c: B.Config)
    requires c.confirmCount < Max(1, c.confirmWindow) && B.Attainable(c)
    requires c.thresholdDb > 0.0 || c.confirmWindow == 0
    ensures exists frontend, frames :: !CountRuleHolds(c, frontend, frames)
  {
    var n := c.confirmWindow;
    var frames := Sounds(B.LateVoices(n), Extremes(n));
    ExtremesVary(n);
    ExtremesAreBits(n);
    B.RuleDisagrees(c, Extremes(n));
    if n > 0 {
      SoundsAre(c.thresholdDb, B.LateVoices(n), Extremes(n));
    }
    assert !CountRuleHolds(c, Steps(c.thresholdDb), frames);
  }

  // ---- The hangover of the endpoint detector ----

  ghost predicate HangoverHolds(c: E.Config, frontend: N.Config, frames: seq<N.AudioFrame>, frame: N.AudioFrame) {
    E.EndsAsDocumented(c, N.Voiced(frontend, c.thresholdDb, frames),
                       N.Snr(frontend, frames, frame) >= c.thresholdDb)
  }

  /** Whatever is recorded, and through whatever front end, speech ends after the
      configured number of silent frames: exactly if that is at least 2, or is 1 and
      no frame is silent. */
  lemma HangoverHoldsOnFramesIff(c: E.Config)
    ensures
      (forall frontend, frames, frame :: HangoverHolds(c, frontend, frames, frame)) <==>
      c.hangoverFrames >= 2 || (c.hangoverFrames == 1 && c.thresholdDb <= 0.0)
  {
    if c.hangoverFrames >= 2 || (c.hangoverFrames == 1 && c.thresholdDb <= 0.0) {
      forall frontend, frames, frame ensures HangoverHolds(c, frontend, frames, frame) {
        var h, v := N.Voiced(frontend, c.thresholdDb, frames), N.Snr(frontend, frames, frame) >= c.thresholdDb;
        SnrIsNotNegative(frontend, frames, frame);
        RunsSnoc(h, v);
        E.ReportMeans(c, h, v);
      }
    } else if c.thresholdDb <= 0.0 {
      NoHangoverFails(c);
    } else {
      ShortHangoverFails(c);
    }
  }

  /** A silent frame after speech has begun and another do not end it at the first. */
  lemma ShortHangoverFails(c: E.Config)
    requires c.hangoverFrames < 2 && c.thresholdDb > 0.0
    ensures exists frontend, frames, frame :: !HangoverHolds(c, frontend, frames, frame)
  {
    var h := Voices(E.ToOpen(c)) + [false];
    var frames := Sounds(h, Zeros(|h|));
    SoundsAre(c.thresholdDb, h, Zeros(|h|));
    SoundIs(c.thresholdDb, frames, false, 0.0);
    E.TwoSilentFrames(c);
    FailsOn(c, Steps(c.thresholdDb), frames, Sound(false, 0.0), h, false);
  }

  function Zeros(n: nat): (rates: seq<real>)
    ensures |rates| == n && Bits(rates)
  {
    seq(n, _ => 0.0)
  }

  lemma FailsOn(
    c: E.Config, frontend: N.Config, frames: seq<N.AudioFrame>, frame: N.AudioFrame, h: seq<bool>, v: bool)
    requires N.Voiced(frontend, c.thresholdDb, frames) == h && (N.Snr(frontend, frames, frame) >= c.thresholdDb <==> v)
    requires !E.EndsAsDocumented(c, h, v)
    ensures !HangoverHolds(c, frontend, frames, frame)
  {
  }

  /** With a hangover of no frames, speech should end while it is voiced. */
  lemma NoHangoverFails(c: E.Config)
    requires c.hangoverFrames == 0 && c.thresholdDb <= 0.0
    ensures exists frontend, frames, frame :: !HangoverHolds(c, frontend, frames, frame)
  {
    var n := E.ToOpen(c);
    var frames: seq<N.AudioFrame> := seq(n, _ => Constant(1.0));
    AllVoiced(Steps(1.0), c.thresholdDb, frames);
    SnrIsNotNegative(Steps(1.0), frames, Constant(1.0));
    E.VoicesOpen(c);
    RunsSnoc(Voices(n), true);
    E.ReportMeans(c, Voices(n), true);
    assert !HangoverHolds(c, Steps(1.0), frames, Constant(1.0));
  }

  // ---- With the default configurations ----

  /** Two levels in decibels: of full scale, and of a thousandth of it. */
  predicate IsDecibels(decibels: real -> real) {
    decibels(1.0) == 0.0 && decibels(0.000001) == -60.0
  }

  function Frontend(decibels: real -> real): N.Config {
    N.Config(-50.0, 0.05, -90.0, decibels)
  }

  const WHISPER := Alternating(0.001)

  lemma LoudFeatures(decibels: real -> real, fast: bool)
    requires IsDecibels(decibels)
    ensures N.Level(Frontend(decibels), Square(1.0, fast)) == 0.0
    ensures Zcr(Square(1.0, fast)) == if fast then 1.0 else 0.0
  {
    SquareFeatures(Frontend(decibels), 1.0, fast);
  }

  lemma Soft(decibels: real -> real)
    requires IsDecibels(decibels)
    ensures N.Level(Frontend(decibels), WHISPER) == -60.0 && Zcr(WHISPER) == 1.0
  {
    SquareFeatures(Frontend(decibels), 0.001, true);
  }

  lemma FeaturesNext(d: real -> real, threshold: real, before: seq<N.AudioFrame>, frame: N.AudioFrame, floor: real)
    requires N.Floor(Frontend(d), N.Levels(Frontend(d), before)) == floor
    ensures
      var level := N.Level(Frontend(d), frame);
      var next := N.Follow(Frontend(d), floor, level);
      && N.Floor(Frontend(d), N.Levels(Frontend(d), before + [frame])) == next
      && N.Voiced(Frontend(d), threshold, before + [frame]) ==
         N.Voiced(Frontend(d), threshold, before) + [level - next >= threshold]
      && N.Zcrs(before + [frame]) == N.Zcrs(before) + [Zcr(frame)]
      && N.Snr(Frontend(d), before, frame) == level - next
  {
    N.FramesSnoc(Frontend(d), threshold, before, frame);
    N.FloorSnoc(Frontend(d), N.Levels(Frontend(d), before), N.Level(Frontend(d), frame));
  }

  const QUIET_LOUD: seq<N.AudioFrame> := [] + [WHISPER] + [Constant(1.0)]
  const SHOUTS := QUIET_LOUD + [Alternating(1.0)] + [Constant(1.0)]

  lemma LoudNext(decibels: real -> real, threshold: real, before: seq<N.AudioFrame>, fast: bool, floor: real)
    requires IsDecibels(decibels) && -60.0 <= floor <= -1.0
    requires N.Floor(Frontend(decibels), N.Levels(Frontend(decibels), before)) == floor
    ensures
      var frames := before + [Square(1.0, fast)];
      && N.Floor(Frontend(decibels), N.Levels(Frontend(decibels), frames)) == floor + 0.05
      && N.Voiced(Frontend(decibels), threshold, frames) ==
         N.Voiced(Frontend(decibels), threshold, before) + [-floor - 0.05 >= threshold]
      && N.Zcrs(frames) == N.Zcrs(before) + [if fast then 1.0 else 0.0]
  {
    LoudFeatures(decibels, fast);
    FeaturesNext(decibels, threshold, before, Square(1.0, fast), floor);
  }

  lemma SoftNext(decibels: real -> real, threshold: real, before: seq<N.AudioFrame>, floor: real)
    requires IsDecibels(decibels) && -60.0 <= floor
    requires N.Floor(Frontend(decibels), N.Levels(Frontend(decibels), before)) == floor
    ensures
      var frames := before + [WHISPER];
      && N.Floor(Frontend(decibels), N.Levels(Frontend(decibels), frames)) == -60.0
      && N.Voiced(Frontend(decibels), threshold, frames) ==
         N.Voiced(Frontend(decibels), threshold, before) + [0.0 >= threshold]
      && N.Zcrs(frames) == N.Zcrs(before) + [1.0]
      && N.Snr(Frontend(decibels), before, WHISPER) == 0.0
  {
    Soft(decibels);
    FeaturesNext(decibels, threshold, before, WHISPER, floor);
  }

  lemma Quiet(decibels: real -> real)
    requires IsDecibels(decibels)
    ensures N.Floor(Frontend(decibels), N.Levels(Frontend(decibels), [] + [WHISPER])) == -60.0
    ensures N.Voiced(Frontend(decibels), 15.0, [] + [WHISPER]) == [] + [false]
    ensures N.Zcrs([] + [WHISPER]) == [] + [1.0]
  {
    SoftNext(decibels, 15.0, [], -50.0);
  }

  lemma QuietLoud(decibels: real -> real)
    requires IsDecibels(decibels)
    ensures N.Floor(Frontend(decibels), N.Levels(Frontend(decibels), QUIET_LOUD)) == -59.95
    ensures N.Voiced(Frontend(decibels), 15.0, QUIET_LOUD) == [] + [false] + [true]
    ensures N.Zcrs(QUIET_LOUD) == [] + [1.0] + [0.0]
  {
    Quiet(decibels);
    LoudNext(decibels, 15.0, [] + [WHISPER], false, -60.0);
  }

  lemma ShoutsFeatures(decibels: real -> real)
    requires IsDecibels(decibels)
    ensures N.Voiced(Frontend(decibels), 15.0, SHOUTS) == [false, true, true, true]
    ensures N.Zcrs(SHOUTS) == [1.0, 0.0, 1.0, 0.0]
  {
    QuietLoud(decibels);
    LoudNext(decibels, 15.0, QUIET_LOUD, true, -59.95);
    LoudNext(decibels, 15.0, QUIET_LOUD + [Alternating(1.0)], false, -59.9);
  }

  /** A whisper and three shouts, of which the default barge-in configuration takes
      the shouts for voice: three in a window of four, varied enough, and not what
      starts speech. */
  lemma DefaultsDisagreeOnFrames(decibels: real -> real)
    requires IsDecibels(decibels)
    ensures
      var c := B.Default(Frontend(decibels));
      && N.Voiced(c.frontend, c.thresholdDb, SHOUTS) == [false, true, true, true]
      && N.Zcrs(SHOUTS) == [1.0, 0.0, 1.0, 0.0]
      && !CountRuleHolds(c, c.frontend, SHOUTS)
  {
    ShoutsFeatures(decibels);
    B.DefaultsDisagree(Frontend(decibels));
    assert B.LateVoices(4) == [false, true, true, true];
  }

  /** Nineteen shouts and two whispers: with the default endpoint configuration but
      a hangover of 1, speech has begun and outlasts the first whisper. */
  lemma ShortHangoverOutlastedOnFrames(decibels: real -> real)
    requires IsDecibels(decibels)
    ensures
      var c := E.Config(Frontend(decibels), 9.0, 19, 1);
      var frames := Shouting(19) + [WHISPER];
      N.Voiced(c.frontend, c.thresholdDb, frames) == Voices(19) + [false] &&
      !HangoverHolds(c, c.frontend, frames, WHISPER)
  {
    var c := E.Config(Frontend(decibels), 9.0, 19, 1);
    ShoutingIsVoiced(decibels, 19);
    SoftNext(decibels, 9.0, Shouting(19), -49.05);
    SoftNext(decibels, 9.0, Shouting(19) + [WHISPER], -60.0);
    E.TwoSilentFrames(c);
    FailsOn(c, c.frontend, Shouting(19) + [WHISPER], WHISPER, Voices(19) + [false], false);
  }

  function Shouting(n: nat): (frames: seq<N.AudioFrame>)
    ensures |frames| == n
  {
    if n == 0 then [] else Shouting(n - 1) + [Constant(1.0)]
  }

  /** The floor creeps up under a shout, too slowly to reach it. */
  lemma {:induction false} ShoutingIsVoiced(decibels: real -> real, n: nat)
    requires IsDecibels(decibels) && n <= 19
    ensures N.Voiced(Frontend(decibels), 9.0, Shouting(n)) == Voices(n)
    ensures N.Floor(Frontend(decibels), N.Levels(Frontend(decibels), Shouting(n))) == -50.0 + 0.05 * n as real
  {
    if n > 0 {
      ShoutingIsVoiced(decibels, n - 1);
      LoudNext(decibels, 9.0, Shouting(n - 1), false, -50.0 + 0.05 * (n - 1) as real);
    }
  }
}
