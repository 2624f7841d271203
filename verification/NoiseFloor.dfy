/** The energy front end of the two detectors: a noise floor that follows the
    minimum of the frame levels, and two features of each frame. */
module NoiseFloor {
  import opened Wrappers
  import opened Sequences
  import opened SessionTypes
  import opened Energy
  import opened ZeroCrossings

  /** `decibels` turns a positive mean square into a level; nothing is assumed of
      it. */
  datatype Config = Config(initialFloor: real, risePerFrame: real, silenceFloor: real, decibels: real -> real)

  datatype Features = Features(energy: real, noiseFloor: real, snrDb: real, zcr: real)

  function MaxReal(a: real, b: real): real {
    if a < b then b else a
  }

  function MinReal(a: real, b: real): real {
    if b < a then b else a
  }

  /** The level of a frame, never below that of digital silence. */
  function Level(c: Config, frame: seq<real>): (level: real)
    requires frame != []
    ensures level >= c.silenceFloor
  {
    var meanSquare := MeanSquare(frame);
    if meanSquare <= 0.0 then c.silenceFloor else MaxReal(c.decibels(meanSquare), c.silenceFloor)
  }

  /** The level is that of silence for a frame of zeros, and otherwise the decibels
      of the mean of the squares, whatever the order of the samples. */
  lemma LevelMeans(c: Config, frame: seq<real>)
    requires frame != []
    ensures (forall k :: 0 <= k < |frame| ==> frame[k] == 0.0) ==> Level(c, frame) == c.silenceFloor
    ensures
      !(forall k :: 0 <= k < |frame| ==> frame[k] == 0.0) ==>
        Level(c, frame) == MaxReal(c.decibels(MeanSquare(frame)), c.silenceFloor)
  {
    SumIsZeroIff(frame);
    PositiveShare(SumOfSquares(frame), |frame| as real);
  }

  lemma PositiveShare(sum: real, n: real)
    requires n > 0.0 && sum >= 0.0
    ensures sum / n >= 0.0 && (sum / n == 0.0 <==> sum == 0.0)
  {
    assert n * (sum / n) == sum;
  }

  lemma LevelIgnoresOrder(c: Config, a: seq<real>, b: seq<real>)
    requires a != [] && multiset(a) == multiset(b)
    ensures |a| == |b| && Level(c, a) == Level(c, b)
  {
    assert |multiset(a)| == |a| && |multiset(b)| == |b|;
    SumIgnoresOrder(a, b);
  }

  lemma MeanUnderGain(frame: seq<real>, gain: real, power: real)
    requires frame != [] && power == gain * gain
    ensures MeanSquare(Amplified(frame, gain)) == power * MeanSquare(frame)
  {
    SumUnderGain(frame, gain, power);
    ShareOfProduct(SumOfSquares(Amplified(frame, gain)), power, SumOfSquares(frame), |frame| as real);
  }

  /** Where decibels are logarithmic, turning the volume up by a factor raises the
      level by its decibels, as long as neither level is that of silence. */
  lemma LevelUnderGain(c: Config, frame: seq<real>, gain: real, power: real, rise: real)
    requires frame != [] && power == gain * gain
    requires forall x :: x > 0.0 ==> c.decibels(power * x) == c.decibels(x) + rise
    requires Level(c, frame) > c.silenceFloor && Level(c, Amplified(frame, gain)) > c.silenceFloor
    ensures Level(c, Amplified(frame, gain)) == Level(c, frame) + rise
  {
    MeanUnderGain(frame, gain, power);
  }

  lemma ShareOfProduct(product: real, a: real, b: real, n: real)
    requires n > 0.0 && product == a * b
    ensures product / n == a * (b / n)
  {
    assert n * (b / n) == b;
    assert product == (a * (b / n)) * n;
  }

  /** How the floor moves on one frame. */
  function Follow(c: Config, floor: real, level: real): real {
    MaxReal(if level < floor then level else MinReal(floor + c.risePerFrame, level), c.silenceFloor)
  }

  function Floor(c: Config, levels: seq<real>): real {
    if levels == [] then c.initialFloor else Follow(c, Floor(c, levels[..|levels| - 1]), levels[|levels| - 1])
  }

  /** What level `i` allows the floor to be after `n` frames: itself, and one rise
      for every frame since. Level 0 is the initial floor, which the first frame
      raises at least to that of silence. */
  function Allowed(c: Config, levels: seq<real>, i: nat, n: nat): real
    requires i <= n && i <= |levels|
  {
    if i > 0 then levels[i - 1] + (n - i) as real * c.risePerFrame
    else if n == 0 then c.initialFloor
    else MaxReal(c.initialFloor + c.risePerFrame, c.silenceFloor) + (n - 1) as real * c.risePerFrame
  }

  lemma AllowedLater(c: Config, levels: seq<real>, level: real, i: nat, n: nat)
    requires i <= n && i <= |levels| && n > 0
    ensures Allowed(c, levels + [level], i, n + 1) == Allowed(c, levels, i, n) + c.risePerFrame
  {
    OneRise(if i > 0 then n - i else n - 1, c.risePerFrame);
  }

  lemma OneRise(n: nat, rise: real)
    ensures (n + 1) as real * rise == n as real * rise + rise
  {
  }

  ghost predicate LowestAllowed(c: Config, levels: seq<real>) {
    && (forall i :: 0 <= i <= |levels| ==> Floor(c, levels) <= Allowed(c, levels, i, |levels|))
    && (exists i :: 0 <= i <= |levels| && Floor(c, levels) == Allowed(c, levels, i, |levels|))
  }

  /** The follower, frame by frame, is a closed form over the whole history: the
      lowest of what the initial floor and every level so far allow. That is for a
      rise that is one; for a configured rise below zero see `NegativeRiseOnlyFalls`. */
  lemma {:induction false} FloorIsTheLowestAllowed(c: Config, levels: seq<real>)
    requires forall k :: 0 <= k < |levels| ==> levels[k] >= c.silenceFloor
    ensures levels != [] ==> Floor(c, levels) >= c.silenceFloor
    ensures c.risePerFrame >= 0.0 ==> LowestAllowed(c, levels)
  {
    if levels == [] {
      assert Floor(c, levels) == Allowed(c, levels, 0, 0);
    } else {
      WithoutLast(levels);
      FloorIsTheLowestAllowed(c, levels[..|levels| - 1]);
      if c.risePerFrame >= 0.0 {
        if |levels| == 1 {
          FirstFloor(c, levels);
        } else {
          NextFloor(c, levels[..|levels| - 1], levels[|levels| - 1]);
        }
      }
    }
  }

  lemma FirstFloor(c: Config, levels: seq<real>)
    requires c.risePerFrame >= 0.0 && |levels| == 1 && levels[0] >= c.silenceFloor
    ensures LowestAllowed(c, levels)
  {
    assert Floor(c, levels) == Allowed(c, levels, 0, 1) || Floor(c, levels) == Allowed(c, levels, 1, 1);
  }

  lemma NextFloor(c: Config, before: seq<real>, level: real)
    requires c.risePerFrame >= 0.0 && before != [] && level >= c.silenceFloor
    requires Floor(c, before) >= c.silenceFloor && LowestAllowed(c, before)
    ensures LowestAllowed(c, before + [level])
  {
    var levels := before + [level];
    PrefixOfSnoc(before, level, |before|);
    WholePrefix(before);
    forall i | 0 <= i <= |levels| ensures Floor(c, levels) <= Allowed(c, levels, i, |levels|) {
      if i < |levels| {
        AllowedLater(c, before, level, i, |before|);
      }
    }
    if Floor(c, levels) == level {
      assert Allowed(c, levels, |levels|, |levels|) == level;
    } else {
      var i :| 0 <= i <= |before| && Floor(c, before) == Allowed(c, before, i, |before|);
      AllowedLater(c, before, level, i, |before|);
    }
  }

  /** A configured rise below zero never lets the floor rise at all, save to that of
      silence. */
  lemma NegativeRiseOnlyFalls(c: Config, levels: seq<real>, level: real)
    requires c.risePerFrame < 0.0
    ensures c.silenceFloor <= Floor(c, levels + [level]) <= MaxReal(Floor(c, levels), c.silenceFloor)
  {
    FloorSnoc(c, levels, level);
  }

  // ---- Features of a history of frames ----

  type AudioFrame = frame: seq<real> | |frame| == FRAME_SAMPLES witness seq(FRAME_SAMPLES, _ => 0.0)

  function Levels(c: Config, frames: seq<AudioFrame>): (levels: seq<real>)
    ensures |levels| == |frames| && forall k :: 0 <= k < |levels| ==> levels[k] >= c.silenceFloor
  {
    if frames == [] then [] else Levels(c, frames[..|frames| - 1]) + [Level(c, frames[|frames| - 1])]
  }

  /** How far a frame lies above the floor that it and all frames before it make. */
  function Snr(c: Config, before: seq<AudioFrame>, frame: AudioFrame): real {
    Level(c, frame) - Floor(c, Levels(c, before) + [Level(c, frame)])
  }

  /** Which frames were voiced when they arrived. */
  function Voiced(c: Config, threshold: real, frames: seq<AudioFrame>): (h: seq<bool>)
    ensures |h| == |frames|
  {
    if frames == [] then []
    else
      var before := frames[..|frames| - 1];
      Voiced(c, threshold, before) + [Snr(c, before, frames[|frames| - 1]) >= threshold]
  }

  function Zcrs(frames: seq<AudioFrame>): (rates: seq<real>)
    ensures |rates| == |frames| && forall k :: 0 <= k < |frames| ==> rates[k] == Zcr(frames[k])
  {
    if frames == [] then [] else Zcrs(frames[..|frames| - 1]) + [Zcr(frames[|frames| - 1])]
  }

  lemma FramesSnoc(c: Config, threshold: real, frames: seq<AudioFrame>, frame: AudioFrame)
    ensures Levels(c, frames + [frame]) == Levels(c, frames) + [Level(c, frame)]
    ensures Voiced(c, threshold, frames + [frame]) ==
            Voiced(c, threshold, frames) + [Snr(c, frames, frame) >= threshold]
    ensures Zcrs(frames + [frame]) == Zcrs(frames) + [Zcr(frame)]
  {
    PrefixOfSnoc(frames, frame, |frames|);
    WholePrefix(frames);
  }

  lemma FloorSnoc(c: Config, levels: seq<real>, level: real)
    ensures Floor(c, levels + [level]) == Follow(c, Floor(c, levels), level)
  {
    PrefixOfSnoc(levels, level, |levels|);
    WholePrefix(levels);
  }

  class VoicingFrontend {
    const config: Config
    var floorDbfs: real
    ghost var frames: seq<AudioFrame>

    ghost predicate Valid()
      reads this
    {
      floorDbfs == Floor(config, Levels(config, frames))
    }

    constructor (config: Config)
      ensures Valid() && this.config == config && frames == []
    {
      this.config, floorDbfs, frames := config, config.initialFloor, [];
    }

    method Reset()
      modifies this
      ensures Valid() && frames == []
    {
      floorDbfs, frames := config.initialFloor, [];
    }

    /** Falls at once to a quieter level, rises slowly otherwise. */
    method FollowLevel(energy: real)
      modifies this`floorDbfs
      ensures floorDbfs == Follow(config, old(floorDbfs), energy)
    {
      if energy < floorDbfs {
        floorDbfs := energy;
      } else {
        floorDbfs := MinReal(floorDbfs + config.risePerFrame, energy);
      }
      floorDbfs := MaxReal(floorDbfs, config.silenceFloor);
    }

    /** One frame. A frame of the wrong length is an error and changes nothing. */
    method Process(frame: seq<real>) returns (r: Result<Features, nat>)
      requires Valid()
      modifies this
      ensures Valid()
      ensures |frame| != FRAME_SAMPLES ==> r == Err(|frame|) && frames == old(frames) && floorDbfs == old(floorDbfs)
      ensures |frame| == FRAME_SAMPLES ==>
        && frames == old(frames) + [frame]
        && r == Ok(Features(Level(config, frame), Floor(config, Levels(config, frames)),
                            Snr(config, old(frames), frame), Zcr(frame)))
        && r.value.snrDb >= 0.0
    {
      if |frame| != FRAME_SAMPLES {
        return Err(|frame|);
      }
      var energy := Level(config, frame);
      FramesSnoc(config, 0.0, frames, frame);
      FloorSnoc(config, Levels(config, frames), energy);
      FollowLevel(energy);
      frames := frames + [frame];
      r := Ok(Features(energy, floorDbfs, energy - floorDbfs, Zcr(frame)));
    }
  }
}
