/** The endpoint detector: an automaton with counters, equal to a specification
    over the whole history of frames. */
module Endpoint {
  import opened Wrappers
  import opened Arithmetic
  import opened Sequences
  import opened VoiceRuns
  import T = SessionTypes
  import N = NoiseFloor

  datatype Config = Config(frontend: N.Config, thresholdDb: real, minVoicedFrames: nat, hangoverFrames: nat)

  datatype State = Silence | Confirming(voicedFrames: nat) | Active | Hangover(silentFrames: nat)

  /** Voiced frames that open speech, and silent frames that close it. A single
      silent frame never closes it, whatever the configuration. */
  function ToOpen(c: Config): nat {
    Max(1, c.minVoicedFrames)
  }

  function ToClose(c: Config): nat {
    Max(2, c.hangoverFrames)
  }

  /** At which frames the voiced run was long enough to open speech. */
  function Opens(c: Config, h: seq<bool>): (opens: seq<bool>)
    ensures |opens| == |h|
  {
    if h == [] then [] else Opens(c, h[..|h| - 1]) + [VoicedRun(h) >= ToOpen(c)]
  }

  /** Offline: some long enough voiced run was never followed by a long enough
      silent one. */
  ghost predicate InSpeech(c: Config, h: seq<bool>) {
    On(Opens(c, h), h, ToClose(c))
  }

  /** What the frame `v` reports after the history `h`. */
  ghost function Report(c: Config, h: seq<bool>, v: bool): T.DetectorEvent {
    Verdict(InSpeech(c, h), InSpeech(c, h + [v]))
  }

  /** How one frame changes the offline verdict. */
  lemma InSpeechSnoc(c: Config, h: seq<bool>, v: bool)
    ensures InSpeech(c, h + [v]) <==>
      (InSpeech(c, h) && SilentRun(h + [v]) < ToClose(c)) || VoicedRun(h + [v]) >= ToOpen(c)
  {
    RunsSnoc(h, v);
    OnSnoc(Opens(c, h), h, VoicedRun(h + [v]) >= ToOpen(c), v, ToClose(c));
  }

  /** Speech starts exactly when, outside speech, the voiced run reaches its
      length; it ends exactly when, inside, the silent run reaches its length. */
  lemma ReportMeans(c: Config, h: seq<bool>, v: bool)
    ensures Report(c, h, v) == T.SpeechStart <==> !InSpeech(c, h) && VoicedRun(h + [v]) == Max(1, c.minVoicedFrames)
    ensures Report(c, h, v) == T.SpeechEnd <==> InSpeech(c, h) && SilentRun(h + [v]) == Max(2, c.hangoverFrames)
  {
    InSpeechSnoc(c, h, v);
    SpeechBoundsRuns(c, h);
    RunsSnoc(h, v);
  }

  /** The hangover as documented: that many silent frames end speech. */
  ghost predicate EndsAsDocumented(c: Config, h: seq<bool>, v: bool) {
    Report(c, h, v) == T.SpeechEnd <==> InSpeech(c, h) && SilentRun(h + [v]) == c.hangoverFrames
  }

  /** It is what happens on every history exactly when it is at least 2: shorter
      hangovers act as 2. */
  lemma HangoverHoldsIff(c: Config)
    ensures (forall h: seq<bool>, v: bool :: EndsAsDocumented(c, h, v)) <==> c.hangoverFrames >= 2
  {
    if c.hangoverFrames >= 2 {
      forall h: seq<bool>, v: bool ensures EndsAsDocumented(c, h, v) {
        ReportMeans(c, h, v);
      }
    } else {
      TwoSilentFrames(c);
    }
  }

  /** A hangover shorter than 2 is over at the first silent frame, and speech is not. */
  lemma TwoSilentFrames(c: Config)
    requires c.hangoverFrames < 2
    ensures !EndsAsDocumented(c, Voices(ToOpen(c)) + [false], false)
  {
    var h := Voices(ToOpen(c)) + [false];
    OneSilentFrame(c);
    ReportMeans(c, h, false);
    RunsSnoc(h, false);
  }

  lemma EnoughVoicesOpen(c: Config, h: seq<bool>)
    requires VoicedRun(h) + 1 >= ToOpen(c)
    ensures InSpeech(c, h + [true])
  {
    RunsSnoc(h, true);
    InSpeechSnoc(c, h, true);
  }

  lemma VoicesOpen(c: Config)
    ensures InSpeech(c, Voices(ToOpen(c)))
  {
    var n := ToOpen(c) - 1;
    VoicedRunMeans(Voices(n), n);
    EnoughVoicesOpen(c, Voices(n));
    assert Voices(n + 1) == Voices(n) + [true];
  }

  /** Speech outlasts one silent frame. */
  lemma OneSilentFrame(c: Config)
    ensures InSpeech(c, Voices(ToOpen(c)) + [false]) && SilentRun(Voices(ToOpen(c)) + [false]) == 1
  {
    var open := Voices(ToOpen(c));
    VoicesOpen(c);
    VoicedRunMeans(open, ToOpen(c));
    RunsSnoc(open, false);
    InSpeechSnoc(c, open, false);
  }

  /** Outside speech the voiced run is too short to open it; inside, the silent run
      is too short to close it. */
  lemma {:induction false} SpeechBoundsRuns(c: Config, h: seq<bool>)
    ensures !InSpeech(c, h) ==> VoicedRun(h) < ToOpen(c)
    ensures InSpeech(c, h) ==> SilentRun(h) < ToClose(c)
  {
    if h != [] {
      var before, v := h[..|h| - 1], h[|h| - 1];
      assert h == before + [v];
      InSpeechSnoc(c, before, v);
      RunsSnoc(before, v);
    }
  }

  /** The events of a whole history. */
  ghost function Reports(c: Config, h: seq<bool>): seq<T.DetectorEvent> {
    if h == [] then [] else Reports(c, h[..|h| - 1]) + [Report(c, h[..|h| - 1], h[|h| - 1])]
  }

  /** The events of any history alternate quiet stretches with utterances, each
      opened once, continued and closed once. */
  lemma {:induction false} ReportsAlternate(c: Config, h: seq<bool>)
    ensures |Reports(c, h)| == |h| && Alternates(Reports(c, h), InSpeech(c, h))
  {
    if h != [] {
      var before, v := h[..|h| - 1], h[|h| - 1];
      ReportsAlternate(c, before);
      WithoutLast(h);
      AlternatesSnoc(Reports(c, before), InSpeech(c, before), InSpeech(c, h));
    }
  }

  /** The voicing of a history of frames. */
  function Voiced(c: Config, frames: seq<N.AudioFrame>): seq<bool> {
    N.Voiced(c.frontend, c.thresholdDb, frames)
  }

  class EndpointDetector {
    const config: Config
    const frontend: N.VoicingFrontend
    var state: State
    ghost var heard: seq<bool>

    /** The state against the offline verdict. */
    ghost predicate Remembers()
      reads this
    {
      match state
      case Silence => !InSpeech(config, heard) && VoicedRun(heard) == 0
      case Confirming(n) => !InSpeech(config, heard) && VoicedRun(heard) == n && 1 <= n < ToOpen(config)
      case Active => InSpeech(config, heard) && SilentRun(heard) == 0
      case Hangover(n) => InSpeech(config, heard) && SilentRun(heard) == n && 1 <= n < ToClose(config)
    }

    ghost predicate Valid()
      reads this, frontend
    {
      Remembers() && frontend.Valid() && frontend.config == config.frontend && heard == Voiced(config, frontend.frames)
    }

    constructor (config: Config)
      ensures Valid() && this.config == config && frontend.frames == [] && fresh(frontend)
    {
      this.config, state, heard := config, Silence, [];
      frontend := new N.VoicingFrontend(config.frontend);
    }

    method Reset()
      requires frontend.config == config.frontend
      modifies this, frontend
      ensures Valid() && frontend.frames == []
    {
      frontend.Reset();
      state, heard := Silence, [];
    }

    /** One raw frame: its event is the one the whole history of frames has offline.
        A frame of the wrong length is an error and changes nothing. */
    method PushFrame(frame: seq<real>) returns (r: Result<T.DetectorEvent, nat>)
      requires Valid()
      modifies this, frontend
      ensures Valid()
      ensures |frame| != T.FRAME_SAMPLES ==>
        r == Err(|frame|) && frontend.frames == old(frontend.frames) && state == old(state)
      ensures |frame| == T.FRAME_SAMPLES ==>
        && frontend.frames == old(frontend.frames) + [frame]
        && r == Ok(Report(config, Voiced(config, old(frontend.frames)),
                          N.Snr(config.frontend, old(frontend.frames), frame) >= config.thresholdDb))
    {
      ghost var before := frontend.frames;
      var features := frontend.Process(frame);
      match features {
        case Err(error) => r := Err(error);
        case Ok(f) =>
          N.FramesSnoc(config.frontend, config.thresholdDb, before, frame);
          var event := Hear(f.snrDb >= config.thresholdDb);
          r := Ok(event);
      }
    }

    /** The automaton's step on one frame, voiced or not. */
    method Hear(voiced: bool) returns (event: T.DetectorEvent)
      requires Remembers()
      modifies this
      ensures Remembers() && heard == old(heard) + [voiced] && event == Report(config, old(heard), voiced)
    {
      InSpeechSnoc(config, heard, voiced);
      RunsSnoc(heard, voiced);
      heard := heard + [voiced];
      match state {
        case Silence =>
          if voiced {
            if config.minVoicedFrames <= 1 {
              state, event := Active, T.SpeechStart;
            } else {
              state, event := Confirming(1), T.DetectorEvent.Silence;
            }
          } else {
            event := T.DetectorEvent.Silence;
          }
        case Confirming(voicedFrames) =>
          if voiced {
            var count := voicedFrames + 1;
            if count >= config.minVoicedFrames {
              state, event := Active, T.SpeechStart;
            } else {
              state, event := Confirming(count), T.DetectorEvent.Silence;
            }
          } else {
            state, event := Silence, T.DetectorEvent.Silence;
          }
        case Active =>
          event := T.SpeechContinue;
          if !voiced {
            state := Hangover(1);
          }
        case Hangover(silentFrames) =>
          if voiced {
            state, event := Active, T.SpeechContinue;
          } else if silentFrames + 1 >= config.hangoverFrames {
            state, event := Silence, T.SpeechEnd;
          } else {
            state, event := Hangover(silentFrames + 1), T.SpeechContinue;
          }
      }
    }
  }
}
