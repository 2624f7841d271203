/** The conversation after the synthesiser has been lost. */
module LostVoice {
  import opened Wrappers
  import opened SessionTypes
  import opened Conversation
  import opened ConversationSafety
  import opened ConversationTheorems
  import S = Session
  import A = BuzzAgent

  ghost predicate Mute(w: World) {
    !w.tts && forall t: TurnId :: Count(w.pending, t) == 0
  }

  lemma LosingMutes(w: World)
    ensures Mute(LoseTts(w))
  {
  }

  lemma EffectKeepsMute(w: World, input: Input, n: S.Session)
    ensures EffectTo(w, input, n).tts == w.tts && EffectTo(w, input, n).pending == w.pending
  {
    EffectOutcome(w, input, n);
  }

  lemma DispatchKeepsMute(w: World, input: Input)
    requires Coherent(w) && Direct(input) && Mute(w)
    ensures Mute(Dispatch(w, input))
  {
    DispatchHasEffect(w, input);
    EffectKeepsMute(w, input, S.Handle(w.session, input).next);
  }

  lemma RebuildKeepsMute(w: World)
    requires Coherent(w) && Mute(w)
    ensures Mute(Rebuild(w))
  {
    var x := Replaced(w);
    PacingIsFree(w, 0, None, 0);
    DispatchKeepsOk(x, SessionEnd);
    DispatchKeepsMute(x, SessionEnd);
    DispatchKeepsMute(Dispatch(x, SessionEnd), SessionStart);
  }

  lemma TextKeepsMute(w: World, turn: TurnId, text: string, phrases: seq<string>)
    requires Mute(w)
    ensures Mute(OnText(w, turn, text, phrases))
  {
    AgentInput(StartIfNew(w, turn), AgentTextArrived(turn, text));
  }

  lemma DrainKeepsMute(w: World, turn: TurnId)
    requires Mute(w)
    ensures Mute(SignalDrained(w, turn))
  {
    AgentInput(w.(pending := w.pending - {turn}), PlaybackDrained(turn));
    forall t: TurnId ensures Count(w.pending - {turn}, t) == 0 {
      assert Count(w.pending, t) == 0;
    }
  }

  lemma CompleteKeepsMute(w: World, turn: TurnId, now: Instant)
    requires Mute(w)
    ensures Mute(OnComplete(w, turn, now))
  {
    var x := NoteComplete(w, turn);
    AgentInput(x, AgentTurnComplete(turn));
    DrainKeepsMute(Dispatch(x, AgentTurnComplete(turn)), turn);
  }

  lemma FeedKeepsMute(w: World, now: Instant)
    requires Mute(w)
    ensures Mute(Feed(w, now))
  {
    FeedOutcome(w, now);
    var dry := Topped(w, now).(pushed := 0, anchor := None);
    if dry.playback.liveTurn.Some? {
      DrainKeepsMute(dry, dry.playback.liveTurn.value);
    }
  }

  lemma StepKeepsMute(w: World, e: Event)
    requires Coherent(w) && Enabled(w, e) && Mute(w)
    ensures Mute(Step(w, e))
  {
    match e {
      case External(input) => DispatchKeepsMute(w, input);
      case Text(turn, text, phrases) => TextKeepsMute(w, turn, text, phrases);
      case Complete(turn, now) => CompleteKeepsMute(w, turn, now);
      case FeedTick(now) => FeedKeepsMute(w, now);
      case Rebuilt => RebuildKeepsMute(w);
      case Polled(now, quiet, phrases) =>
        var p := A.Poll(w.agent, now, quiet);
        var x := w.(agent := p.agent);
        match p.event {
          case None =>
          case Some(TextChunk(turn, text)) => TextKeepsMute(x, turn, text, phrases);
          case Some(TurnComplete(turn)) => CompleteKeepsMute(x, turn, now);
        }
      case TtsLost => LosingMutes(w);
      case _ =>
    }
  }

  /** Once the synthesiser is lost no turn waits for it any more, whatever follows. */
  lemma {:induction false} LostVoiceIsNeverAwaited(w: World, events: seq<Event>)
    requires Coherent(w) && Mute(w) && Legit(w, events)
    ensures Mute(Run(w, events))
    decreases |events|
  {
    if events != [] {
      StepKeepsOk(w, events[0]);
      StepKeepsMute(w, events[0]);
      LostVoiceIsNeverAwaited(Step(w, events[0]), events[1..]);
    }
  }
}
