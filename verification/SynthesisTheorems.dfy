/** Phrases in synthesis, over whole runs. */
module SynthesisTheorems {
  import opened Wrappers
  import opened SessionTypes
  import opened Conversation
  import opened ConversationSafety
  import opened ConversationTheorems
  import S = Session
  import P = Playback
  import A = BuzzAgent
  import Safety = SessionSafety

  // ---- The pending count is exactly the phrases still in synthesis ----

  /** The worker answers no more than it was asked, turn by turn. */
  ghost predicate Honest(w: World, e: Event) {
    match e
    case Synthesized(turn, _) => Count(w.history.returned, turn) < Count(w.history.requested, turn)
    case _ => true
  }

  ghost predicate CountFits(
    s: S.Session, p: P.Playback<Sample>, tts: bool, pending: map<TurnId, nat>,
    requested: map<TurnId, nat>, returned: map<TurnId, nat>, turn: TurnId)
  {
    if P.Recognises(p, turn) then tts ==> Count(pending, turn) + Count(returned, turn) == Count(requested, turn)
    else Safety.Dead(s, turn) || (Count(requested, turn) == 0 && Count(returned, turn) == 0 && turn !in pending)
  }

  ghost predicate TurnCounts(w: World, turn: TurnId) {
    CountFits(w.session, w.playback, w.tts, w.pending, w.history.requested, w.history.returned, turn)
  }

  /** For a live or held turn, pending is requests minus results; a turn that has
      not started has neither. */
  ghost predicate PendingOk(w: World) {
    forall turn: TurnId :: TurnCounts(w, turn)
  }

  ghost predicate SameCounts(a: World, b: World) {
    b.tts == a.tts && b.pending == a.pending &&
    b.history.requested == a.history.requested && b.history.returned == a.history.returned
  }

  lemma EffectKeepsCounts(w: World, input: Input, n: S.Session)
    ensures SameCounts(w, EffectTo(w, input, n))
  {
    EffectOutcome(w, input, n);
  }

  /** A direct input revives no turn, and cancels the ones it removes. */
  lemma EffectForgetsCancelled(w: World, input: Input, n: S.Session, turn: TurnId)
    requires Safety.Good(w.session) && Lockstep(w.session, w.playback) && Moves(w.session, input, n)
    ensures
      var x := EffectTo(w, input, n);
      && (P.Recognises(x.playback, turn) ==> P.Recognises(w.playback, turn))
      && (P.Recognises(w.playback, turn) && !P.Recognises(x.playback, turn) ==> turn in x.history.cancelled)
  {
  }

  lemma DispatchKeepsPending(w: World, input: Input)
    requires Coherent(w) && Direct(input) && PendingOk(w)
    ensures PendingOk(Dispatch(w, input)) && Coherent(Dispatch(w, input))
  {
    DispatchHasEffect(w, input);
    DispatchKeepsOk(w, input);
    DirectMoves(w.session, input);
    var x, n := Dispatch(w, input), S.Handle(w.session, input).next;
    EffectKeepsCounts(w, input, n);
    forall t: TurnId ensures TurnCounts(x, t) {
      assert TurnCounts(w, t);
      EffectForgetsCancelled(w, input, n, t);
      DeadAfter(w, input, t);
    }
  }

  lemma DeadAfter(w: World, input: Input, turn: TurnId)
    requires Coherent(w) && Direct(input)
    ensures Safety.Dead(w.session, turn) ==> Safety.Dead(Dispatch(w, input).session, turn)
  {
    if Safety.Dead(w.session, turn) {
      Safety.DeadStep(w.session, turn, input);
      DispatchHasEffect(w, input);
    }
  }

  /** Agent and feeder inputs leave every count alone and revive no turn. */
  lemma AgentKeepsCounts(w: World, input: Input, turn: TurnId)
    requires Safety.Good(w.session) && TurnCounts(w, turn)
    requires FromAgent(input)
    ensures TurnCounts(Dispatch(w, input), turn)
  {
    AgentInput(w, input);
    if Safety.Dead(w.session, turn) {
      Safety.DeadStep(w.session, turn, input);
    }
  }

  lemma StartKeepsCounts(w: World, started: TurnId, turn: TurnId)
    requires Coherent(w) && started in w.history.submitted
    requires P.Recognises(w.playback, started) || w.session.current == Some(started)
    requires TurnCounts(w, turn)
    ensures TurnCounts(StartIfNew(w, started), turn)
  {
  }

  lemma AddKeepsCounts(w: World, added: TurnId, phrases: seq<string>, turn: TurnId)
    requires P.Recognises(w.playback, added) && TurnCounts(w, turn)
    ensures TurnCounts(AddPhrases(w, added, phrases), turn)
  {
  }

  lemma TextKeepsPending(w: World, turn: TurnId, text: string, phrases: seq<string>)
    requires Coherent(w) && PendingOk(w) && turn in w.history.submitted
    ensures PendingOk(OnText(w, turn, text, phrases))
  {
    if P.Recognises(w.playback, turn) || w.session.current == Some(turn) {
      var x := StartIfNew(w, turn);
      var y := Dispatch(x, AgentTextArrived(turn, text));
      AgentInput(x, AgentTextArrived(turn, text));
      forall t: TurnId ensures TurnCounts(AddPhrases(y, turn, phrases), t) {
        assert TurnCounts(w, t);
        StartKeepsCounts(w, turn, t);
        AgentKeepsCounts(x, AgentTextArrived(turn, text), t);
        AddKeepsCounts(y, turn, phrases, t);
      }
    }
  }

  lemma DrainKeepsPending(w: World, drained: TurnId)
    requires Safety.Good(w.session) && PendingOk(w)
    requires P.Recognises(w.playback, drained) ==> Count(w.pending, drained) == 0
    ensures PendingOk(SignalDrained(w, drained))
  {
    var x := w.(pending := w.pending - {drained});
    forall t: TurnId ensures TurnCounts(SignalDrained(w, drained), t) {
      assert TurnCounts(w, t);
      assert TurnCounts(x, t);
      AgentKeepsCounts(x, PlaybackDrained(drained), t);
    }
  }

  lemma CompleteKeepsPending(w: World, turn: TurnId, now: Instant)
    requires Coherent(w) && PendingOk(w)
    ensures PendingOk(OnComplete(w, turn, now))
  {
    var x := NoteComplete(w, turn);
    var done := Dispatch(x, AgentTurnComplete(turn));
    AgentInput(x, AgentTurnComplete(turn));
    forall t: TurnId ensures TurnCounts(done, t) {
      assert TurnCounts(w, t);
      if Safety.Dead(w.session, t) {
        Safety.DeadStep(w.session, t, AgentTurnComplete(turn));
      }
    }
    ReportKeepsOk(w, turn);
    if NothingLeftToPlay(done, turn, now) {
      DrainKeepsPending(done, turn);
    }
  }

  lemma SynthesizedKeepsPending(w: World, turn: TurnId, samples: seq<Sample>)
    requires Coherent(w) && PendingOk(w) && w.tts
    requires Count(w.history.returned, turn) < Count(w.history.requested, turn)
    ensures PendingOk(OnSynthesized(w, turn, samples))
  {
    forall t: TurnId ensures TurnCounts(OnSynthesized(w, turn, samples), t) {
      assert TurnCounts(w, t);
    }
  }

  lemma SameTurnsSamePending(w: World, x: World)
    requires PendingOk(w) && x.session == w.session && (x.tts ==> w.tts)
    requires x.history.requested == w.history.requested && x.history.returned == w.history.returned
    requires x.playback.liveTurn == w.playback.liveTurn && x.playback.paused == w.playback.paused
    requires x.pending == w.pending || (!x.tts && x.pending == map[])
    ensures PendingOk(x)
  {
    forall t: TurnId ensures TurnCounts(x, t) {
      assert TurnCounts(w, t);
    }
  }

  /** Feeding tops up, and then restarts the pacing and reports a drain if due. */
  lemma FeedIs(w: World, now: Instant)
    requires w.playback.live != [] || w.pushed != 0
    ensures
      var dry := Topped(w, now).(pushed := 0, anchor := None);
      var turn := dry.playback.liveTurn;
      Feed(w, now) ==
        if !RunsDry(w, now) then Topped(w, now)
        else if turn.Some? && Count(dry.pending, turn.value) == 0 then SignalDrained(dry, turn.value) else dry
  {
  }

  lemma FeedKeepsPending(w: World, now: Instant)
    requires Safety.Good(w.session) && PendingOk(w)
    ensures PendingOk(Feed(w, now))
  {
    if w.playback.live != [] || w.pushed != 0 {
      FeedIs(w, now);
      SameTurnsSamePending(w, Topped(w, now));
      var dry := Topped(w, now).(pushed := 0, anchor := None);
      SameTurnsSamePending(w, dry);
      if dry.playback.liveTurn.Some? && Count(dry.pending, dry.playback.liveTurn.value) == 0 {
        DrainKeepsPending(dry, dry.playback.liveTurn.value);
      }
    }
  }

  lemma StepKeepsPending(w: World, e: Event)
    requires Coherent(w) && Enabled(w, e) && PendingOk(w) && Honest(w, e)
    ensures PendingOk(Step(w, e))
  {
    match e {
      case External(input) => DispatchKeepsPending(w, input);
      case Text(turn, text, phrases) => TextKeepsPending(w, turn, text, phrases);
      case Complete(turn, now) => CompleteKeepsPending(w, turn, now);
      case Synthesized(turn, samples) =>
        if w.tts {
          SynthesizedKeepsPending(w, turn, samples);
        }
      case FeedTick(now) => FeedKeepsPending(w, now);
      case Rebuilt =>
        var x := Replaced(w);
        SameTurnsSamePending(w, x);
        DispatchKeepsPending(x, SessionEnd);
        DispatchKeepsPending(Dispatch(x, SessionEnd), SessionStart);
      case Polled(now, quiet, phrases) =>
        var p := A.Poll(w.agent, now, quiet);
        var x := w.(agent := p.agent);
        SameTurnsSamePending(w, x);
        match p.event {
          case None =>
          case Some(TextChunk(turn, text)) => TextKeepsPending(x, turn, text, phrases);
          case Some(TurnComplete(turn)) => CompleteKeepsPending(x, turn, now);
        }
      case TtsLost => SameTurnsSamePending(w, LoseTts(w));
      case Replied(_) => SameTurnsSamePending(w, Step(w, e));
    }
  }

  ghost predicate HonestRun(w: World, events: seq<Event>)
    decreases |events|
  {
    events == [] || (Honest(w, events[0]) && HonestRun(Step(w, events[0]), events[1..]))
  }

  lemma {:induction false} EveryRunKeepsPending(w: World, events: seq<Event>)
    requires Coherent(w) && PendingOk(w) && Legit(w, events) && HonestRun(w, events)
    ensures Coherent(Run(w, events)) && PendingOk(Run(w, events))
    decreases |events|
  {
    if events != [] {
      StepKeepsOk(w, events[0]);
      StepKeepsPending(w, events[0]);
      EveryRunKeepsPending(Step(w, events[0]), events[1..]);
    }
  }

  /** A completion of a turn that playback no longer knows leaves none of its phrases
      pending. */
  lemma CompletionForgets(w: World, turn: TurnId, now: Instant)
    requires !P.Recognises(w.playback, turn)
    ensures turn !in OnComplete(w, turn, now).pending
  {
    var x := NoteComplete(w, turn);
    AgentInput(x, AgentTurnComplete(turn));
    var done := Dispatch(x, AgentTurnComplete(turn));
    AgentInput(done.(pending := done.pending - {turn}), PlaybackDrained(turn));
  }
}
