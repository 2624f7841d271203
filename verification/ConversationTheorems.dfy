/** The guarantees of the conversation loop over whole runs. */
module ConversationTheorems {
  import opened Wrappers
  import opened SessionTypes
  import opened Conversation
  import opened ConversationSafety
  import S = Session
  import P = Playback
  import A = BuzzAgent

  function Run(w: World, events: seq<Event>): World
    decreases |events|
  {
    if events == [] then w else Run(Step(w, events[0]), events[1..])
  }

  ghost predicate Legit(w: World, events: seq<Event>)
    decreases |events|
  {
    events == [] || (Enabled(w, events[0]) && Legit(Step(w, events[0]), events[1..]))
  }

  /** Session and playback stay in lockstep, queues hold exactly the newest
      samples of their turns, and samples are conserved, in every run. */
  lemma {:induction false} EveryRunKeepsInvariant(w: World, events: seq<Event>)
    requires Coherent(w) && Legit(w, events)
    ensures Coherent(Run(w, events))
    decreases |events|
  {
    if events != [] {
      StepKeepsOk(w, events[0]);
      EveryRunKeepsInvariant(Step(w, events[0]), events[1..]);
    }
  }

  lemma BeginsOk(tts: bool)
    ensures Coherent(Begin(tts))
  {
  }

  // ---- The link to the agent backend ----

  /** The shipped backend meets the assumption on agents: whatever it reports
      names the turn submitted last, which was submitted. */
  lemma BackendNamesSubmittedTurns(w: World, now: Instant, quiet: nat)
    requires Coherent(w)
    ensures
      var event := A.Poll(w.agent, now, quiet).event;
      event.Some? ==> Some(event.value.turn) == w.agent.current && event.value.turn in w.history.submitted
  {
  }

  // ---- Abandoned turns are silent for ever ----

  /** What one step can hand to the engine: a prefix of the live queue. */
  ghost predicate FeedsFrom(before: seq<Sample>, live: seq<Sample>, after: seq<Sample>) {
    exists n :: 0 <= n <= |live| && after == before + live[..n]
  }

  lemma DispatchFeedsNothing(w: World, input: Input)
    requires Coherent(w) && (Direct(input) || FromAgent(input))
    ensures Dispatch(w, input).history.fed == w.history.fed
    ensures w.history.cancelled <= Dispatch(w, input).history.cancelled
  {
    if Direct(input) {
      DispatchHasEffect(w, input);
    } else {
      AgentInput(w, input);
    }
  }

  lemma TextFeedsNothing(w: World, turn: TurnId, text: string, phrases: seq<string>)
    ensures OnText(w, turn, text, phrases).history.fed == w.history.fed
    ensures OnText(w, turn, text, phrases).history.cancelled == w.history.cancelled
  {
    AgentInput(StartIfNew(w, turn), AgentTextArrived(turn, text));
  }

  lemma CompleteFeedsNothing(w: World, turn: TurnId, now: Instant)
    ensures OnComplete(w, turn, now).history.fed == w.history.fed
    ensures OnComplete(w, turn, now).history.cancelled == w.history.cancelled
  {
    var x := NoteComplete(w, turn);
    AgentInput(x, AgentTurnComplete(turn));
    var done := Dispatch(x, AgentTurnComplete(turn));
    AgentInput(done.(pending := done.pending - {turn}), PlaybackDrained(turn));
  }

  lemma FeedFeedsLive(w: World, now: Instant)
    ensures FeedsFrom(w.history.fed, w.playback.live, Feed(w, now).history.fed)
    ensures Feed(w, now).history.cancelled == w.history.cancelled
  {
    assert w.history.fed == w.history.fed + w.playback.live[..0];
    if w.playback.live != [] || w.pushed != 0 {
      FeedShape(w, now);
      var chunk := Chunk(Anchored(w, now), Resident(Anchored(w, now), now));
      assert Feed(w, now).history.fed == w.history.fed + w.playback.live[..|chunk|];
    }
  }

  lemma EndGoesIdle(w: World)
    requires Coherent(w)
    ensures Coherent(Dispatch(w, SessionEnd)) && Dispatch(w, SessionEnd).session.state == Idle
  {
    DispatchHasEffect(w, SessionEnd);
    DispatchKeepsOk(w, SessionEnd);
  }

  lemma StartGoesListening(w: World)
    requires Coherent(w) && w.session.state == Idle
    ensures Dispatch(w, SessionStart).session.state == Listening
  {
    DispatchHasEffect(w, SessionStart);
  }

  lemma RebuildListens(w: World)
    requires Coherent(w)
    ensures
      var r := Rebuild(w);
      r.session.state == Listening && r.history.fed == w.history.fed && w.history.cancelled <= r.history.cancelled
  {
    var x := Replaced(w);
    EndGoesIdle(x);
    StartGoesListening(Dispatch(x, SessionEnd));
    DispatchFeedsNothing(x, SessionEnd);
    DispatchFeedsNothing(Dispatch(x, SessionEnd), SessionStart);
  }

  lemma StepFeedsLive(w: World, e: Event)
    requires Coherent(w) && Enabled(w, e)
    ensures FeedsFrom(w.history.fed, w.playback.live, Step(w, e).history.fed)
    ensures w.history.cancelled <= Step(w, e).history.cancelled
  {
    assert w.history.fed == w.history.fed + w.playback.live[..0];
    match e {
      case External(input) => DispatchFeedsNothing(w, input);
      case Text(turn, text, phrases) => TextFeedsNothing(w, turn, text, phrases);
      case Complete(turn, now) => CompleteFeedsNothing(w, turn, now);
      case FeedTick(now) => FeedFeedsLive(w, now);
      case Rebuilt => RebuildListens(w);
      case Polled(now, quiet, phrases) =>
        var p := A.Poll(w.agent, now, quiet);
        var x := w.(agent := p.agent);
        match p.event {
          case None =>
          case Some(TextChunk(turn, text)) => TextFeedsNothing(x, turn, text, phrases);
          case Some(TurnComplete(turn)) => CompleteFeedsNothing(x, turn, now);
        }
      case Synthesized(_, _) =>
      case TtsLost =>
      case Replied(_) =>
    }
  }

  /** Once a turn's synthesis has been cancelled, no continuation of the run hands
      one of its samples to the engine, however late results arrive. */
  lemma {:induction false} AbandonedTurnsAreSilent(w: World, events: seq<Event>, turn: TurnId)
    requires Coherent(w) && Legit(w, events) && turn in w.history.cancelled
    ensures w.history.fed <= Run(w, events).history.fed
    ensures forall k :: |w.history.fed| <= k < |Run(w, events).history.fed| ==>
      Run(w, events).history.fed[k].turn != turn
    decreases |events|
  {
    if events != [] {
      var next := Step(w, events[0]);
      StepKeepsOk(w, events[0]);
      StepFeedsLive(w, events[0]);
      AbandonedTurnsAreSilent(next, events[1..], turn);
      var fed := Run(w, events).history.fed;
      forall k | |w.history.fed| <= k < |fed| ensures fed[k].turn != turn {
        if k < |next.history.fed| {
          assert fed[k] == next.history.fed[k];
          assert next.history.fed[k] in w.playback.live;
        }
      }
    }
  }

  // ---- Order and conservation ----

  /** In every run the samples fed for a turn are a subsequence, in order and
      without repetition, of those synthesised for it, and every sample that
      arrived was fed once, is queued once or was discarded once. */
  lemma FedInOrderOnce(tts: bool, events: seq<Event>)
    requires Legit(Begin(tts), events)
    ensures
      var w := Run(Begin(tts), events);
      && (forall i, j :: 0 <= i < j < |w.history.fed| && w.history.fed[i].turn == w.history.fed[j].turn ==>
            w.history.fed[i].index < w.history.fed[j].index)
      && (forall i :: 0 <= i < |w.history.fed| ==> w.history.fed[i] in w.history.everything)
      && w.history.everything ==
           multiset(w.history.fed) + multiset(w.playback.live) + multiset(PausedQueue(w.playback)) + w.history.lost
  {
    BeginsOk(tts);
    EveryRunKeepsInvariant(Begin(tts), events);
    var w := Run(Begin(tts), events);
    assert Conserved(w.playback, w.history);
    forall i | 0 <= i < |w.history.fed| ensures w.history.fed[i] in w.history.everything {
      assert w.history.fed[i] in multiset(w.history.fed);
    }
  }

  // ---- A retracted barge-in loses nothing that arrived during it ----

  /** The run stays in one barge-in throughout. */
  ghost predicate StaysHeld(w: World, events: seq<Event>)
    decreases |events|
  {
    w.session.state == Interrupting && (events == [] || StaysHeld(Step(w, events[0]), events[1..]))
  }

  /** While a turn is on hold its queue only grows, by exactly what arrives. */
  ghost predicate HoldGrows(a: World, b: World) {
    && a.playback.paused.Some? && b.playback.paused.Some?
    && a.playback.paused.value.turn == b.playback.paused.value.turn
    && PausedQueue(a.playback) <= PausedQueue(b.playback)
    && |PausedQueue(b.playback)| - |PausedQueue(a.playback)| ==
         Count(b.history.arrived, b.playback.paused.value.turn) - Count(a.history.arrived, a.playback.paused.value.turn)
  }

  lemma TextKeepsHold(w: World, turn: TurnId, text: string, phrases: seq<string>)
    requires Coherent(w) && w.session.state == Interrupting && turn in w.history.submitted
    ensures OnText(w, turn, text, phrases).playback == w.playback
    ensures OnText(w, turn, text, phrases).history.arrived == w.history.arrived
  {
    AgentInput(StartIfNew(w, turn), AgentTextArrived(turn, text));
  }

  lemma CompleteKeepsHold(w: World, turn: TurnId, now: Instant)
    ensures OnComplete(w, turn, now).playback == w.playback
    ensures OnComplete(w, turn, now).history.arrived == w.history.arrived
  {
    var x := NoteComplete(w, turn);
    AgentInput(x, AgentTurnComplete(turn));
    var done := Dispatch(x, AgentTurnComplete(turn));
    AgentInput(done.(pending := done.pending - {turn}), PlaybackDrained(turn));
  }

  lemma FeedKeepsHold(w: World, now: Instant)
    requires w.playback.live == [] && w.playback.liveTurn.None?
    ensures Feed(w, now).playback == w.playback
    ensures Feed(w, now).history.arrived == w.history.arrived
  {
    if w.pushed != 0 {
      FeedShape(w, now);
      assert Chunk(Anchored(w, now), Resident(Anchored(w, now), now)) == [];
    }
  }

  lemma DirectKeepsHold(w: World, input: Input)
    requires Coherent(w) && Direct(input) && w.session.state == Interrupting
    requires Dispatch(w, input).session.state == Interrupting
    ensures Dispatch(w, input).playback == w.playback
    ensures Dispatch(w, input).history.arrived == w.history.arrived
  {
    DispatchHasEffect(w, input);
    DirectMoves(w.session, input);
  }

  lemma SynthesisGrowsHold(w: World, turn: TurnId, samples: seq<Sample>)
    requires Coherent(w) && w.session.state == Interrupting
    ensures HoldGrows(w, OnSynthesized(w, turn, samples))
  {
  }

  lemma StepGrowsHold(w: World, e: Event)
    requires Coherent(w) && Enabled(w, e)
    requires w.session.state == Interrupting && Step(w, e).session.state == Interrupting
    ensures HoldGrows(w, Step(w, e))
  {
    match e {
      case External(input) => DirectKeepsHold(w, input);
      case Text(turn, text, phrases) => TextKeepsHold(w, turn, text, phrases);
      case Complete(turn, now) => CompleteKeepsHold(w, turn, now);
      case FeedTick(now) => FeedKeepsHold(w, now);
      case Rebuilt => RebuildListens(w);
      case Polled(now, quiet, phrases) =>
        var p := A.Poll(w.agent, now, quiet);
        var x := w.(agent := p.agent);
        match p.event {
          case None =>
          case Some(TextChunk(turn, text)) => TextKeepsHold(x, turn, text, phrases);
          case Some(TurnComplete(turn)) => CompleteKeepsHold(x, turn, now);
        }
      case Synthesized(turn, samples) => SynthesisGrowsHold(w, turn, samples);
      case TtsLost =>
      case Replied(_) =>
    }
  }

  lemma {:induction false} RunGrowsHold(w: World, events: seq<Event>)
    requires Coherent(w) && Legit(w, events) && StaysHeld(w, events)
    ensures Coherent(Run(w, events)) && Run(w, events).session.state == Interrupting
    ensures HoldGrows(w, Run(w, events))
    decreases |events|
  {
    if events != [] {
      StepKeepsOk(w, events[0]);
      StepGrowsHold(w, events[0]);
      RunGrowsHold(Step(w, events[0]), events[1..]);
    }
  }

  lemma BargeInHolds(w: World)
    requires Coherent(w) && w.session.state == AgentSpeaking
    ensures
      var held := Dispatch(w, BargeInConfirmed);
      held.playback.paused == Some(P.Paused(w.session.current.value, [])) && held.history.arrived == w.history.arrived
  {
    DispatchHasEffect(w, BargeInConfirmed);
  }

  lemma ResumeRestores(w: World, dt: Duration)
    requires Coherent(w) && w.session.state == Interrupting && Dispatch(w, Tick(dt)).session.state == AgentSpeaking
    ensures
      var x, hold := Dispatch(w, Tick(dt)), w.playback.paused.value;
      x.session.current == Some(hold.turn) == x.playback.liveTurn && x.playback.live == hold.queued
  {
    DispatchHasEffect(w, Tick(dt));
    DirectMoves(w.session, Tick(dt));
  }

  /** When a barge-in is retracted, the live queue becomes exactly the samples
      that arrived for the speaking turn since the barge-in, all of them and in
      order, so they are fed before anything newer. */
  lemma ResumeLosesNothing(w: World, during: seq<Event>, dt: Duration)
    requires Coherent(w) && w.session.state == AgentSpeaking
    requires
      var held := Step(w, External(BargeInConfirmed));
      Legit(held, during) && StaysHeld(held, during)
    requires Step(Run(Step(w, External(BargeInConfirmed)), during), External(Tick(dt))).session.state == AgentSpeaking
    ensures
      var end := Run(Step(w, External(BargeInConfirmed)), during);
      var resumed := Step(end, External(Tick(dt)));
      var turn := w.session.current.value;
      var from := Count(w.history.arrived, turn);
      && resumed.session.current == Some(turn) && resumed.playback.liveTurn == Some(turn)
      && |resumed.playback.live| == Count(end.history.arrived, turn) - from
      && forall k :: 0 <= k < |resumed.playback.live| ==>
           resumed.playback.live[k].turn == turn && resumed.playback.live[k].index == from + k
  {
    var held := Step(w, External(BargeInConfirmed));
    BargeInHolds(w);
    StepKeepsOk(w, External(BargeInConfirmed));
    RunGrowsHold(held, during);
    ResumeRestores(Run(held, during), dt);
  }

  // ---- A speaking turn loses nothing ----

  predicate Speaks(w: World, turn: TurnId) {
    w.session.state == AgentSpeaking && w.session.current == Some(turn)
  }

  ghost predicate StaysSpeaking(w: World, events: seq<Event>, turn: TurnId)
    decreases |events|
  {
    Speaks(w, turn) && (events == [] || StaysSpeaking(Step(w, events[0]), events[1..], turn))
  }

  ghost predicate LosesNothingOf(a: World, b: World, turn: TurnId) {
    forall x: Sample :: x.turn == turn ==> b.history.lost[x] == a.history.lost[x]
  }

  lemma DirectLosesNothing(w: World, input: Input, turn: TurnId)
    requires Coherent(w) && Direct(input) && Speaks(w, turn) && Speaks(Dispatch(w, input), turn)
    ensures Dispatch(w, input).history == w.history
  {
    DispatchHasEffect(w, input);
    DirectMoves(w.session, input);
  }

  lemma TextLosesNothing(w: World, turn: TurnId, other: TurnId, text: string, phrases: seq<string>)
    requires Coherent(w) && Speaks(w, turn)
    ensures OnText(w, other, text, phrases).history.lost == w.history.lost
  {
    AgentInput(w, AgentTextArrived(other, text));
  }

  lemma CompleteLosesNothing(w: World, turn: TurnId, now: Instant)
    ensures OnComplete(w, turn, now).history.lost == w.history.lost
  {
    var x := NoteComplete(w, turn);
    AgentInput(x, AgentTurnComplete(turn));
    var done := Dispatch(x, AgentTurnComplete(turn));
    AgentInput(done.(pending := done.pending - {turn}), PlaybackDrained(turn));
  }

  lemma FeedLosesNothing(w: World, now: Instant)
    ensures Feed(w, now).history.lost == w.history.lost
  {
    if w.playback.live != [] || w.pushed != 0 {
      FeedShape(w, now);
    }
  }

  lemma StepLosesNothing(w: World, e: Event, turn: TurnId)
    requires Coherent(w) && Enabled(w, e) && Speaks(w, turn)
    requires Speaks(Step(w, e), turn) || (Step(w, e).session.state == Listening && !e.Rebuilt?)
    ensures LosesNothingOf(w, Step(w, e), turn)
  {
    match e {
      case External(input) =>
        DirectMoves(w.session, input);
        DispatchHasEffect(w, input);
        DirectLosesNothing(w, input, turn);
      case Text(other, text, phrases) => TextLosesNothing(w, turn, other, text, phrases);
      case Complete(other, now) => CompleteLosesNothing(w, other, now);
      case FeedTick(now) => FeedLosesNothing(w, now);
      case Rebuilt => RebuildListens(w);
      case Polled(now, quiet, phrases) =>
        var p := A.Poll(w.agent, now, quiet);
        var x := w.(agent := p.agent);
        match p.event {
          case None =>
          case Some(TextChunk(other, text)) => TextLosesNothing(x, turn, other, text, phrases);
          case Some(TurnComplete(other)) => CompleteLosesNothing(x, other, now);
        }
      case Synthesized(_, _) =>
      case TtsLost =>
      case Replied(_) =>
    }
  }

  /** While a turn speaks without interruption none of its samples is discarded. */
  lemma {:induction false} SpeakingLosesNothing(w: World, events: seq<Event>, turn: TurnId)
    requires Coherent(w) && Legit(w, events) && StaysSpeaking(w, events, turn)
    ensures Coherent(Run(w, events)) && Speaks(Run(w, events), turn)
    ensures LosesNothingOf(w, Run(w, events), turn)
    decreases |events|
  {
    if events != [] {
      StepKeepsOk(w, events[0]);
      StepLosesNothing(w, events[0], turn);
      SpeakingLosesNothing(Step(w, events[0]), events[1..], turn);
    }
  }

  // ---- How a reply ends ----

  lemma DrainedEnds(w: World, turn: TurnId)
    requires Coherent(w)
    ensures SignalDrained(w, turn).playback == w.playback && SignalDrained(w, turn).history == w.history
    ensures SignalDrained(w, turn).session == S.OnPlaybackDrained(w.session, turn).next
  {
    AgentInput(w.(pending := w.pending - {turn}), PlaybackDrained(turn));
  }

  /** The speaking turn was reported complete, none of its phrases is pending,
      and every one of its samples was handed over or discarded earlier. */
  ghost predicate EndedCleanly(w: World, after: World, turn: TurnId) {
    && turn in after.history.completed
    && Count(w.pending, turn) == 0
    && after.playback.liveTurn == Some(turn) && after.playback.live == [] && after.playback.paused.None?
    && forall x: Sample :: x.turn == turn ==>
         after.history.everything[x] == multiset(after.history.fed)[x] + after.history.lost[x]
  }

  lemma ReportKeepsSpeaking(w: World, turn: TurnId, other: TurnId)
    requires Coherent(w) && Speaks(w, turn)
    ensures
      var done := Dispatch(NoteComplete(w, other), AgentTurnComplete(other));
      Coherent(done) && Speaks(done, turn) && done.playback == w.playback && done.pending == w.pending
  {
    ReportKeepsOk(w, other);
    AgentInput(NoteComplete(w, other), AgentTurnComplete(other));
  }

  lemma SignalEndsCleanly(w: World, turn: TurnId, other: TurnId)
    requires Coherent(w) && Speaks(w, turn) && SignalDrained(w, other).session.state == Listening
    requires Count(w.pending, turn) == 0 && w.playback.live == []
    ensures other == turn && EndedCleanly(w, SignalDrained(w, other), turn)
  {
    DrainedEnds(w, other);
    DrainedKeepsOk(w, other);
  }

  lemma CompleteEndsCleanly(w: World, turn: TurnId, other: TurnId, now: Instant)
    requires Coherent(w) && Speaks(w, turn) && OnComplete(w, other, now).session.state == Listening
    ensures EndedCleanly(w, OnComplete(w, other, now), turn)
  {
    ReportKeepsSpeaking(w, turn, other);
    var done := Dispatch(NoteComplete(w, other), AgentTurnComplete(other));
    DrainedEnds(done, other);
    SignalEndsCleanly(done, turn, other);
  }

  lemma DrainNeedsCompletion(s: S.Session, turn: TurnId)
    requires s.state == AgentSpeaking && S.Handle(s, PlaybackDrained(turn)).next.state == Listening
    ensures s.current == Some(turn) && s.complete
  {
  }

  lemma FeedEndsDry(w: World, turn: TurnId, now: Instant)
    requires Speaks(w, turn) && Feed(w, now).session.state == Listening
    ensures w.playback.live != [] || w.pushed != 0
    ensures RunsDry(w, now) && Count(w.pending, turn) == 0 && w.session.complete
  {
    if w.playback.live != [] || w.pushed != 0 {
      FeedShape(w, now);
      DrainNeedsCompletion(w.session, Topped(w, now).playback.liveTurn.value);
    }
  }

  lemma NothingQueuedAccounts(w: World, turn: TurnId)
    requires Conserved(w.playback, w.history) && w.playback.live == [] && w.playback.paused.None?
    ensures forall x: Sample :: x.turn == turn ==>
      w.history.everything[x] == multiset(w.history.fed)[x] + w.history.lost[x]
  {
  }

  lemma FeedEndsCleanly(w: World, turn: TurnId, now: Instant)
    requires Coherent(w) && Speaks(w, turn) && Feed(w, now).session.state == Listening
    ensures EndedCleanly(w, Feed(w, now), turn)
  {
    FeedEndsDry(w, turn, now);
    FeedShape(w, now);
    FeedKeepsOk(w, now);
    NothingQueuedAccounts(Feed(w, now), turn);
  }

  lemma DirectEndsNoReply(w: World, input: Input, turn: TurnId)
    requires Coherent(w) && Direct(input) && Speaks(w, turn)
    ensures Dispatch(w, input).session.state != Listening
  {
    DispatchHasEffect(w, input);
    DirectMoves(w.session, input);
  }

  lemma TextEndsNoReply(w: World, turn: TurnId, other: TurnId, text: string, phrases: seq<string>)
    requires Speaks(w, turn)
    ensures OnText(w, other, text, phrases).session.state != Listening
  {
    AgentInput(StartIfNew(w, other), AgentTextArrived(other, text));
  }

  /** A reply ends normally only when its own turn has been reported complete, no
      phrase of it is pending, and its queue is empty; only the agent's completion
      or the feeder can end it. */
  lemma ReplyEndsCleanly(w: World, e: Event, turn: TurnId)
    requires Coherent(w) && Enabled(w, e) && Speaks(w, turn)
    requires Step(w, e).session.state == Listening && !e.Rebuilt?
    ensures e.Complete? || e.FeedTick? || e.Polled?
    ensures EndedCleanly(w, Step(w, e), turn)
  {
    match e {
      case External(input) => DirectEndsNoReply(w, input, turn);
      case Text(other, text, phrases) => TextEndsNoReply(w, turn, other, text, phrases);
      case Complete(other, now) => CompleteEndsCleanly(w, turn, other, now);
      case FeedTick(now) => FeedEndsCleanly(w, turn, now);
      case Polled(now, quiet, phrases) =>
        var p := A.Poll(w.agent, now, quiet);
        var x := w.(agent := p.agent);
        match p.event {
          case None =>
          case Some(TextChunk(other, text)) => TextEndsNoReply(x, turn, other, text, phrases);
          case Some(TurnComplete(other)) => CompleteEndsCleanly(x, turn, other, now);
        }
      case _ =>
    }
  }
}
