/** The pacing of the playback ring over whole runs. */
module PacingTheorems {
  import opened Wrappers
  import opened SessionTypes
  import opened Conversation
  import opened ConversationSafety
  import opened ConversationTheorems
  import A = BuzzAgent

  /** Since the ring was last empty, no more was pushed than the clock has played
      plus the permitted lead. */
  ghost predicate Paced(w: World, now: Instant) {
    match w.anchor
    case None => w.pushed == 0
    case Some(anchor) => anchor <= now && w.pushed <= now - anchor + LEAD_SAMPLES
  }

  lemma DispatchKeepsPace(w: World, input: Input)
    requires Coherent(w) && (Direct(input) || FromAgent(input))
    ensures Dispatch(w, input).anchor == w.anchor && Dispatch(w, input).pushed == w.pushed
    ensures Dispatch(w, input).history.playedOut == w.history.playedOut
  {
    if Direct(input) {
      DispatchHasEffect(w, input);
    } else {
      AgentInput(w, input);
    }
  }

  /** The feeder keeps the pace, and never hands over more than the lead at once. */
  lemma FeedKeepsPace(w: World, now: Instant)
    requires Paced(w, now)
    ensures Paced(Feed(w, now), now)
    ensures |Feed(w, now).history.fed| - |w.history.fed| <= LEAD_SAMPLES
    ensures Feed(w, now).anchor.Some? ==>
      |Feed(w, now).history.fed| - |w.history.fed| == Feed(w, now).pushed - w.pushed
  {
    if w.playback.live != [] || w.pushed != 0 {
      FeedShape(w, now);
    }
  }

  ghost predicate SamePace(a: World, b: World) {
    && b.anchor == a.anchor && b.pushed == a.pushed
    && b.history.fed == a.history.fed && b.history.playedOut == a.history.playedOut
  }

  lemma TextKeepsPace(w: World, turn: TurnId, text: string, phrases: seq<string>)
    ensures SamePace(w, OnText(w, turn, text, phrases))
  {
    AgentInput(StartIfNew(w, turn), AgentTextArrived(turn, text));
  }

  lemma CompleteKeepsPace(w: World, turn: TurnId, now: Instant)
    ensures SamePace(w, OnComplete(w, turn, now))
  {
    var x := NoteComplete(w, turn);
    AgentInput(x, AgentTurnComplete(turn));
    var done := Dispatch(x, AgentTurnComplete(turn));
    AgentInput(done.(pending := done.pending - {turn}), PlaybackDrained(turn));
  }

  lemma RebuildRestartsPace(w: World)
    requires Coherent(w)
    ensures Rebuild(w).anchor.None? && Rebuild(w).pushed == 0 && Rebuild(w).history.playedOut == 0
  {
    var x := Replaced(w);
    EndGoesIdle(x);
    DispatchKeepsPace(x, SessionEnd);
    DispatchKeepsPace(Dispatch(x, SessionEnd), SessionStart);
  }

  lemma QuietStepKeepsPace(w: World, e: Event)
    requires Coherent(w) && Enabled(w, e) && !e.FeedTick? && !e.Rebuilt?
    ensures SamePace(w, Step(w, e))
  {
    match e {
      case External(input) =>
        DispatchKeepsPace(w, input);
        DispatchFeedsNothing(w, input);
      case Text(turn, text, phrases) => TextKeepsPace(w, turn, text, phrases);
      case Complete(turn, t) => CompleteKeepsPace(w, turn, t);
      case Polled(t, quiet, phrases) =>
        var p := A.Poll(w.agent, t, quiet);
        var x := w.(agent := p.agent);
        match p.event {
          case None =>
          case Some(TextChunk(turn, text)) => TextKeepsPace(x, turn, text, phrases);
          case Some(TurnComplete(turn)) => CompleteKeepsPace(x, turn, t);
        }
      case Synthesized(_, _) =>
      case TtsLost =>
      case Replied(_) =>
    }
  }

  /** No step but the feeder changes what was pushed, except to start afresh. */
  lemma StepKeepsPace(w: World, e: Event, now: Instant)
    requires Coherent(w) && Enabled(w, e) && Paced(w, now)
    requires e.FeedTick? ==> e.now == now
    ensures Paced(Step(w, e), now)
    ensures Step(w, e).anchor.Some? ==>
      |Step(w, e).history.fed| - |w.history.fed| == Step(w, e).pushed - w.pushed
  {
    if e.FeedTick? {
      FeedKeepsPace(w, now);
    } else if e.Rebuilt? {
      RebuildRestartsPace(w);
    } else {
      QuietStepKeepsPace(w, e);
    }
  }

  /** A run in which time does not go back. */
  ghost predicate Clocked(events: seq<Event>, from: Instant, to: Instant)
    decreases |events|
  {
    if events == [] then from <= to
    else if events[0].FeedTick? then from <= events[0].now && Clocked(events[1..], events[0].now, to)
    else Clocked(events[1..], from, to)
  }

  /** The ring does not run dry along the run. */
  ghost predicate StaysAnchored(w: World, events: seq<Event>)
    decreases |events|
  {
    events == [] || (Step(w, events[0]).anchor.Some? && StaysAnchored(Step(w, events[0]), events[1..]))
  }

  lemma {:induction false} RunKeepsPace(w: World, events: seq<Event>, from: Instant, to: Instant)
    requires Coherent(w) && Legit(w, events) && Clocked(events, from, to) && Paced(w, from)
    ensures Paced(Run(w, events), to) && from <= to
    ensures StaysAnchored(w, events) ==>
      |Run(w, events).history.fed| - |w.history.fed| == Run(w, events).pushed - w.pushed
    decreases |events|
  {
    if events != [] {
      var now := if events[0].FeedTick? then events[0].now else from;
      StepKeepsOk(w, events[0]);
      StepKeepsPace(w, events[0], now);
      RunKeepsPace(Step(w, events[0]), events[1..], now, to);
    }
  }

  /** From an empty ring, and until it next runs dry, the engine is never handed
      more samples than the clock has played plus the 1920-sample lead. */
  lemma FeedNeverOutrunsClock(w: World, events: seq<Event>, from: Instant, to: Instant)
    requires Coherent(w) && Legit(w, events) && Clocked(events, from, to)
    requires w.anchor.None? && w.pushed == 0 && events != [] && StaysAnchored(w, events)
    ensures
      var end := Run(w, events);
      end.anchor.Some? && end.anchor.value <= to &&
      |end.history.fed| - |w.history.fed| <= to - end.anchor.value + LEAD_SAMPLES
  {
    RunKeepsPace(w, events, from, to);
    EndsAnchored(w, events);
  }

  lemma {:induction false} EndsAnchored(w: World, events: seq<Event>)
    requires events != [] && StaysAnchored(w, events)
    ensures Run(w, events).anchor.Some?
    decreases |events|
  {
    if |events| > 1 {
      EndsAnchored(Step(w, events[0]), events[1..]);
    }
  }
}
