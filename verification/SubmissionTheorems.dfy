/** What reaches the agent over whole runs: the words of every final transcript that
    finds its turn waiting for it, and nothing else. */
module SubmissionTheorems {
  import opened Wrappers
  import opened SessionTypes
  import opened Sequences
  import opened Conversation
  import opened ConversationSafety
  import opened ConversationTheorems
  import S = Session
  import A = BuzzAgent
  import T = Transitions
  import Safety = SessionSafety

  /** The transcript is that of the turn whose words are awaited. */
  predicate Awaited(s: S.Session, input: Input) {
    input.FinalTranscript? && s.current == Some(input.turn) && (s.state == Finalizing || s.state == Interrupting)
  }

  /** What one step hands to the agent. */
  function HandedOver(w: World, e: Event): seq<string> {
    if e.External? && Awaited(w.session, e.input) then [e.input.text] else []
  }

  function AllHandedOver(w: World, events: seq<Event>): seq<string>
    decreases |events|
  {
    if events == [] then [] else HandedOver(w, events[0]) + AllHandedOver(Step(w, events[0]), events[1..])
  }

  /** The agent was handed `texts`, the last of them for `turn`. */
  ghost predicate Hands(a: A.Agent, b: A.Agent, texts: seq<string>, turn: Option<TurnId>) {
    b.published == a.published + texts && b.current == if texts == [] then a.current else turn
  }

  lemma HandsNothing(a: A.Agent, b: A.Agent, turn: Option<TurnId>)
    requires b.published == a.published && b.current == a.current
    ensures Hands(a, b, [], turn)
  {
  }

  lemma SubmitsIff(s: S.Session, input: Input)
    requires Safety.Good(s) && s.state != Submitting
    ensures S.Handle(s, input).next.state == Submitting <==> Awaited(s, input)
  {
    T.EdgeIff(s, input, Submitting);
  }

  lemma EffectHands(w: World, input: Input, n: S.Session)
    ensures
      var submits := n.state == Submitting && w.session.state != Submitting && input.FinalTranscript?;
      EffectTo(w, input, n).agent == if submits then A.Submit(w.agent, input.turn, input.text) else w.agent
  {
  }

  lemma DispatchHands(w: World, input: Input)
    requires Coherent(w) && Direct(input)
    ensures
      Hands(w.agent, Dispatch(w, input).agent, HandedOver(w, External(input)),
            if input.FinalTranscript? then Some(input.turn) else None)
  {
    DispatchHasEffect(w, input);
    EffectHands(w, input, S.Handle(w.session, input).next);
    SubmitsIff(w.session, input);
  }

  lemma RebuildHands(w: World)
    requires Coherent(w)
    ensures Hands(w.agent, Rebuild(w).agent, [], None)
  {
    var x := Replaced(w);
    PacingIsFree(w, 0, None, 0);
    DispatchKeepsOk(x, SessionEnd);
    DispatchHands(x, SessionEnd);
    DispatchHands(Dispatch(x, SessionEnd), SessionStart);
  }

  lemma TextHands(w: World, turn: TurnId, text: string, phrases: seq<string>)
    ensures OnText(w, turn, text, phrases).agent == w.agent
  {
    AgentInput(StartIfNew(w, turn), AgentTextArrived(turn, text));
  }

  lemma CompleteHands(w: World, turn: TurnId, now: Instant)
    ensures OnComplete(w, turn, now).agent == w.agent
  {
    var x := NoteComplete(w, turn);
    AgentInput(x, AgentTurnComplete(turn));
    var done := Dispatch(x, AgentTurnComplete(turn));
    AgentInput(done.(pending := done.pending - {turn}), PlaybackDrained(turn));
  }

  lemma FeedHands(w: World, now: Instant)
    ensures Feed(w, now).agent == w.agent
  {
    if w.playback.live != [] || w.pushed != 0 {
      FeedShape(w, now);
    }
  }

  lemma StepHands(w: World, e: Event)
    requires Coherent(w) && Enabled(w, e)
    ensures
      Hands(w.agent, Step(w, e).agent, HandedOver(w, e),
            if e.External? && e.input.FinalTranscript? then Some(e.input.turn) else None)
  {
    match e {
      case External(input) => DispatchHands(w, input);
      case Text(turn, text, phrases) => TextHands(w, turn, text, phrases);
      case Complete(turn, now) => CompleteHands(w, turn, now);
      case FeedTick(now) => FeedHands(w, now);
      case Rebuilt => RebuildHands(w);
      case Polled(now, quiet, phrases) =>
        var p := A.Poll(w.agent, now, quiet);
        var x := w.(agent := p.agent);
        match p.event {
          case None =>
          case Some(TextChunk(turn, text)) => TextHands(x, turn, text, phrases);
          case Some(TurnComplete(turn)) => CompleteHands(x, turn, now);
        }
        HandsNothing(w.agent, Step(w, e).agent, None);
      case _ => HandsNothing(w.agent, Step(w, e).agent, None);
    }
  }

  /** In every run the agent is handed the words of exactly those transcripts, each
      once and in order. */
  lemma {:induction false} WordsReachAgent(w: World, events: seq<Event>)
    requires Coherent(w) && Legit(w, events)
    ensures Run(w, events).agent.published == w.agent.published + AllHandedOver(w, events)
    decreases |events|
  {
    if events == [] {
      assert w.agent.published + [] == w.agent.published;
    } else {
      StepKeepsOk(w, events[0]);
      StepHands(w, events[0]);
      WordsReachAgent(Step(w, events[0]), events[1..]);
      Associates(w.agent.published, HandedOver(w, events[0]), AllHandedOver(Step(w, events[0]), events[1..]));
    }
  }
}
