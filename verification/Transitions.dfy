/** The state diagram of the conversation, edge by edge: which input takes which
    edge, what it carries along and what it asks for. The machine is organised by
    input; nothing here refers to its handlers. */
module Transitions {
  import opened Wrappers
  import opened SessionTypes
  import opened Session
  import opened SessionSafety
  import opened Sequences

  predicate Ends(input: Input) {
    input.SessionEnd? || input.StopRequested?
  }

  /** The input is a tick that brings a timer to a limit, in nanoseconds. */
  predicate Expires(timer: Duration, input: Input, limit: Duration) {
    input.Tick? && timer + input.dt >= limit
  }

  /** The inputs that take the edge from the current state to another. */
  ghost predicate Takes(s: Session, input: Input, to: SessionState) {
    match (s.state, to)
    case (Idle, Listening) => input == SessionStart
    case (Listening, Idle) => Ends(input) || Expires(s.listening, input, 90_000_000_000)
    case (_, Idle) => s.state != Idle && Ends(input)
    case (Listening, UserSpeaking) => input == EndpointEvent(SpeechStart) || input == PushToTalkPressed
    case (UserSpeaking, Finalizing) =>
      input == EndpointEvent(SpeechEnd) || input == PushToTalkReleased ||
      Expires(s.speaking, input, 30_000_000_000)
    case (Finalizing, Submitting) => input.FinalTranscript? && s.current == Some(input.turn)
    case (Finalizing, Listening) =>
      (input.FinalTranscriptRejected? && s.current == Some(input.turn)) ||
      Expires(s.finalizing, input, 5_000_000_000)
    case (Submitting, AwaitingAgent) => input.SubmitSucceeded? && s.current == Some(input.turn)
    case (Submitting, Listening) => input.SubmitFailed? && s.current == Some(input.turn)
    case (AwaitingAgent, AgentSpeaking) => input.AgentTextArrived? && s.current == Some(input.turn)
    case (AwaitingAgent, Listening) =>
      (input.AgentTurnComplete? && s.current == Some(input.turn)) || Expires(s.awaiting, input, 60_000_000_000)
    case (AgentSpeaking, Listening) => input.PlaybackDrained? && s.current == Some(input.turn) && s.complete
    case (AgentSpeaking, Interrupting) => input == BargeInConfirmed
    case (Interrupting, UserSpeaking) =>
      (input.PartialTranscript? && s.current == Some(input.turn)) || input == PushToTalkPressed
    case (Interrupting, Submitting) => input.FinalTranscript? && s.current == Some(input.turn)
    case (Interrupting, AgentSpeaking) => Expires(s.interrupting, input, 700_000_000)
    case (Finalizing, UserSpeaking) => input == PushToTalkPressed
    case (Submitting, UserSpeaking) => input == PushToTalkPressed
    case (AwaitingAgent, UserSpeaking) => input == PushToTalkPressed
    case (AgentSpeaking, UserSpeaking) => input == PushToTalkPressed
    case _ => false
  }

  ghost predicate Goes(s: Session, input: Input, to: SessionState) {
    Handle(s, input).next.state == to <==> Takes(s, input, to)
  }

  lemma TaggedGoes(s: Session, input: Input, to: SessionState)
    requires Good(s) && to != s.state && input.Tagged()
    ensures Goes(s, input, to)
  {
  }

  lemma TickGoes(s: Session, dt: Duration, to: SessionState)
    requires Good(s) && to != s.state
    ensures Goes(s, Tick(dt), to)
  {
  }

  lemma ControlGoes(s: Session, input: Input, to: SessionState)
    requires Good(s) && to != s.state && !input.Tagged() && !input.Tick?
    ensures Goes(s, input, to)
  {
  }

  /** Every edge is taken by exactly its inputs. */
  lemma EdgeIff(s: Session, input: Input, to: SessionState)
    requires Good(s) && to != s.state
    ensures Handle(s, input).next.state == to <==> Takes(s, input, to)
  {
    if input.Tagged() {
      TaggedGoes(s, input, to);
    } else if input.Tick? {
      TickGoes(s, input.dt, to);
    } else {
      ControlGoes(s, input, to);
    }
  }

  // ---- What an edge carries ----

  /** The edge gives the floor to the user with a turn of its own. */
  ghost predicate OpensTurn(from: SessionState, to: SessionState) {
    match to
    case UserSpeaking => from != UserSpeaking && from != Interrupting
    case Interrupting => from == AgentSpeaking
    case _ => false
  }

  ghost function CarriedTurn(s: Session, to: SessionState): Option<TurnId> {
    if to == Idle || to == Listening then None
    else if OpensTurn(s.state, to) then Some(s.counter + 1)
    else if s.state == Interrupting && to == AgentSpeaking then s.parked
    else s.current
  }

  ghost function CarriedHold(s: Session, to: SessionState): Option<TurnId> {
    if to != Interrupting then None else if s.state == Interrupting then s.parked else s.current
  }

  ghost predicate TurnsMove(s: Session, input: Input, next: Session) {
    && next.current == CarriedTurn(s, next.state)
    && next.parked == CarriedHold(s, next.state)
    && next.counter == s.counter + if OpensTurn(s.state, next.state) then 1 else 0
  }

  lemma TaggedMovesTurns(s: Session, input: Input)
    requires Good(s) && input.Tagged()
    ensures TurnsMove(s, input, Handle(s, input).next)
  {
  }

  lemma TickMovesTurns(s: Session, dt: Duration)
    requires Good(s)
    ensures TurnsMove(s, Tick(dt), Handle(s, Tick(dt)).next)
  {
  }

  lemma ControlMovesTurns(s: Session, input: Input)
    requires Good(s) && !input.Tagged() && !input.Tick?
    ensures TurnsMove(s, input, Handle(s, input).next)
  {
  }

  /** Who is current and who is on hold depends on the edge alone, and so does
      whether a new turn is counted. */
  lemma EdgeCarriesTurns(s: Session, input: Input)
    requires Good(s)
    ensures TurnsMove(s, input, Handle(s, input).next)
  {
    if input.Tagged() {
      TaggedMovesTurns(s, input);
    } else if input.Tick? {
      TickMovesTurns(s, input.dt);
    } else {
      ControlMovesTurns(s, input);
    }
  }

  ghost predicate WordsMove(s: Session, input: Input, next: Session) {
    && (next.state == Submitting ==>
          if s.state == Submitting then next.utterance == s.utterance
          else input.FinalTranscript? && next.utterance == Some(input.text))
    && (s.state == Submitting && (next.state == AwaitingAgent || next.state == Listening) ==> next.utterance == None)
    && (if s.state == Idle && next.state == Listening then next.lastFailed == None && next.lastError == None
        else if s.state == Submitting && next.state == Listening then
          next.lastFailed == s.utterance && input.SubmitFailed? && next.lastError == Some(input.error)
        else next.lastFailed == s.lastFailed && next.lastError == s.lastError)
  }

  lemma TaggedMovesWords(s: Session, input: Input)
    requires Good(s) && input.Tagged()
    ensures WordsMove(s, input, Handle(s, input).next)
  {
  }

  lemma TickMovesWords(s: Session, dt: Duration)
    requires Good(s)
    ensures WordsMove(s, Tick(dt), Handle(s, Tick(dt)).next)
  {
  }

  lemma ControlMovesWords(s: Session, input: Input)
    requires Good(s) && !input.Tagged() && !input.Tick?
    ensures WordsMove(s, input, Handle(s, input).next)
  {
  }

  /** Words are kept from their final transcript until the submission is settled;
      a refused submission keeps them with the error until the next session. */
  lemma EdgeCarriesWords(s: Session, input: Input)
    requires Good(s)
    ensures WordsMove(s, input, Handle(s, input).next)
  {
    if input.Tagged() {
      TaggedMovesWords(s, input);
    } else if input.Tick? {
      TickMovesWords(s, input.dt);
    } else {
      ControlMovesWords(s, input);
    }
  }

  ghost predicate TimersMove(s: Session, input: Input, next: Session) {
    var dt := if input.Tick? then input.dt else 0;
    && (next.state == Listening ==> next.listening == if s.state == Listening then s.listening + dt else 0)
    && (next.state == UserSpeaking ==> next.speaking == if s.state == UserSpeaking then s.speaking + dt else 0)
    && (next.state == Finalizing ==> next.finalizing == if s.state == Finalizing then s.finalizing + dt else 0)
    && (next.state == AwaitingAgent ==> next.awaiting == if s.state == AwaitingAgent then s.awaiting + dt else 0)
    && (next.state == Interrupting ==>
          next.interrupting == if s.state == Interrupting then s.interrupting + dt else 0)
  }

  lemma TaggedMovesTimers(s: Session, input: Input)
    requires Good(s) && input.Tagged()
    ensures TimersMove(s, input, Handle(s, input).next)
  {
  }

  lemma TickMovesTimers(s: Session, dt: Duration)
    requires Good(s)
    ensures TimersMove(s, Tick(dt), Handle(s, Tick(dt)).next)
  {
  }

  lemma ControlMovesTimers(s: Session, input: Input)
    requires Good(s) && !input.Tagged() && !input.Tick?
    ensures TimersMove(s, input, Handle(s, input).next)
  {
  }

  /** A timer counts the ticks in its state, from the last entry into it. */
  lemma EdgeSetsTimers(s: Session, input: Input)
    requires Good(s)
    ensures TimersMove(s, input, Handle(s, input).next)
  {
    if input.Tagged() {
      TaggedMovesTimers(s, input);
    } else if input.Tick? {
      TickMovesTimers(s, input.dt);
    } else {
      ControlMovesTimers(s, input);
    }
  }

  // ---- What an edge asks for ----

  /** The outputs an edge or, for words shown, a stay in a state calls for. */
  ghost predicate Asks(s: Session, input: Input, next: SessionState, o: Output) {
    var from := s.state;
    match o
    case StartCapture => from == Idle && next == Listening
    case StopCapture => from != Idle && next == Idle
    case ShowPartial(text) =>
      (from == UserSpeaking || from == Interrupting) && s.current.Some? &&
      input == PartialTranscript(s.current.value, text)
    case SubmitUtterance(turn, text) =>
      (from == Finalizing || from == Interrupting) && next == Submitting && input == FinalTranscript(turn, text)
    case CancelPlayback | FlushOutputBuffer =>
      (from == AgentSpeaking && (next == Idle || next == UserSpeaking || next == Interrupting)) ||
      (from == Interrupting && next == Idle)
    case CancelSynthesis(turn) =>
      (from == AgentSpeaking && s.current == Some(turn) && (next == Idle || next == UserSpeaking)) ||
      (from == Interrupting && s.parked == Some(turn) && next != Interrupting && next != AgentSpeaking)
    case ReplayPreRoll(turn) => from == AgentSpeaking && next == Interrupting && turn == s.counter + 1
    case ResumeSpeaking(turn) => from == Interrupting && next == AgentSpeaking && s.parked == Some(turn)
    case EmitState(state) => from != next && state == next
  }

  ghost predicate AsksFor(s: Session, input: Input, r: Reaction) {
    && (forall o: Output :: o in r.outputs <==> Asks(s, input, r.next.state, o))
    && (forall i, j :: 0 <= i < j < |r.outputs| ==> r.outputs[i] != r.outputs[j])
  }

  ghost predicate AsksExactly(s: Session, input: Input) {
    AsksFor(s, input, Handle(s, input))
  }

  /** Edges that ask for nothing but to be reported. */
  predicate PlainEdge(from: SessionState, to: SessionState) {
    from == to ||
    (from != Idle && from != Interrupting && to != Idle && to != Submitting &&
     (from == AgentSpeaking ==> to == Listening))
  }

  ghost predicate Plainly(s: Session, r: Reaction) {
    && PlainEdge(s.state, r.next.state)
    && r.outputs == if r.next.state == s.state then [] else [EmitState(r.next.state)]
  }

  lemma PlainAsks(s: Session, input: Input, r: Reaction)
    requires Plainly(s, r) && !input.PartialTranscript?
    ensures AsksFor(s, input, r)
  {
  }

  lemma SettlesPlainly(s: Session, input: Input)
    requires Good(s) && (input.FinalTranscriptRejected? || input.SubmitSucceeded? || input.SubmitFailed?)
    ensures Plainly(s, Handle(s, input))
  {
  }

  lemma AnswersPlainly(s: Session, input: Input)
    requires Good(s) && (input.AgentTextArrived? || input.AgentTurnComplete? || input.PlaybackDrained?)
    ensures Plainly(s, Handle(s, input))
  {
  }

  lemma SpeaksPlainly(s: Session, input: Input)
    requires Good(s) && (input.EndpointEvent? || input.PushToTalkReleased?)
    ensures Plainly(s, Handle(s, input))
  {
  }

  lemma PartialAsks(s: Session, input: Input)
    requires Good(s) && input.PartialTranscript?
    ensures AsksExactly(s, input)
  {
  }

  lemma FinalAsks(s: Session, input: Input)
    requires Good(s) && input.FinalTranscript?
    ensures AsksExactly(s, input)
  {
  }

  lemma TickAsks(s: Session, input: Input)
    requires Good(s) && input.Tick?
    ensures AsksExactly(s, input)
  {
  }

  lemma EndAsks(s: Session, input: Input)
    requires Good(s) && Ends(input) && s.state != Interrupting
    ensures AsksExactly(s, input)
  {
  }

  lemma EndsInterrupting(s: Session, input: Input)
    requires Good(s) && Ends(input) && s.state == Interrupting
    ensures Handle(s, input).next.state == Idle && s.parked.Some?
    ensures Handle(s, input).outputs ==
            [CancelPlayback, FlushOutputBuffer, CancelSynthesis(s.parked.value), StopCapture, EmitState(Idle)]
  {
  }

  lemma EndOfInterruptionAsks(s: Session, input: Input, r: Reaction)
    requires Ends(input) && s.state == Interrupting && s.parked.Some? && r.next.state == Idle
    requires r.outputs ==
             [CancelPlayback, FlushOutputBuffer, CancelSynthesis(s.parked.value), StopCapture, EmitState(Idle)]
    ensures AsksFor(s, input, r)
  {
  }

  lemma PressAsks(s: Session, input: Input)
    requires Good(s) && input.PushToTalkPressed?
    ensures AsksExactly(s, input)
  {
  }

  lemma BargeInAsks(s: Session, input: Input)
    requires Good(s) && input.BargeInConfirmed?
    ensures AsksExactly(s, input)
  {
  }

  lemma StartAsks(s: Session)
    requires Good(s)
    ensures AsksExactly(s, SessionStart)
  {
  }

  /** Every input asks for exactly that, and for nothing twice. */
  lemma EdgeAsks(s: Session, input: Input)
    requires Good(s)
    ensures AsksExactly(s, input)
  {
    match input {
      case PartialTranscript(_, _) => PartialAsks(s, input);
      case FinalTranscript(_, _) => FinalAsks(s, input);
      case Tick(_) => TickAsks(s, input);
      case SessionEnd | StopRequested =>
        if s.state == Interrupting {
          EndsInterrupting(s, input);
          EndOfInterruptionAsks(s, input, Handle(s, input));
        } else {
          EndAsks(s, input);
        }
      case PushToTalkPressed => PressAsks(s, input);
      case BargeInConfirmed => BargeInAsks(s, input);
      case SessionStart => StartAsks(s);
      case EndpointEvent(_) | PushToTalkReleased =>
        SpeaksPlainly(s, input);
        PlainAsks(s, input, Handle(s, input));
      case FinalTranscriptRejected(_) | SubmitSucceeded(_) | SubmitFailed(_, _) =>
        SettlesPlainly(s, input);
        PlainAsks(s, input, Handle(s, input));
      case AgentTextArrived(_, _) | AgentTurnComplete(_) | PlaybackDrained(_) =>
        AnswersPlainly(s, input);
        PlainAsks(s, input, Handle(s, input));
    }
  }
}
