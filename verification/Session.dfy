/** What one call of the conversation state machine does, as a function of the
    machine's whole state. The class in `SessionMachine` is proved to compute
    exactly this. */
module Session {
  import opened Wrappers
  import opened SessionTypes

  datatype Session = Session(
    state: SessionState,
    /** The one turn a tagged input must name to be acted on. */
    current: Option<TurnId>,
    /** The agent turn on hold while a barge-in is unproven. */
    parked: Option<TurnId>,
    counter: nat,
    utterance: Option<string>,
    lastFailed: Option<string>,
    lastError: Option<string>,
    complete: bool,
    listening: Duration,
    speaking: Duration,
    finalizing: Duration,
    awaiting: Duration,
    interrupting: Duration,
    preroll: seq<Frame>)

  datatype Reaction = Reaction(next: Session, outputs: seq<Output>)

  const INITIAL := Session(Idle, None, None, 0, None, None, None, false, 0, 0, 0, 0, 0, [])

  predicate IsCurrent(s: Session, turn: TurnId) {
    s.current == Some(turn)
  }

  function Ignore(s: Session): Reaction {
    Reaction(s, [])
  }

  function BeginUserTurn(s: Session): Session {
    s.(counter := s.counter + 1, current := Some(s.counter + 1), speaking := 0, utterance := None)
  }

  function ToListening(s: Session): Session {
    s.(current := None, state := Listening, listening := 0)
  }

  function ResetTimers(s: Session): Session {
    s.(listening := 0, speaking := 0, finalizing := 0, awaiting := 0, interrupting := 0)
  }

  function OnSessionStart(s: Session): Reaction {
    if s.state != Idle then Ignore(s)
    else
      Reaction(
        ResetTimers(s).(preroll := [], current := None, parked := None, utterance := None, lastFailed := None,
                        lastError := None, complete := false, state := Listening),
        [StartCapture])
  }

  function CancelIfAny(turn: Option<TurnId>): seq<Output> {
    if turn.Some? then [CancelSynthesis(turn.value)] else []
  }

  function OnSessionEnd(s: Session): Reaction {
    if s.state == Idle then Ignore(s)
    else
      var silence :=
        if s.state == AgentSpeaking then [CancelPlayback, FlushOutputBuffer] + CancelIfAny(s.current)
        else if s.state == Interrupting then [CancelPlayback, FlushOutputBuffer] + CancelIfAny(s.parked)
        else [];
      Reaction(
        ResetTimers(s).(state := Idle, current := None, parked := None, complete := false, preroll := []),
        silence + [StopCapture])
  }

  function OnEndpointEvent(s: Session, event: DetectorEvent): Reaction {
    if s.state == Listening && event == SpeechStart then
      Reaction(BeginUserTurn(s).(state := UserSpeaking), [])
    else if s.state == UserSpeaking && event == SpeechEnd then
      Reaction(s.(state := Finalizing, finalizing := 0), [])
    else Ignore(s)
  }

  function OnBargeInConfirmed(s: Session): Reaction {
    if s.state != AgentSpeaking then Ignore(s)
    else
      Reaction(
        BeginUserTurn(s).(parked := s.current, interrupting := 0, state := Interrupting),
        [CancelPlayback, FlushOutputBuffer, ReplayPreRoll(s.counter + 1)])
  }

  /** A barge-in proved genuine: the parked turn is cancelled for good. */
  function ConfirmGenuineBargeIn(s: Session, extra: seq<Output>): Reaction {
    Reaction(s.(parked := None, speaking := 0, state := UserSpeaking), CancelIfAny(s.parked) + extra)
  }

  function OnPartialTranscript(s: Session, turn: TurnId, text: string): Reaction {
    if !IsCurrent(s, turn) then Ignore(s)
    else if s.state == UserSpeaking then Reaction(s, [ShowPartial(text)])
    else if s.state == Interrupting then ConfirmGenuineBargeIn(s, [ShowPartial(text)])
    else Ignore(s)
  }

  function OnFinalTranscript(s: Session, turn: TurnId, text: string): Reaction {
    if !IsCurrent(s, turn) then Ignore(s)
    else if s.state == Finalizing then
      Reaction(s.(utterance := Some(text), state := Submitting), [SubmitUtterance(turn, text)])
    else if s.state == Interrupting then
      var r := ConfirmGenuineBargeIn(s, []);
      Reaction(r.next.(utterance := Some(text), state := Submitting), r.outputs + [SubmitUtterance(turn, text)])
    else Ignore(s)
  }

  function OnFinalTranscriptRejected(s: Session, turn: TurnId): Reaction {
    if !IsCurrent(s, turn) || s.state != Finalizing then Ignore(s)
    else Reaction(ToListening(s.(finalizing := 0)), [])
  }

  function OnSubmitSucceeded(s: Session, turn: TurnId): Reaction {
    if !IsCurrent(s, turn) || s.state != Submitting then Ignore(s)
    else Reaction(s.(utterance := None, awaiting := 0, state := AwaitingAgent), [])
  }

  function OnSubmitFailed(s: Session, turn: TurnId, error: string): Reaction {
    if !IsCurrent(s, turn) || s.state != Submitting then Ignore(s)
    else Reaction(ToListening(s.(lastFailed := s.utterance, utterance := None, lastError := Some(error))), [])
  }

  function OnAgentTextArrived(s: Session, turn: TurnId): Reaction {
    if !IsCurrent(s, turn) || s.state != AwaitingAgent then Ignore(s)
    else Reaction(s.(awaiting := 0, complete := false, state := AgentSpeaking), [])
  }

  function OnAgentTurnComplete(s: Session, turn: TurnId): Reaction {
    if !IsCurrent(s, turn) then Ignore(s)
    else if s.state == AwaitingAgent then Reaction(ToListening(s.(complete := false)), [])
    else if s.state == AgentSpeaking then Reaction(s.(complete := true), [])
    else Ignore(s)
  }

  function OnPlaybackDrained(s: Session, turn: TurnId): Reaction {
    if !IsCurrent(s, turn) || s.state != AgentSpeaking || !s.complete then Ignore(s)
    else Reaction(ToListening(s.(complete := false)), [])
  }

  function OnPttPressed(s: Session): Reaction {
    match s.state
    case Idle | UserSpeaking => Ignore(s)
    case AgentSpeaking =>
      Reaction(BeginUserTurn(s).(state := UserSpeaking),
               [CancelPlayback, FlushOutputBuffer] + CancelIfAny(s.current))
    case Interrupting =>
      Reaction(s.(parked := None, speaking := 0, utterance := None, state := UserSpeaking), CancelIfAny(s.parked))
    case Listening | Finalizing | Submitting | AwaitingAgent =>
      Reaction(BeginUserTurn(s).(state := UserSpeaking), [])
  }

  function OnPttReleased(s: Session): Reaction {
    if s.state != UserSpeaking then Ignore(s)
    else Reaction(s.(state := Finalizing, finalizing := 0), [])
  }

  function OnTick(s: Session, dt: Duration): Reaction {
    match s.state
    case Listening =>
      var t := s.(listening := s.listening + dt);
      if t.listening >= IDLE_TIMEOUT then OnSessionEnd(t) else Ignore(t)
    case UserSpeaking =>
      var t := s.(speaking := s.speaking + dt);
      Ignore(if t.speaking >= MAX_UTTERANCE then t.(state := Finalizing, speaking := 0, finalizing := 0) else t)
    case Finalizing =>
      var t := s.(finalizing := s.finalizing + dt);
      Ignore(if t.finalizing >= FINALIZE_TIMEOUT then ToListening(t.(finalizing := 0)) else t)
    case AwaitingAgent =>
      var t := s.(awaiting := s.awaiting + dt);
      Ignore(if t.awaiting >= AGENT_RESPONSE_TIMEOUT then ToListening(t.(awaiting := 0)) else t)
    case Interrupting =>
      var t := s.(interrupting := s.interrupting + dt);
      if t.interrupting >= BARGE_IN_RETRACTION_WINDOW then
        Reaction(t.(interrupting := 0, current := s.parked, parked := None, state := AgentSpeaking),
                 if s.parked.Some? then [ResumeSpeaking(s.parked.value)] else [])
      else Ignore(t)
    case Idle | Submitting | AgentSpeaking => Ignore(s)
  }

  /** The handler an input selects, before the state change is reported. */
  function React(s: Session, input: Input): Reaction {
    match input
    case SessionStart => OnSessionStart(s)
    case SessionEnd | StopRequested => OnSessionEnd(s)
    case EndpointEvent(event) => OnEndpointEvent(s, event)
    case BargeInConfirmed => OnBargeInConfirmed(s)
    case PartialTranscript(turn, text) => OnPartialTranscript(s, turn, text)
    case FinalTranscript(turn, text) => OnFinalTranscript(s, turn, text)
    case FinalTranscriptRejected(turn) => OnFinalTranscriptRejected(s, turn)
    case SubmitSucceeded(turn) => OnSubmitSucceeded(s, turn)
    case SubmitFailed(turn, error) => OnSubmitFailed(s, turn, error)
    case AgentTextArrived(turn, _) => OnAgentTextArrived(s, turn)
    case AgentTurnComplete(turn) => OnAgentTurnComplete(s, turn)
    case PlaybackDrained(turn) => OnPlaybackDrained(s, turn)
    case PushToTalkPressed => OnPttPressed(s)
    case PushToTalkReleased => OnPttReleased(s)
    case Tick(dt) => OnTick(s, dt)
  }

  function Handle(s: Session, input: Input): Reaction {
    var r := React(s, input);
    if r.next.state == s.state then r else Reaction(r.next, r.outputs + [EmitState(r.next.state)])
  }

  function PushFrame(s: Session, frame: Frame): Session {
    if s.state == Idle then s
    else s.(preroll := (if |s.preroll| == PREROLL_FRAMES then s.preroll[1..] else s.preroll) + [frame])
  }
}
