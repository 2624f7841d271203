/** The vocabulary of the conversation state machine: states, inputs, outputs
    and timing limits. Durations are whole nanoseconds, the resolution of the
    clock type the program uses. */
module SessionTypes {
  type TurnId = nat
  type Duration = nat
  type Frame = seq<real>

  const SECOND: Duration := 1_000_000_000
  const IDLE_TIMEOUT: Duration := 90 * SECOND
  const AGENT_RESPONSE_TIMEOUT: Duration := 60 * SECOND
  const MAX_UTTERANCE: Duration := 30 * SECOND
  const BARGE_IN_RETRACTION_WINDOW: Duration := 700_000_000
  const FINALIZE_TIMEOUT: Duration := 5 * SECOND

  const FRAME_SAMPLES: nat := 480
  const SAMPLE_RATE_HZ: nat := 48_000
  /** 1500 ms of 10 ms frames. */
  const PREROLL_FRAMES: nat := 150

  datatype SessionState =
    | Idle
    | Listening
    | UserSpeaking
    | Finalizing
    | Submitting
    | AwaitingAgent
    | AgentSpeaking
    | Interrupting

  datatype DetectorEvent = Silence | SpeechStart | SpeechContinue | SpeechEnd

  datatype Input =
    | SessionStart
    | SessionEnd
    | StopRequested
    | EndpointEvent(event: DetectorEvent)
    | BargeInConfirmed
    | PartialTranscript(turn: TurnId, text: string)
    | FinalTranscript(turn: TurnId, text: string)
    | FinalTranscriptRejected(turn: TurnId)
    | SubmitSucceeded(turn: TurnId)
    | SubmitFailed(turn: TurnId, error: string)
    | AgentTextArrived(turn: TurnId, text: string)
    | AgentTurnComplete(turn: TurnId)
    | PlaybackDrained(turn: TurnId)
    | PushToTalkPressed
    | PushToTalkReleased
    | Tick(dt: Duration)
  {
    /** Whether this input reports the result of asynchronous work for a turn. */
    predicate Tagged() {
      PartialTranscript? || FinalTranscript? || FinalTranscriptRejected? || SubmitSucceeded? || SubmitFailed? ||
      AgentTextArrived? || AgentTurnComplete? || PlaybackDrained?
    }
  }

  datatype Output =
    | StartCapture
    | StopCapture
    | ShowPartial(text: string)
    | SubmitUtterance(turn: TurnId, text: string)
    | CancelPlayback
    | FlushOutputBuffer
    | CancelSynthesis(turn: TurnId)
    | ReplayPreRoll(turn: TurnId)
    | ResumeSpeaking(turn: TurnId)
    | EmitState(state: SessionState)
}
