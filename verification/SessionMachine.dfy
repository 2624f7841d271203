/** The conversation state machine in the form the program has it: one object
    whose handlers assign its fields in place. */
module SessionMachine {
  import opened Wrappers
  import opened SessionTypes
  import Spec = Session

  class SessionMachine {
    var state: SessionState
    var currentTurn: Option<TurnId>
    var pendingCancelTurn: Option<TurnId>
    var turnCounter: nat
    var currentUtterance: Option<string>
    var lastFailedUtterance: Option<string>
    var lastSubmitError: Option<string>
    var agentTurnComplete: bool
    var listeningElapsed: Duration
    var speakingElapsed: Duration
    var finalizingElapsed: Duration
    var awaitingAgentElapsed: Duration
    var interruptingElapsed: Duration
    var preroll: seq<Frame>

    function View(): Spec.Session
      reads this
    {
      Spec.Session(state, currentTurn, pendingCancelTurn, turnCounter, currentUtterance, lastFailedUtterance,
                   lastSubmitError, agentTurnComplete, listeningElapsed, speakingElapsed, finalizingElapsed,
                   awaitingAgentElapsed, interruptingElapsed, preroll)
    }

    constructor ()
      ensures View() == Spec.INITIAL
    {
      state := Idle;
      currentTurn, pendingCancelTurn, turnCounter := None, None, 0;
      currentUtterance, lastFailedUtterance, lastSubmitError := None, None, None;
      agentTurnComplete := false;
      listeningElapsed, speakingElapsed, finalizingElapsed := 0, 0, 0;
      awaitingAgentElapsed, interruptingElapsed := 0, 0;
      preroll := [];
    }

    method PushFrame(frame: Frame)
      modifies this
      ensures View() == Spec.PushFrame(old(View()), frame)
    {
      if state != Idle {
        if |preroll| == PREROLL_FRAMES {
          preroll := preroll[1..];
        }
        preroll := preroll + [frame];
      }
    }

    method Handle(input: Input) returns (out: seq<Output>)
      modifies this
      ensures Spec.Reaction(View(), out) == Spec.Handle(old(View()), input)
    {
      var before := state;
      match input {
        case SessionStart => out := OnSessionStart();
        case SessionEnd => out := OnSessionEnd();
        case StopRequested => out := OnSessionEnd();
        case EndpointEvent(event) => out := OnEndpointEvent(event);
        case BargeInConfirmed => out := OnBargeInConfirmed();
        case PartialTranscript(turn, text) => out := OnPartialTranscript(turn, text);
        case FinalTranscript(turn, text) => out := OnFinalTranscript(turn, text);
        case FinalTranscriptRejected(turn) => OnFinalTranscriptRejected(turn); out := [];
        case SubmitSucceeded(turn) => OnSubmitSucceeded(turn); out := [];
        case SubmitFailed(turn, error) => OnSubmitFailed(turn, error); out := [];
        case AgentTextArrived(turn, _) => OnAgentTextArrived(turn); out := [];
        case AgentTurnComplete(turn) => OnAgentTurnComplete(turn); out := [];
        case PlaybackDrained(turn) => OnPlaybackDrained(turn); out := [];
        case PushToTalkPressed => out := OnPttPressed();
        case PushToTalkReleased => OnPttReleased(); out := [];
        case Tick(dt) => out := OnTick(dt);
      }
      if state != before {
        out := out + [EmitState(state)];
      }
    }

    method BeginUserTurn() returns (id: TurnId)
      modifies this
      ensures View() == Spec.BeginUserTurn(old(View()))
      ensures id == old(turnCounter) + 1
    {
      turnCounter := turnCounter + 1;
      id := turnCounter;
      currentTurn := Some(id);
      speakingElapsed := 0;
      currentUtterance := None;
    }

    method EndTurnReturnToListening()
      modifies this
      ensures View() == Spec.ToListening(old(View()).(complete := false))
    {
      currentTurn := None;
      agentTurnComplete := false;
      state := Listening;
      listeningElapsed := 0;
    }

    method ResetAllTimers()
      modifies this
      ensures View() == Spec.ResetTimers(old(View()))
    {
      listeningElapsed := 0;
      speakingElapsed := 0;
      finalizingElapsed := 0;
      awaitingAgentElapsed := 0;
      interruptingElapsed := 0;
    }

    method OnSessionStart() returns (out: seq<Output>)
      modifies this
      ensures Spec.Reaction(View(), out) == Spec.OnSessionStart(old(View()))
    {
      if state != Idle {
        return [];
      }
      ResetAllTimers();
      preroll := [];
      currentTurn := None;
      pendingCancelTurn := None;
      currentUtterance := None;
      lastFailedUtterance := None;
      lastSubmitError := None;
      agentTurnComplete := false;
      state := Listening;
      out := [StartCapture];
    }

    method OnSessionEnd() returns (out: seq<Output>)
      modifies this
      ensures Spec.Reaction(View(), out) == Spec.OnSessionEnd(old(View()))
    {
      if state == Idle {
        return [];
      }
      out := [];
      if state == AgentSpeaking || state == Interrupting {
        out := [CancelPlayback, FlushOutputBuffer];
        var turnToCancel := if state == Interrupting then pendingCancelTurn else currentTurn;
        if turnToCancel.Some? {
          out := out + [CancelSynthesis(turnToCancel.value)];
        }
      }
      out := out + [StopCapture];
      state := Idle;
      currentTurn := None;
      pendingCancelTurn := None;
      agentTurnComplete := false;
      preroll := [];
      ResetAllTimers();
    }

    method OnEndpointEvent(event: DetectorEvent) returns (out: seq<Output>)
      modifies this
      ensures Spec.Reaction(View(), out) == Spec.OnEndpointEvent(old(View()), event)
    {
      if state == Listening && event == SpeechStart {
        var _ := BeginUserTurn();
        state := UserSpeaking;
      } else if state == UserSpeaking && event == SpeechEnd {
        state := Finalizing;
        finalizingElapsed := 0;
      }
      out := [];
    }

    method OnBargeInConfirmed() returns (out: seq<Output>)
      modifies this
      ensures Spec.Reaction(View(), out) == Spec.OnBargeInConfirmed(old(View()))
    {
      if state != AgentSpeaking {
        return [];
      }
      pendingCancelTurn := currentTurn;
      var candidate := BeginUserTurn();
      interruptingElapsed := 0;
      state := Interrupting;
      out := [CancelPlayback, FlushOutputBuffer, ReplayPreRoll(candidate)];
    }

    method OnPartialTranscript(turn: TurnId, text: string) returns (out: seq<Output>)
      modifies this
      ensures Spec.Reaction(View(), out) == Spec.OnPartialTranscript(old(View()), turn, text)
    {
      if currentTurn != Some(turn) {
        return [];
      }
      if state == UserSpeaking {
        out := [ShowPartial(text)];
      } else if state == Interrupting {
        out := ConfirmGenuineBargeIn([ShowPartial(text)]);
      } else {
        out := [];
      }
    }

    method OnFinalTranscript(turn: TurnId, text: string) returns (out: seq<Output>)
      modifies this
      ensures Spec.Reaction(View(), out) == Spec.OnFinalTranscript(old(View()), turn, text)
    {
      if currentTurn != Some(turn) {
        return [];
      }
      if state == Finalizing {
        currentUtterance := Some(text);
        state := Submitting;
        out := [SubmitUtterance(turn, text)];
      } else if state == Interrupting {
        out := ConfirmGenuineBargeIn([]);
        currentUtterance := Some(text);
        state := Submitting;
        out := out + [SubmitUtterance(turn, text)];
      } else {
        out := [];
      }
    }

    method OnFinalTranscriptRejected(turn: TurnId)
      modifies this
      ensures Spec.Reaction(View(), []) == Spec.OnFinalTranscriptRejected(old(View()), turn)
    {
      if currentTurn != Some(turn) || state != Finalizing {
        return;
      }
      finalizingElapsed := 0;
      currentTurn := None;
      state := Listening;
      listeningElapsed := 0;
    }

    method ConfirmGenuineBargeIn(extra: seq<Output>) returns (out: seq<Output>)
      modifies this
      ensures Spec.Reaction(View(), out) == Spec.ConfirmGenuineBargeIn(old(View()), extra)
    {
      out := [];
      if pendingCancelTurn.Some? {
        out := [CancelSynthesis(pendingCancelTurn.value)];
        pendingCancelTurn := None;
      }
      speakingElapsed := 0;
      state := UserSpeaking;
      out := out + extra;
    }

    method OnSubmitSucceeded(turn: TurnId)
      modifies this
      ensures Spec.Reaction(View(), []) == Spec.OnSubmitSucceeded(old(View()), turn)
    {
      if currentTurn != Some(turn) || state != Submitting {
        return;
      }
      currentUtterance := None;
      awaitingAgentElapsed := 0;
      state := AwaitingAgent;
    }

    method OnSubmitFailed(turn: TurnId, error: string)
      modifies this
      ensures Spec.Reaction(View(), []) == Spec.OnSubmitFailed(old(View()), turn, error)
    {
      if currentTurn != Some(turn) || state != Submitting {
        return;
      }
      lastFailedUtterance := currentUtterance;
      currentUtterance := None;
      lastSubmitError := Some(error);
      currentTurn := None;
      state := Listening;
      listeningElapsed := 0;
    }

    method OnAgentTextArrived(turn: TurnId)
      modifies this
      ensures Spec.Reaction(View(), []) == Spec.OnAgentTextArrived(old(View()), turn)
    {
      if currentTurn == Some(turn) && state == AwaitingAgent {
        awaitingAgentElapsed := 0;
        agentTurnComplete := false;
        state := AgentSpeaking;
      }
    }

    method OnAgentTurnComplete(turn: TurnId)
      modifies this
      ensures Spec.Reaction(View(), []) == Spec.OnAgentTurnComplete(old(View()), turn)
    {
      if currentTurn != Some(turn) {
        return;
      }
      if state == AwaitingAgent {
        EndTurnReturnToListening();
      } else if state == AgentSpeaking {
        agentTurnComplete := true;
      }
    }

    method OnPlaybackDrained(turn: TurnId)
      modifies this
      ensures Spec.Reaction(View(), []) == Spec.OnPlaybackDrained(old(View()), turn)
    {
      if currentTurn != Some(turn) || state != AgentSpeaking {
        return;
      }
      if agentTurnComplete {
        EndTurnReturnToListening();
      }
    }

    method OnPttPressed() returns (out: seq<Output>)
      modifies this
      ensures Spec.Reaction(View(), out) == Spec.OnPttPressed(old(View()))
    {
      out := [];
      match state {
        case Idle | UserSpeaking =>
        case AgentSpeaking =>
          out := [CancelPlayback, FlushOutputBuffer];
          if currentTurn.Some? {
            out := out + [CancelSynthesis(currentTurn.value)];
          }
          var _ := BeginUserTurn();
          state := UserSpeaking;
        case Interrupting =>
          if pendingCancelTurn.Some? {
            out := [CancelSynthesis(pendingCancelTurn.value)];
            pendingCancelTurn := None;
          }
          speakingElapsed := 0;
          currentUtterance := None;
          state := UserSpeaking;
        case Listening | Finalizing | Submitting | AwaitingAgent =>
          var _ := BeginUserTurn();
          state := UserSpeaking;
      }
    }

    method OnPttReleased()
      modifies this
      ensures Spec.Reaction(View(), []) == Spec.OnPttReleased(old(View()))
    {
      if state == UserSpeaking {
        state := Finalizing;
        finalizingElapsed := 0;
      }
    }

    method OnTick(dt: Duration) returns (out: seq<Output>)
      modifies this
      ensures Spec.Reaction(View(), out) == Spec.OnTick(old(View()), dt)
    {
      out := [];
      match state {
        case Listening =>
          listeningElapsed := listeningElapsed + dt;
          if listeningElapsed >= IDLE_TIMEOUT {
            out := OnSessionEnd();
          }
        case UserSpeaking =>
          speakingElapsed := speakingElapsed + dt;
          if speakingElapsed >= MAX_UTTERANCE {
            state := Finalizing;
            speakingElapsed := 0;
            finalizingElapsed := 0;
          }
        case Finalizing =>
          finalizingElapsed := finalizingElapsed + dt;
          if finalizingElapsed >= FINALIZE_TIMEOUT {
            finalizingElapsed := 0;
            currentTurn := None;
            state := Listening;
            listeningElapsed := 0;
          }
        case AwaitingAgent =>
          awaitingAgentElapsed := awaitingAgentElapsed + dt;
          if awaitingAgentElapsed >= AGENT_RESPONSE_TIMEOUT {
            currentTurn := None;
            awaitingAgentElapsed := 0;
            state := Listening;
            listeningElapsed := 0;
          }
        case Interrupting =>
          interruptingElapsed := interruptingElapsed + dt;
          if interruptingElapsed >= BARGE_IN_RETRACTION_WINDOW {
            interruptingElapsed := 0;
            var resumed := pendingCancelTurn;
            pendingCancelTurn := None;
            currentTurn := resumed;
            state := AgentSpeaking;
            if resumed.Some? {
              out := [ResumeSpeaking(resumed.value)];
            }
          }
        case Idle | Submitting | AgentSpeaking =>
      }
    }
  }
}
