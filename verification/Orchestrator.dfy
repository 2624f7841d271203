/** The orchestrator in the form the program has it: an object that owns the
    session machine, the playback state and the agent backend, and updates them
    and its own counters in place. Every method computes the step of the same
    meaning in `Conversation`. */
module Orchestrator {
  import opened Wrappers
  import opened SessionTypes
  import opened Conversation
  import P = Playback
  import A = BuzzAgent
  import Worker = TtsWorker
  import SessionMachine
  import opened Sequences
  import opened Phrases

  class Orchestrator {
    const session: SessionMachine.SessionMachine
    const playback: P.PlaybackState<Sample>
    const agent: A.BuzzAgent
    var tts: bool
    var ttsPending: map<TurnId, nat>
    var playbackPushedSamples: nat
    var playbackPushStartedAt: Option<Instant>
    var capturing: bool
    ghost var history: History

    ghost function View(): World
      reads this, session, playback, agent
    {
      World(session.View(), playback.View(), agent.View(), tts, ttsPending, playbackPushedSamples,
            playbackPushStartedAt, capturing, history)
    }

    constructor (tts: bool, quietPeriod: nat)
      ensures View() == Begin(tts)
      ensures fresh(session) && fresh(playback) && fresh(agent)
    {
      session := new SessionMachine.SessionMachine();
      playback := new P.PlaybackState<Sample>();
      agent := new A.BuzzAgent(quietPeriod);
      this.tts, ttsPending := tts, map[];
      playbackPushedSamples, playbackPushStartedAt, capturing := 0, None, false;
      history := NO_HISTORY;
    }

    method DispatchInput(input: Input)
      modifies this, session, playback, agent
      ensures View() == Dispatch(old(View()), input)
      decreases if input.SubmitSucceeded? then 1 else 3, 0
    {
      var outputs := session.Handle(input);
      ActOnAll(outputs);
    }

    method ActOnAll(outputs: seq<Output>)
      modifies this, session, playback, agent
      ensures View() == ActAll(old(View()), outputs)
      decreases if HasSubmit(outputs) then 2 else 0, |outputs|
    {
      if outputs != [] {
        assert HasSubmit(outputs[1..]) ==> HasSubmit(outputs) by {
          if HasSubmit(outputs[1..]) {
            var k :| 0 <= k < |outputs[1..]| && outputs[1..][k].SubmitUtterance?;
            assert outputs[k + 1].SubmitUtterance?;
          }
        }
        ActOn(outputs[0]);
        ActOnAll(outputs[1..]);
      }
    }

    method ActOn(output: Output)
      modifies this, session, playback, agent
      ensures View() == Act(old(View()), output)
      decreases if output.SubmitUtterance? then 2 else 0, 0
    {
      ghost var p := playback.View();
      match output {
        case StartCapture => capturing := true;
        case StopCapture => capturing := false;
        case SubmitUtterance(turn, text) =>
          agent.SubmitTurn(turn, text);
          history := history.(submitted := history.submitted + {turn});
          DispatchInput(SubmitSucceeded(turn));
        case CancelPlayback =>
          var interrupted := playback.CancelPlayback();
          if interrupted.Some? {
            history := history.(lost := history.lost + multiset(p.live) + multiset(PausedQueue(p)));
          }
        case FlushOutputBuffer =>
          playback.FlushLive();
          history := history.(lost := history.lost + multiset(p.live));
        case CancelSynthesis(turn) =>
          playback.CancelSynthesis(turn);
          history := history.(
            cancelled := history.cancelled + {turn},
            sent := history.sent + CancelRequest(tts, turn),
            lost := history.lost + (if p.liveTurn == Some(turn) then multiset(p.live) else multiset{})
                                 + (if P.IsPaused(p, turn) then multiset(PausedQueue(p)) else multiset{}));
        case ResumeSpeaking(turn) =>
          var resumed := playback.ResumeTurn(turn);
          if resumed {
            history := history.(lost := history.lost + multiset(p.live));
          }
        case ShowPartial(_) =>
        case ReplayPreRoll(_) =>
        case EmitState(_) =>
      }
    }

    method BeginPlayback(turn: TurnId)
      modifies this, playback
      ensures View() == StartIfNew(old(View()), turn)
    {
      if !P.Recognises(playback.View(), turn) {
        history := history.(lost := history.lost + multiset(playback.live));
        playback.StartTurn(turn);
      }
    }

    /** Sends the phrases one by one, counting each as pending. */
    method RequestPhrases(turn: TurnId, phrases: seq<string>)
      modifies this
      ensures View() == AddPhrases(old(View()), turn, phrases)
    {
      if !tts {
        return;
      }
      for k := 0 to |phrases|
        invariant tts && View() == AddPhrases(old(View()), turn, phrases[..k])
      {
        AddPhrasesOne(old(View()), turn, phrases, k);
        RequestPhrase(turn, phrases[k]);
      }
      WholePrefix(phrases);
    }

    method RequestPhrase(turn: TurnId, phrase: string)
      requires tts
      modifies this`ttsPending, this`history
      ensures View() == AddPhrases(old(View()), turn, [phrase])
    {
      Worker.RequestsOne(turn, phrase);
      ttsPending := ttsPending[turn := Count(ttsPending, turn) + 1];
      history := history.(
        requested := history.requested[turn := Count(history.requested, turn) + 1],
        sent := history.sent + [Worker.Synthesize(turn, phrase)]);
    }

    /** Text is segmented into phrases, which are sent to the synthesiser. */
    method HandleText(turn: TurnId, text: string) returns (ghost phrases: seq<string>)
      modifies this, session, playback, agent
      ensures ArePhrases(text, phrases) && View() == OnText(old(View()), turn, text, phrases)
    {
      var segmented := SegmentIntoPhrases(text);
      phrases := segmented;
      if !P.Recognises(playback.View(), turn) && session.currentTurn != Some(turn) {
        return;
      }
      BeginPlayback(turn);
      DispatchInput(AgentTextArrived(turn, text));
      RequestPhrases(turn, segmented);
    }

    method HandleComplete(turn: TurnId, now: Instant)
      modifies this, session, playback, agent
      ensures View() == OnComplete(old(View()), turn, now)
    {
      if session.state == AgentSpeaking && session.currentTurn == Some(turn) {
        history := history.(completed := history.completed + {turn});
      }
      DispatchInput(AgentTurnComplete(turn));
      var nothingLeft := IsNothingLeft(turn, now);
      if nothingLeft {
        SendDrained(turn);
      }
    }

    method ResidentSamples(now: Instant) returns (resident: nat)
      ensures resident == Resident(View(), now)
    {
      if playbackPushStartedAt.None? {
        return 0;
      }
      var elapsed := A.Elapsed(playbackPushStartedAt.value, now);
      resident := if playbackPushedSamples <= elapsed then 0 else playbackPushedSamples - elapsed;
    }

    method IsNothingLeft(turn: TurnId, now: Instant) returns (nothing: bool)
      ensures nothing <==> NothingLeftToPlay(View(), turn, now)
    {
      if !P.Recognises(playback.View(), turn) {
        return true;
      }
      var resident := ResidentSamples(now);
      nothing :=
        Count(ttsPending, turn) == 0 && playback.liveTurn == Some(turn) && playback.live == [] && resident == 0;
    }

    method SendDrained(turn: TurnId)
      modifies this, session, playback, agent
      ensures View() == SignalDrained(old(View()), turn)
    {
      ttsPending := ttsPending - {turn};
      DispatchInput(PlaybackDrained(turn));
    }

    method DrainTtsResult(turn: TurnId, samples: seq<Sample>)
      modifies this, session, playback, agent
      ensures View() == Step(old(View()), Synthesized(turn, samples))
    {
      if !tts {
        return;
      }
      if turn in ttsPending {
        var before := ttsPending[turn];
        ttsPending := ttsPending[turn := if before == 0 then 0 else before - 1];
      }
      ghost var dropped := turn in playback.abandoned || !P.Recognises(playback.View(), turn);
      playback.RouteSynthesized(turn, samples);
      history := history.(
        returned := history.returned[turn := Count(history.returned, turn) + 1],
        received := history.received + 1,
        arrived := history.arrived[turn := Count(history.arrived, turn) + |samples|],
        everything := history.everything + multiset(samples),
        lost := if dropped then history.lost + multiset(samples) else history.lost);
    }

    method TopUpRing(resident: nat, now: Instant)
      modifies this, playback
      ensures View() == TopUp(old(View()), resident, now)
    {
      if resident < LEAD_SAMPLES {
        var chunk := playback.TakeLive(LEAD_SAMPLES - resident);
        playbackPushedSamples := playbackPushedSamples + |chunk|;
        history := history.(fed := history.fed + chunk, playedOut := PlaysOut(history.playedOut, |chunk|, now));
      }
    }

    method FeedPlayback(now: Instant)
      modifies this, session, playback, agent
      ensures View() == Feed(old(View()), now)
    {
      if playback.live == [] && playbackPushedSamples == 0 {
        return;
      }
      if playbackPushStartedAt.None? {
        playbackPushStartedAt := Some(now);
      }
      assert View() == Anchored(old(View()), now);
      var resident := ResidentSamples(now);
      TopUpRing(resident, now);
      if playback.live == [] && resident == 0 {
        playbackPushedSamples := 0;
        playbackPushStartedAt := None;
        if playback.liveTurn.Some? && Count(ttsPending, playback.liveTurn.value) == 0 {
          SendDrained(playback.liveTurn.value);
        }
      }
    }

    method HandleAgentEvent(event: A.AgentEvent, now: Instant) returns (ghost phrases: seq<string>)
      modifies this, session, playback, agent
      ensures View() == OnAgentEvent(old(View()), event, now, phrases)
      ensures event.TextChunk? ==> ArePhrases(event.text, phrases)
    {
      phrases := [];
      match event {
        case TextChunk(turn, text) => phrases := HandleText(turn, text);
        case TurnComplete(turn) => HandleComplete(turn, now);
      }
    }

    method PollBackend(now: Instant) returns (event: Option<A.AgentEvent>)
      modifies agent
      ensures
        var p := A.Poll(old(agent.View()), now, agent.quietPeriod);
        event == p.event && View() == old(View()).(agent := p.agent)
    {
      event := agent.PollEvent(now);
    }

    /** Handles one event, if the agent has one; `phrases` are those of its text. */
    method PollAgent(now: Instant) returns (ghost phrases: seq<string>)
      modifies this, session, playback, agent
      ensures View() == Step(old(View()), Polled(now, agent.quietPeriod, phrases))
    {
      phrases := [];
      var event := PollBackend(now);
      if event.Some? {
        phrases := HandleAgentEvent(event.value, now);
      }
      PolledIs(old(View()), now, agent.quietPeriod, phrases);
    }

    /** `ready` tells whether the new engine could be opened; if not, all stays as
        it was and will be tried again. */
    method RebuildEngine(ready: bool)
      modifies this, session, playback, agent
      ensures View() == if ready then Rebuild(old(View())) else old(View())
    {
      if !ready {
        return;
      }
      playbackPushedSamples := 0;
      playbackPushStartedAt := None;
      history := history.(playedOut := 0);
      DispatchInput(SessionEnd);
      DispatchInput(SessionStart);
    }

    method LoseSynthesizer()
      modifies this, session, playback, agent
      ensures View() == LoseTts(old(View()))
    {
      tts := false;
      ttsPending := map[];
    }
  }
}
