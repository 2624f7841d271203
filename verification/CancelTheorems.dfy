/** What the synthesis worker is told of cancelled turns, over whole runs. */
module CancelTheorems {
  import opened Wrappers
  import opened SessionTypes
  import opened Sequences
  import opened Conversation
  import opened ConversationSafety
  import opened ConversationTheorems
  import opened WorkerTheorems
  import opened SpeechTheorems
  import opened LostVoice
  import S = Session
  import A = BuzzAgent
  import Worker = TtsWorker

  /** While there is a worker, it was told of every cancelled turn. */
  ghost predicate Told(w: World) {
    w.tts ==> forall t: TurnId :: t in w.history.cancelled ==> Worker.Cancel(t) in w.history.sent
  }

  /** No turn was cancelled, and what was sent stays sent. */
  ghost predicate CancelsNothing(a: World, b: World) {
    b.history.cancelled == a.history.cancelled && a.history.sent <= b.history.sent && (b.tts ==> a.tts)
  }

  lemma StillTold(a: World, b: World)
    requires Told(a) && CancelsNothing(a, b)
    ensures Told(b)
  {
    forall t: TurnId | b.tts && t in b.history.cancelled ensures Worker.Cancel(t) in b.history.sent {
      var k :| 0 <= k < |a.history.sent| && a.history.sent[k] == Worker.Cancel(t);
      assert b.history.sent[k] == a.history.sent[k];
    }
  }

  lemma DispatchTells(w: World, input: Input)
    requires Coherent(w) && Direct(input) && Told(w)
    ensures Told(Dispatch(w, input))
  {
    var n, a, b := S.Handle(w.session, input).next, w.history, Dispatch(w, input).history;
    DispatchHasEffect(w, input);
    EffectKeepsMute(w, input, n);
    EffectOnlyCancels(w, input, n);
    if !(b.sent == a.sent && b.cancelled == a.cancelled) {
      var turn :| b.sent == a.sent + CancelRequest(w.tts, turn) && b.cancelled == a.cancelled + {turn};
      forall t: TurnId | w.tts && t in b.cancelled ensures Worker.Cancel(t) in b.sent {
        assert Worker.Cancel(turn) in CancelRequest(w.tts, turn);
      }
    }
  }

  lemma RebuildTells(w: World)
    requires Coherent(w) && Told(w)
    ensures Told(Rebuild(w))
  {
    var x := Replaced(w);
    PacingIsFree(w, 0, None, 0);
    DispatchKeepsOk(x, SessionEnd);
    DispatchTells(x, SessionEnd);
    DispatchTells(Dispatch(x, SessionEnd), SessionStart);
  }

  lemma TextCancelsNothing(w: World, turn: TurnId, text: string, phrases: seq<string>)
    ensures CancelsNothing(w, OnText(w, turn, text, phrases))
  {
    AgentInput(StartIfNew(w, turn), AgentTextArrived(turn, text));
  }

  lemma CompleteCancelsNothing(w: World, turn: TurnId, now: Instant)
    ensures CancelsNothing(w, OnComplete(w, turn, now))
  {
    var x := NoteComplete(w, turn);
    AgentInput(x, AgentTurnComplete(turn));
    var done := Dispatch(x, AgentTurnComplete(turn));
    AgentInput(done.(pending := done.pending - {turn}), PlaybackDrained(turn));
  }

  lemma FeedCancelsNothing(w: World, now: Instant)
    ensures CancelsNothing(w, Feed(w, now))
  {
    if w.playback.live != [] || w.pushed != 0 {
      FeedShape(w, now);
    }
  }

  lemma StepTells(w: World, e: Event)
    requires Coherent(w) && Enabled(w, e) && Told(w)
    ensures Told(Step(w, e))
  {
    match e {
      case External(input) => DispatchTells(w, input);
      case Rebuilt => RebuildTells(w);
      case _ =>
        QuietStepCancelsNothing(w, e);
        StillTold(w, Step(w, e));
    }
  }

  lemma QuietStepCancelsNothing(w: World, e: Event)
    requires !e.External? && !e.Rebuilt?
    ensures CancelsNothing(w, Step(w, e))
  {
    match e {
      case Text(turn, text, phrases) => TextCancelsNothing(w, turn, text, phrases);
      case Complete(turn, now) => CompleteCancelsNothing(w, turn, now);
      case FeedTick(now) => FeedCancelsNothing(w, now);
      case Polled(now, quiet, phrases) =>
        var p := A.Poll(w.agent, now, quiet);
        var x := w.(agent := p.agent);
        match p.event {
          case None =>
          case Some(TextChunk(turn, text)) => TextCancelsNothing(x, turn, text, phrases);
          case Some(TurnComplete(turn)) => CompleteCancelsNothing(x, turn, now);
        }
      case _ =>
    }
  }

  /** In every run the worker, while there is one, has been told of every turn that
      was cancelled. */
  lemma {:induction false} WorkerIsTold(w: World, events: seq<Event>)
    requires Coherent(w) && Legit(w, events) && Told(w)
    ensures Told(Run(w, events))
    decreases |events|
  {
    if events != [] {
      StepKeepsOk(w, events[0]);
      StepTells(w, events[0]);
      WorkerIsTold(Step(w, events[0]), events[1..]);
    }
  }

  lemma {:induction false} SentStaysSent(w: World, events: seq<Event>)
    requires Coherent(w) && Legit(w, events)
    ensures w.history.sent <= Run(w, events).history.sent
    decreases |events|
  {
    if events != [] {
      StepKeepsOk(w, events[0]);
      if events[0].Synthesized? && w.tts {
        assert Step(w, events[0]).history.sent == w.history.sent;
      } else {
        StepAdds(w, events[0], 0);
      }
      SentStaysSent(Step(w, events[0]), events[1..]);
    }
  }

  /** Once a turn is cancelled the worker never answers anything it is sent for it,
      whatever follows. */
  lemma CancelledTurnsAreNotVoiced(
    synth: Worker.Synthesizer, tts: bool, before: seq<Event>, after: seq<Event>, turn: TurnId)
    requires Legit(Begin(tts), before) && Legit(Run(Begin(tts), before), after)
    requires
      var w := Run(Begin(tts), before);
      w.tts && turn in w.history.cancelled
    ensures
      var w := Run(Begin(tts), before);
      Worker.SamplesOf(Worker.Serve(synth, {}, Run(w, after).history.sent), turn) ==
      Worker.SamplesOf(Worker.Serve(synth, {}, w.history.sent), turn)
  {
    var w := Run(Begin(tts), before);
    BeginsOk(tts);
    EveryRunKeepsInvariant(Begin(tts), before);
    WorkerIsTold(Begin(tts), before);
    SentStaysSent(w, after);
    var a, b := w.history.sent, Run(w, after).history.sent;
    assert a + b[|a|..] == b;
    Worker.CancelledGetNothing(synth, a, b[|a|..], turn);
  }
}
