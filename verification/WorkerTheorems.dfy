/** The synthesis worker put into the conversation loop: results are what the
    worker's loop answers to what it was sent, delivered in order, at any time. */
module WorkerTheorems {
  import opened Wrappers
  import opened SessionTypes
  import opened Sequences
  import opened Conversation
  import opened ConversationSafety
  import opened ConversationTheorems
  import opened SynthesisTheorems
  import S = Session
  import P = Playback
  import A = BuzzAgent
  import Worker = TtsWorker

  function Levels(samples: seq<Sample>): seq<real> {
    if samples == [] then [] else Levels(samples[..|samples| - 1]) + [samples[|samples| - 1].level]
  }

  /** A result that arrives is the next one the worker has for what it was sent. */
  ghost predicate Delivers(synth: Worker.Synthesizer, w: World, e: Event) {
    match e
    case Synthesized(turn, samples) =>
      var results := Worker.Serve(synth, {}, w.history.sent);
      w.history.received < |results| && results[w.history.received] == Worker.TtsResult(turn, Levels(samples))
    case _ => true
  }

  ghost predicate ServedRun(synth: Worker.Synthesizer, w: World, events: seq<Event>)
    decreases |events|
  {
    events == [] || (Delivers(synth, w, events[0]) && ServedRun(synth, Step(w, events[0]), events[1..]))
  }

  /** The counts kept for each turn are those of the requests and of the results. */
  ghost predicate SentFits(synth: Worker.Synthesizer, h: History) {
    && h.received <= |Worker.Serve(synth, {}, h.sent)|
    && (forall t: TurnId :: Count(h.requested, t) == Worker.Asked(h.sent, t))
    && (forall t: TurnId ::
          Count(h.returned, t) == Worker.Answered(Worker.Serve(synth, {}, h.sent)[..h.received], t))
  }

  /** A turn none of whose phrases was answered has no samples. */
  ghost predicate SamplesComeFromResults(h: History) {
    forall t: TurnId :: Count(h.returned, t) == 0 ==> Count(h.arrived, t) == 0
  }

  /** Nothing came back, and `more` was sent. */
  ghost predicate Sends(a: History, b: History, more: seq<Worker.Request>) {
    && b.sent == a.sent + more && b.received == a.received && b.returned == a.returned && b.arrived == a.arrived
    && forall t: TurnId :: Count(b.requested, t) == Count(a.requested, t) + Worker.Asked(more, t)
  }

  lemma SendsKeepsFit(synth: Worker.Synthesizer, a: History, b: History, more: seq<Worker.Request>)
    requires SentFits(synth, a) && Sends(a, b, more)
    ensures SentFits(synth, b)
  {
    Worker.ServeMore(synth, {}, a.sent, more);
    PrefixOfPrefix(Worker.Serve(synth, {}, a.sent), Worker.Serve(synth, {}, b.sent), a.received);
    forall t: TurnId ensures Count(b.requested, t) == Worker.Asked(b.sent, t) {
      Worker.AskedConcat(a.sent, more, t);
    }
  }

  lemma SendsTwice(a: History, b: History, c: History, more: seq<Worker.Request>, last: seq<Worker.Request>)
    requires Sends(a, b, more) && Sends(b, c, last)
    ensures Sends(a, c, more + last)
  {
    Associates(a.sent, more, last);
    forall t: TurnId ensures Count(c.requested, t) == Count(a.requested, t) + Worker.Asked(more + last, t) {
      Worker.AskedConcat(more, last, t);
    }
  }

  lemma SendsNothing(a: History, b: History)
    requires b.sent == a.sent && b.received == a.received && b.returned == a.returned && b.requested == a.requested
    requires b.arrived == a.arrived
    ensures Sends(a, b, [])
  {
  }

  ghost predicate SameArrivals(a: History, b: History) {
    b.everything == a.everything && b.arrived == a.arrived && b.received == a.received && b.returned == a.returned
  }

  /** Nothing was sent, or the cancel of a turn that is cancelled with it. */
  ghost predicate OnlyCancels(tts: bool, a: History, b: History) {
    SameArrivals(a, b) &&
    ((b.sent == a.sent && b.cancelled == a.cancelled) ||
     exists t :: b.sent == a.sent + CancelRequest(tts, t) && b.cancelled == a.cancelled + {t})
  }

  lemma EffectOnlyCancels(w: World, input: Input, n: S.Session)
    ensures OnlyCancels(w.tts, w.history, EffectTo(w, input, n).history)
  {
    EffectOutcome(w, input, n);
  }

  lemma DispatchSends(w: World, input: Input) returns (more: seq<Worker.Request>)
    requires Coherent(w) && Direct(input)
    ensures Sends(w.history, Dispatch(w, input).history, more)
  {
    var n := S.Handle(w.session, input).next;
    DispatchHasEffect(w, input);
    EffectOnlyCancels(w, input, n);
    EffectKeepsCounts(w, input, n);
    var h := Dispatch(w, input).history;
    if h.sent == w.history.sent {
      more := [];
    } else {
      var t :| h.sent == w.history.sent + CancelRequest(w.tts, t);
      more := CancelRequest(w.tts, t);
    }
  }

  lemma TextSends(w: World, turn: TurnId, text: string, phrases: seq<string>) returns (more: seq<Worker.Request>)
    ensures Sends(w.history, OnText(w, turn, text, phrases).history, more)
  {
    AgentInput(StartIfNew(w, turn), AgentTextArrived(turn, text));
    if (!P.Recognises(w.playback, turn) && w.session.current != Some(turn)) || !w.tts || phrases == [] {
      more := [];
    } else {
      more := Worker.Requests(turn, phrases);
      forall t: TurnId ensures Worker.Asked(more, t) == if t == turn then |phrases| else 0 {
        Worker.AskedRequests(turn, phrases, t);
      }
    }
  }

  lemma CompleteSends(w: World, turn: TurnId, now: Instant)
    ensures Sends(w.history, OnComplete(w, turn, now).history, [])
  {
    var x := NoteComplete(w, turn);
    AgentInput(x, AgentTurnComplete(turn));
    var done := Dispatch(x, AgentTurnComplete(turn));
    AgentInput(done.(pending := done.pending - {turn}), PlaybackDrained(turn));
  }

  lemma RebuildSends(w: World) returns (more: seq<Worker.Request>)
    requires Coherent(w)
    ensures Sends(w.history, Rebuild(w).history, more)
  {
    var x := Replaced(w);
    PacingIsFree(w, 0, None, 0);
    DispatchKeepsOk(x, SessionEnd);
    var first := DispatchSends(x, SessionEnd);
    var second := DispatchSends(Dispatch(x, SessionEnd), SessionStart);
    SendsTwice(x.history, Dispatch(x, SessionEnd).history, Rebuild(w).history, first, second);
    more := first + second;
  }

  lemma FeedSends(w: World, now: Instant)
    ensures Sends(w.history, Feed(w, now).history, [])
  {
    if w.playback.live != [] || w.pushed != 0 {
      FeedShape(w, now);
    }
    SendsNothing(w.history, Feed(w, now).history);
  }

  lemma StepSends(w: World, e: Event) returns (more: seq<Worker.Request>)
    requires Coherent(w) && Enabled(w, e) && (e.Synthesized? ==> !w.tts)
    ensures Sends(w.history, Step(w, e).history, more)
  {
    more := [];
    match e {
      case External(input) => more := DispatchSends(w, input);
      case Text(turn, text, phrases) => more := TextSends(w, turn, text, phrases);
      case Complete(turn, now) => CompleteSends(w, turn, now);
      case FeedTick(now) => FeedSends(w, now);
      case Rebuilt => more := RebuildSends(w);
      case Polled(now, quiet, phrases) =>
        var p := A.Poll(w.agent, now, quiet);
        var x := w.(agent := p.agent);
        match p.event {
          case None => SendsNothing(w.history, x.history);
          case Some(TextChunk(turn, text)) => more := TextSends(x, turn, text, phrases);
          case Some(TurnComplete(turn)) => CompleteSends(x, turn, now);
        }
      case Synthesized(_, _) => SendsNothing(w.history, w.history);
      case TtsLost => SendsNothing(w.history, w.history);
      case Replied(_) => SendsNothing(w.history, w.history);
    }
  }

  lemma NextAnswer(results: seq<Worker.TtsResult>, i: nat, turn: TurnId)
    requires i < |results|
    ensures Worker.Answered(results[..i + 1], turn) ==
            Worker.Answered(results[..i], turn) + if results[i].turn == turn then 1 else 0
    ensures Worker.Answered(results[..i + 1], turn) <= Worker.Answered(results, turn)
  {
    PrefixSnoc(results, i);
    SplitAt(results, i + 1);
    Worker.AnsweredConcat(results[..i], [results[i]], turn);
    Worker.AnsweredConcat(results[..i + 1], results[i + 1..], turn);
  }

  /** A delivered result is for a request that had not been answered yet. */
  lemma DeliveryIsHonest(synth: Worker.Synthesizer, w: World, e: Event)
    requires SentFits(synth, w.history) && Delivers(synth, w, e)
    ensures Honest(w, e)
  {
    if e.Synthesized? {
      NextAnswer(Worker.Serve(synth, {}, w.history.sent), w.history.received, e.turn);
      Worker.AtMostOneAnswerEach(synth, {}, w.history.sent, e.turn);
    }
  }

  lemma DeliveryKeepsFit(synth: Worker.Synthesizer, w: World, turn: TurnId, samples: seq<Sample>)
    requires SentFits(synth, w.history) && Delivers(synth, w, Synthesized(turn, samples))
    ensures SentFits(synth, OnSynthesized(w, turn, samples).history)
  {
    var after := OnSynthesized(w, turn, samples).history;
    forall t: TurnId
      ensures Count(after.returned, t) == Worker.Answered(Worker.Serve(synth, {}, after.sent)[..after.received], t)
    {
      NextAnswer(Worker.Serve(synth, {}, w.history.sent), w.history.received, t);
    }
  }

  lemma SynthesisKeepsSource(w: World, turn: TurnId, samples: seq<Sample>)
    requires SamplesComeFromResults(w.history)
    ensures SamplesComeFromResults(OnSynthesized(w, turn, samples).history)
  {
    var after := OnSynthesized(w, turn, samples).history;
    forall t: TurnId | Count(after.returned, t) == 0 ensures Count(after.arrived, t) == 0 {
      assert t != turn && Count(w.history.returned, t) == 0;
    }
  }

  /** With the worker in the loop no result is ever unasked for. */
  lemma {:induction false} ServedRunsAreHonest(synth: Worker.Synthesizer, w: World, events: seq<Event>)
    requires Coherent(w) && Legit(w, events) && ServedRun(synth, w, events)
    requires SentFits(synth, w.history) && SamplesComeFromResults(w.history)
    ensures HonestRun(w, events) && SentFits(synth, Run(w, events).history)
    ensures SamplesComeFromResults(Run(w, events).history)
    decreases |events|
  {
    if events != [] {
      var e := events[0];
      DeliveryIsHonest(synth, w, e);
      StepKeepsOk(w, e);
      if e.Synthesized? && w.tts {
        DeliveryKeepsFit(synth, w, e.turn, e.samples);
        SynthesisKeepsSource(w, e.turn, e.samples);
      } else {
        var more := StepSends(w, e);
        SendsKeepsFit(synth, w.history, Step(w, e).history, more);
      }
      ServedRunsAreHonest(synth, Step(w, e), events[1..]);
    }
  }

  lemma BeginsFit(synth: Worker.Synthesizer, tts: bool)
    ensures SentFits(synth, Begin(tts).history) && SamplesComeFromResults(Begin(tts).history) && PendingOk(Begin(tts))
  {
    forall t: TurnId ensures TurnCounts(Begin(tts), t) {
    }
  }

  /** In every run, while the worker lives, a reply that ends normally has no phrase
      left in synthesis: as many results came back as were asked. */
  lemma NoReplyEndsWithPhrasesInSynthesis(
    synth: Worker.Synthesizer, tts: bool, events: seq<Event>, last: Event, turn: TurnId)
    requires Legit(Begin(tts), events) && ServedRun(synth, Begin(tts), events)
    requires
      var w := Run(Begin(tts), events);
      Enabled(w, last) && !last.Rebuilt? && w.tts && Speaks(w, turn) && Step(w, last).session.state == Listening
    ensures
      var w := Run(Begin(tts), events);
      Count(w.history.returned, turn) == Count(w.history.requested, turn) && EndedCleanly(w, Step(w, last), turn)
  {
    BeginsOk(tts);
    BeginsFit(synth, tts);
    ServedRunsAreHonest(synth, Begin(tts), events);
    EveryRunKeepsPending(Begin(tts), events);
    var w := Run(Begin(tts), events);
    ReplyEndsCleanly(w, last, turn);
    assert TurnCounts(w, turn);
  }
}
