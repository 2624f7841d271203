/** What is heard of a reply: the sound the synthesiser makes of the phrases of what
    the agent said, in their order. */
module SpeechTheorems {
  import opened Wrappers
  import opened SessionTypes
  import opened Sequences
  import opened Conversation
  import opened ConversationSafety
  import opened ConversationTheorems
  import opened SynthesisTheorems
  import opened WorkerTheorems
  import opened LossTheorems
  import opened Phrases
  import opened T = Text
  import S = Session
  import P = Playback
  import A = BuzzAgent
  import Worker = TtsWorker

  // ---- What the agent says ----

  /** The phrases of a text that is attributed to the turn and taken up. */
  function SaidIn(w: World, other: TurnId, phrases: seq<string>, turn: TurnId): seq<string> {
    if other == turn && w.tts && (P.Recognises(w.playback, turn) || w.session.current == Some(turn)) then phrases
    else []
  }

  /** What one step adds to what is said in a turn. */
  function Said(w: World, e: Event, turn: TurnId): seq<string> {
    match e
    case Text(other, _, phrases) => SaidIn(w, other, phrases, turn)
    case Polled(now, quiet, phrases) =>
      var event := A.Poll(w.agent, now, quiet).event;
      if event.Some? && event.value.TextChunk? then SaidIn(w, event.value.turn, phrases, turn) else []
    case _ => []
  }

  function AllSaid(w: World, events: seq<Event>, turn: TurnId): seq<string>
    decreases |events|
  {
    if events == [] then [] else Said(w, events[0], turn) + AllSaid(Step(w, events[0]), events[1..], turn)
  }

  // ---- What is sent for it ----

  ghost predicate CancelsKnown(h: History) {
    forall t: TurnId :: Worker.Cancel(t) in h.sent ==> t in h.cancelled
  }

  /** `texts` were sent for the turn, and no result came. */
  ghost predicate Adds(a: History, b: History, turn: TurnId, texts: seq<string>) {
    && a.sent <= b.sent && Worker.TextsOf(b.sent, turn) == Worker.TextsOf(a.sent, turn) + texts
    && (CancelsKnown(a) ==> CancelsKnown(b))
    && SameArrivals(a, b)
  }

  lemma AddsNothing(a: History, b: History, turn: TurnId)
    requires b.sent == a.sent && b.cancelled == a.cancelled && SameArrivals(a, b)
    ensures Adds(a, b, turn, [])
  {
    assert Worker.TextsOf(a.sent, turn) + [] == Worker.TextsOf(a.sent, turn);
  }

  lemma AddsCancel(a: History, b: History, turn: TurnId, t: TurnId, tts: bool)
    requires b.sent == a.sent + CancelRequest(tts, t) && b.cancelled == a.cancelled + {t} && SameArrivals(a, b)
    ensures Adds(a, b, turn, [])
  {
    Worker.TextsOfConcat(a.sent, CancelRequest(tts, t), turn);
    assert [Worker.Cancel(t)][1..] == [];
    assert a.sent + [] == a.sent;
    assert Worker.TextsOf(a.sent, turn) + [] == Worker.TextsOf(a.sent, turn);
  }

  lemma AddsTwice(a: History, b: History, c: History, turn: TurnId, x: seq<string>, y: seq<string>)
    requires Adds(a, b, turn, x) && Adds(b, c, turn, y)
    ensures Adds(a, c, turn, x + y)
  {
    Associates(Worker.TextsOf(a.sent, turn), x, y);
  }

  lemma DispatchAddsNothing(w: World, input: Input, turn: TurnId)
    requires Coherent(w) && Direct(input)
    ensures Adds(w.history, Dispatch(w, input).history, turn, [])
  {
    var a, b := w.history, Dispatch(w, input).history;
    DispatchHasEffect(w, input);
    EffectOnlyCancels(w, input, S.Handle(w.session, input).next);
    if b.sent == a.sent && b.cancelled == a.cancelled {
      AddsNothing(a, b, turn);
    } else {
      var t :| b.sent == a.sent + CancelRequest(w.tts, t) && b.cancelled == a.cancelled + {t};
      AddsCancel(a, b, turn, t, w.tts);
    }
  }

  lemma RebuildAddsNothing(w: World, turn: TurnId)
    requires Coherent(w)
    ensures Adds(w.history, Rebuild(w).history, turn, [])
  {
    var x := Replaced(w);
    PacingIsFree(w, 0, None, 0);
    DispatchKeepsOk(x, SessionEnd);
    DispatchAddsNothing(x, SessionEnd, turn);
    DispatchAddsNothing(Dispatch(x, SessionEnd), SessionStart, turn);
    AddsTwice(x.history, Dispatch(x, SessionEnd).history, Rebuild(w).history, turn, [], []);
  }

  lemma TextAdds(w: World, other: TurnId, text: string, phrases: seq<string>, turn: TurnId)
    ensures Adds(w.history, OnText(w, other, text, phrases).history, turn, SaidIn(w, other, phrases, turn))
  {
    var x := StartIfNew(w, other);
    AgentInput(x, AgentTextArrived(other, text));
    var a, b := w.history, OnText(w, other, text, phrases).history;
    if (!P.Recognises(w.playback, other) && w.session.current != Some(other)) || !w.tts || phrases == [] {
      AddsNothing(a, b, turn);
    } else {
      assert b.sent == a.sent + Worker.Requests(other, phrases);
      Worker.TextsOfRequests(other, phrases, turn);
      Worker.TextsOfConcat(a.sent, Worker.Requests(other, phrases), turn);
      RequestsDoNotCancel(other, phrases);
    }
  }

  lemma {:induction false} RequestsDoNotCancel(turn: TurnId, phrases: seq<string>)
    ensures forall r :: r in Worker.Requests(turn, phrases) ==> r.Synthesize?
  {
    if phrases != [] {
      RequestsDoNotCancel(turn, phrases[..|phrases| - 1]);
    }
  }

  lemma CompleteAddsNothing(w: World, other: TurnId, now: Instant, turn: TurnId)
    ensures Adds(w.history, OnComplete(w, other, now).history, turn, [])
  {
    var x := NoteComplete(w, other);
    AgentInput(x, AgentTurnComplete(other));
    var done := Dispatch(x, AgentTurnComplete(other));
    AgentInput(done.(pending := done.pending - {other}), PlaybackDrained(other));
    AddsNothing(w.history, OnComplete(w, other, now).history, turn);
  }

  lemma FeedAddsNothing(w: World, now: Instant, turn: TurnId)
    ensures Adds(w.history, Feed(w, now).history, turn, [])
  {
    if w.playback.live != [] || w.pushed != 0 {
      FeedShape(w, now);
    }
    AddsNothing(w.history, Feed(w, now).history, turn);
  }

  lemma StepAdds(w: World, e: Event, turn: TurnId)
    requires Coherent(w) && Enabled(w, e) && (e.Synthesized? ==> !w.tts)
    ensures Adds(w.history, Step(w, e).history, turn, Said(w, e, turn))
  {
    match e {
      case External(input) => DispatchAddsNothing(w, input, turn);
      case Text(other, text, phrases) => TextAdds(w, other, text, phrases, turn);
      case Complete(other, now) => CompleteAddsNothing(w, other, now, turn);
      case FeedTick(now) => FeedAddsNothing(w, now, turn);
      case Rebuilt => RebuildAddsNothing(w, turn);
      case Polled(now, quiet, phrases) =>
        var p := A.Poll(w.agent, now, quiet);
        var x := w.(agent := p.agent);
        match p.event {
          case None => AddsNothing(w.history, x.history, turn);
          case Some(TextChunk(other, text)) => TextAdds(x, other, text, phrases, turn);
          case Some(TurnComplete(other)) => CompleteAddsNothing(x, other, now, turn);
        }
      case Synthesized(_, _) => AddsNothing(w.history, w.history, turn);
      case TtsLost => AddsNothing(w.history, w.history, turn);
      case Replied(_) => AddsNothing(w.history, w.history, turn);
    }
  }

  // ---- What comes back ----

  /** The sound that the results so far hold for a turn. */
  function Sound(synth: Worker.Synthesizer, h: History, turn: TurnId): seq<real> {
    var results := Worker.Serve(synth, {}, h.sent);
    if h.received <= |results| then Worker.SamplesOf(results[..h.received], turn) else []
  }

  predicate Sounds(sound: seq<real>, s: Sample) {
    s.index < |sound| && s.level == sound[s.index]
  }

  /** Every sample that arrived is the one of its place in that sound, and nothing
      else arrived. */
  ghost predicate Sourced(synth: Worker.Synthesizer, h: History) {
    && h.received <= |Worker.Serve(synth, {}, h.sent)|
    && (forall t: TurnId :: Count(h.arrived, t) == |Sound(synth, h, t)|)
    && (forall s: Sample :: s in h.everything ==> Sounds(Sound(synth, h, s.turn), s))
  }

  lemma AddsKeepsSource(synth: Worker.Synthesizer, a: History, b: History, turn: TurnId, texts: seq<string>)
    requires Sourced(synth, a) && Adds(a, b, turn, texts)
    ensures Sourced(synth, b) && forall t: TurnId :: Sound(synth, b, t) == Sound(synth, a, t)
  {
    SplitAt(b.sent, |a.sent|);
    assert a.sent + b.sent[|a.sent|..] == b.sent;
    Worker.ServeMore(synth, {}, a.sent, b.sent[|a.sent|..]);
    PrefixOfPrefix(Worker.Serve(synth, {}, a.sent), Worker.Serve(synth, {}, b.sent), a.received);
    forall t: TurnId ensures Sound(synth, b, t) == Sound(synth, a, t) {
    }
  }

  lemma {:induction false} LevelsAre(samples: seq<Sample>)
    ensures |Levels(samples)| == |samples|
    ensures forall k :: 0 <= k < |samples| ==> Levels(samples)[k] == samples[k].level
  {
    if samples != [] {
      LevelsAre(samples[..|samples| - 1]);
    }
  }

  /** One result more. */
  lemma SoundGrows(synth: Worker.Synthesizer, w: World, turn: TurnId, samples: seq<Sample>, t: TurnId)
    requires w.history.received <= |Worker.Serve(synth, {}, w.history.sent)|
    requires Delivers(synth, w, Synthesized(turn, samples))
    ensures Sound(synth, OnSynthesized(w, turn, samples).history, t) ==
            Sound(synth, w.history, t) + if t == turn then Levels(samples) else []
  {
    var results, n := Worker.Serve(synth, {}, w.history.sent), w.history.received;
    PrefixSnoc(results, n);
    Worker.SamplesOfConcat(results[..n], [results[n]], t);
    assert [results[n]][1..] == [];
  }

  lemma DeliveryKeepsSource(synth: Worker.Synthesizer, w: World, turn: TurnId, samples: seq<Sample>)
    requires Sourced(synth, w.history) && Delivers(synth, w, Synthesized(turn, samples))
    requires Stamped(samples, turn, Count(w.history.arrived, turn))
    ensures Sourced(synth, OnSynthesized(w, turn, samples).history)
  {
    var a, b := w.history, OnSynthesized(w, turn, samples).history;
    LevelsAre(samples);
    forall t: TurnId ensures Count(b.arrived, t) == |Sound(synth, b, t)| {
      SoundGrows(synth, w, turn, samples, t);
    }
    forall s: Sample | s in b.everything ensures Sounds(Sound(synth, b, s.turn), s) {
      SoundGrows(synth, w, turn, samples, s.turn);
      SampleSounds(Sound(synth, a, s.turn), s, turn, samples);
    }
  }

  lemma SampleSounds(sound: seq<real>, s: Sample, turn: TurnId, samples: seq<Sample>)
    requires Sounds(sound, s) || s in multiset(samples)
    requires Stamped(samples, turn, |sound|) || s.turn != turn
    requires forall k :: 0 <= k < |samples| ==> samples[k].turn == turn
    ensures Sounds(sound + if s.turn == turn then Levels(samples) else [], s)
  {
    LevelsAre(samples);
    if !Sounds(sound, s) {
      var k :| 0 <= k < |samples| && samples[k] == s;
      assert (sound + Levels(samples))[|sound| + k] == samples[k].level;
    }
  }

  lemma StepIsSourced(synth: Worker.Synthesizer, w: World, e: Event, turn: TurnId)
    requires Coherent(w) && Enabled(w, e) && Delivers(synth, w, e)
    requires Sourced(synth, w.history) && CancelsKnown(w.history)
    ensures
      var h := Step(w, e).history;
      && Sourced(synth, h) && CancelsKnown(h)
      && Worker.TextsOf(h.sent, turn) == Worker.TextsOf(w.history.sent, turn) + Said(w, e, turn)
  {
    if e.Synthesized? && w.tts {
      DeliveryKeepsSource(synth, w, e.turn, e.samples);
      NothingAfter(Worker.TextsOf(w.history.sent, turn));
    } else {
      StepAdds(w, e, turn);
      AddsKeepsSource(synth, w.history, Step(w, e).history, turn, Said(w, e, turn));
    }
  }

  lemma NothingAfter<T>(s: seq<T>)
    ensures s + [] == s
  {
  }

  /** Over whole runs, with the worker in the loop: what arrived is that sound, and
      what was sent for a turn is what the agent said in it. */
  lemma {:induction false} RunIsSourced(synth: Worker.Synthesizer, w: World, events: seq<Event>, turn: TurnId)
    requires Coherent(w) && Legit(w, events) && ServedRun(synth, w, events)
    requires Sourced(synth, w.history) && CancelsKnown(w.history)
    ensures
      var h := Run(w, events).history;
      && Sourced(synth, h) && CancelsKnown(h)
      && Worker.TextsOf(h.sent, turn) == Worker.TextsOf(w.history.sent, turn) + AllSaid(w, events, turn)
    decreases |events|
  {
    if events == [] {
      NothingAfter(Worker.TextsOf(w.history.sent, turn));
    } else {
      var next := Step(w, events[0]);
      StepKeepsOk(w, events[0]);
      StepIsSourced(synth, w, events[0], turn);
      RunIsSourced(synth, next, events[1..], turn);
      Associates(Worker.TextsOf(w.history.sent, turn), Said(w, events[0], turn), AllSaid(next, events[1..], turn));
    }
  }

  lemma BeginsSourced(synth: Worker.Synthesizer, tts: bool, turn: TurnId)
    ensures Sourced(synth, Begin(tts).history) && CancelsKnown(Begin(tts).history)
    ensures Worker.TextsOf(Begin(tts).history.sent, turn) == []
  {
  }

  // ---- What is heard ----

  lemma {:induction false} FedOfIsFed(fed: seq<Sample>, turn: TurnId)
    ensures forall s :: s in FedOf(fed, turn) ==> s in fed
  {
    if fed != [] {
      FedOfIsFed(fed[..|fed| - 1], turn);
    }
  }

  /** The first samples of a turn, as fed, are the beginning of its sound. */
  lemma FedIsSound(synth: Worker.Synthesizer, w: World, turn: TurnId)
    requires Coherent(w) && Sourced(synth, w.history)
    requires FirstSamples(FedOf(w.history.fed, turn), turn, Count(w.history.arrived, turn))
    ensures Levels(FedOf(w.history.fed, turn)) == Sound(synth, w.history, turn)
  {
    var q, sound := FedOf(w.history.fed, turn), Sound(synth, w.history, turn);
    LevelsAre(q);
    FedOfIsFed(w.history.fed, turn);
    assert Conserved(w.playback, w.history);
    forall k | 0 <= k < |q| ensures Levels(q)[k] == sound[k] {
      assert q[k] in q && q[k] in multiset(w.history.fed) && q[k] in w.history.everything;
      assert Sounds(sound, q[k]);
    }
  }

  /** When as many results came back for a turn as were asked, and it was never
      cancelled, its sound is what the synthesiser makes of its texts. */
  lemma SoundIsComplete(synth: Worker.Synthesizer, h: History, turn: TurnId)
    requires SentFits(synth, h) && Worker.NeverCancelled(h.sent, turn)
    requires Count(h.returned, turn) == Count(h.requested, turn)
    ensures Sound(synth, h, turn) == Worker.Voiced(synth, Worker.TextsOf(h.sent, turn))
  {
    var results := Worker.Serve(synth, {}, h.sent);
    SplitAt(results, h.received);
    Worker.AnsweredConcat(results[..h.received], results[h.received..], turn);
    Worker.AtMostOneAnswerEach(synth, {}, h.sent, turn);
    Worker.NoAnswersNoSamples(results[h.received..], turn);
    Worker.SamplesOfConcat(results[..h.received], results[h.received..], turn);
    Worker.AnswersAreVoiced(synth, {}, h.sent, turn);
  }

  lemma {:induction false} RunConcat(synth: Worker.Synthesizer, w: World, a: seq<Event>, b: seq<Event>)
    ensures Run(w, a + b) == Run(Run(w, a), b)
    ensures Legit(w, a + b) <==> Legit(w, a) && Legit(Run(w, a), b)
    ensures ServedRun(synth, w, a + b) <==> ServedRun(synth, w, a) && ServedRun(synth, Run(w, a), b)
    decreases |a|
  {
    if a == [] {
      assert a + b == b;
    } else {
      assert (a + b)[1..] == a[1..] + b;
      RunConcat(synth, Step(w, a[0]), a[1..], b);
    }
  }

  lemma RunOne(w: World, e: Event)
    ensures Run(w, [e]) == Step(w, e)
  {
    assert [e][1..] == [];
  }

  /** In every run, with the worker in the loop: a reply that nobody interrupts, from
      its first text to its normal end, is heard as what the synthesiser makes of
      exactly the phrases the agent said in it, in their order. */
  lemma ReplyIsHeardAsSaid(
    synth: Worker.Synthesizer, tts: bool, before: seq<Event>, first: Event, during: seq<Event>, last: Event,
    turn: TurnId)
    requires Legit(Begin(tts), before + [first] + during) && ServedRun(synth, Begin(tts), before + [first] + during)
    requires
      var w := Run(Begin(tts), before);
      && w.session.state == AwaitingAgent && w.session.current == Some(turn)
      && StaysSpeaking(Step(w, first), during, turn)
    requires
      var w := Run(Begin(tts), before + [first] + during);
      w.tts && Enabled(w, last) && !last.Rebuilt? && Step(w, last).session.state == Listening
    ensures
      var events := before + [first] + during;
      var end := Step(Run(Begin(tts), events), last);
      Levels(FedOf(end.history.fed, turn)) == Worker.Voiced(synth, AllSaid(Begin(tts), events, turn))
  {
    var events := before + [first] + during;
    var w := Run(Begin(tts), before);
    RunConcat(synth, Begin(tts), before + [first], during);
    RunConcat(synth, Begin(tts), before, [first]);
    RunOne(w, first);
    SpokenToTheEnd(synth, tts, before, first, during, last, turn);
    EndIsVoiced(synth, tts, events, last, turn);
  }

  lemma SpokenToTheEnd(
    synth: Worker.Synthesizer, tts: bool, before: seq<Event>, first: Event, during: seq<Event>, last: Event,
    turn: TurnId)
    requires Legit(Begin(tts), before) && ServedRun(synth, Begin(tts), before)
    requires
      var w := Run(Begin(tts), before);
      && w.session.state == AwaitingAgent && w.session.current == Some(turn) && Enabled(w, first)
      && Legit(Step(w, first), during) && StaysSpeaking(Step(w, first), during, turn)
    requires
      var w := Run(Step(Run(Begin(tts), before), first), during);
      Enabled(w, last) && !last.Rebuilt? && Step(w, last).session.state == Listening
    ensures
      var speaking := Run(Step(Run(Begin(tts), before), first), during);
      && Speaks(speaking, turn)
      && FirstSamples(FedOf(Step(speaking, last).history.fed, turn), turn,
                      Count(Step(speaking, last).history.arrived, turn))
  {
    var w := Run(Begin(tts), before);
    WaitingTurnIsSilent(synth, tts, before, turn);
    StepKeepsOk(w, first);
    FirstTextStarts(w, first, turn);
    SpeakingIsHeard(Step(w, first), during, turn);
    UninterruptedReplyIsHeardInFull(synth, tts, before, first, during, last, turn);
  }

  lemma SpeakingIsNotCancelled(w: World, turn: TurnId)
    requires Coherent(w) && CancelsKnown(w.history) && Speaks(w, turn)
    ensures Worker.NeverCancelled(w.history.sent, turn)
  {
  }

  /** After any run, at the normal end of a reply: all that was fed of it, if that is
      all that arrived, is what the synthesiser makes of what the agent said. */
  lemma EndIsVoiced(synth: Worker.Synthesizer, tts: bool, events: seq<Event>, last: Event, turn: TurnId)
    requires Legit(Begin(tts), events) && ServedRun(synth, Begin(tts), events)
    requires
      var w := Run(Begin(tts), events);
      && w.tts && Enabled(w, last) && !last.Rebuilt? && Speaks(w, turn) && Step(w, last).session.state == Listening
      && FirstSamples(FedOf(Step(w, last).history.fed, turn), turn, Count(Step(w, last).history.arrived, turn))
    ensures
      var end := Step(Run(Begin(tts), events), last);
      Levels(FedOf(end.history.fed, turn)) == Worker.Voiced(synth, AllSaid(Begin(tts), events, turn))
  {
    var w := Run(Begin(tts), events);
    EveryRunIsSourced(synth, tts, events, turn);
    NoReplyEndsWithPhrasesInSynthesis(synth, tts, events, last, turn);
    EndIsComplete(synth, w, last, turn);
  }

  lemma EveryRunIsSourced(synth: Worker.Synthesizer, tts: bool, events: seq<Event>, turn: TurnId)
    requires Legit(Begin(tts), events) && ServedRun(synth, Begin(tts), events)
    ensures
      var w := Run(Begin(tts), events);
      && Coherent(w) && SentFits(synth, w.history) && Sourced(synth, w.history) && CancelsKnown(w.history)
      && Worker.TextsOf(w.history.sent, turn) == AllSaid(Begin(tts), events, turn)
  {
    BeginsOk(tts);
    BeginsFit(synth, tts);
    BeginsSourced(synth, tts, turn);
    EveryRunKeepsInvariant(Begin(tts), events);
    ServedRunsAreHonest(synth, Begin(tts), events);
    RunIsSourced(synth, Begin(tts), events, turn);
    NothingBefore(AllSaid(Begin(tts), events, turn));
  }

  lemma NothingBefore<T>(s: seq<T>)
    ensures [] + s == s
  {
  }

  lemma EndIsComplete(synth: Worker.Synthesizer, w: World, last: Event, turn: TurnId)
    requires Coherent(w) && Enabled(w, last) && !last.Rebuilt? && Speaks(w, turn)
    requires SentFits(synth, w.history) && Sourced(synth, w.history) && CancelsKnown(w.history)
    requires Count(w.history.returned, turn) == Count(w.history.requested, turn)
    requires Step(w, last).session.state == Listening
    requires FirstSamples(FedOf(Step(w, last).history.fed, turn), turn, Count(Step(w, last).history.arrived, turn))
    ensures Levels(FedOf(Step(w, last).history.fed, turn)) ==
            Worker.Voiced(synth, Worker.TextsOf(w.history.sent, turn))
  {
    SpeakingIsNotCancelled(w, turn);
    SoundIsComplete(synth, w.history, turn);
    EndIsFed(synth, w, last, turn);
  }

  lemma EndIsFed(synth: Worker.Synthesizer, w: World, last: Event, turn: TurnId)
    requires Coherent(w) && Enabled(w, last) && !last.Rebuilt? && Speaks(w, turn) && Sourced(synth, w.history)
    requires Step(w, last).session.state == Listening
    requires FirstSamples(FedOf(Step(w, last).history.fed, turn), turn, Count(Step(w, last).history.arrived, turn))
    ensures Levels(FedOf(Step(w, last).history.fed, turn)) == Sound(synth, w.history, turn)
  {
    var end := Step(w, last);
    ReplyEndsCleanly(w, last, turn);
    StepAdds(w, last, turn);
    AddsKeepsSource(synth, w.history, end.history, turn, Said(w, last, turn));
    StepKeepsOk(w, last);
    FedIsSound(synth, end, turn);
  }

  // ---- What the agent's texts become ----

  /** The text that a step attributes to the turn, if it is taken up. */
  function TextOf(w: World, e: Event, turn: TurnId): seq<string> {
    match e
    case Text(other, text, _) => SaidIn(w, other, [text], turn)
    case Polled(now, quiet, _) =>
      var event := A.Poll(w.agent, now, quiet).event;
      if event.Some? && event.value.TextChunk? then SaidIn(w, event.value.turn, [event.value.text], turn) else []
    case _ => []
  }

  function AllTexts(w: World, events: seq<Event>, turn: TurnId): seq<string>
    decreases |events|
  {
    if events == [] then [] else TextOf(w, events[0], turn) + AllTexts(Step(w, events[0]), events[1..], turn)
  }

  /** Every text comes with its phrases. */
  ghost predicate Cut(w: World, e: Event) {
    match e
    case Text(_, text, phrases) => ArePhrases(text, phrases)
    case Polled(now, quiet, phrases) =>
      var event := A.Poll(w.agent, now, quiet).event;
      event.Some? && event.value.TextChunk? ==> ArePhrases(event.value.text, phrases)
    case _ => true
  }

  ghost predicate CutRun(w: World, events: seq<Event>)
    decreases |events|
  {
    events == [] || (Cut(w, events[0]) && CutRun(Step(w, events[0]), events[1..]))
  }

  lemma PhrasesOfOne(text: string, phrases: seq<string>)
    requires ArePhrases(text, phrases)
    ensures Ink(Concat(phrases)) == Ink(Concat([text]))
  {
    PhrasesKeepInk(text, phrases);
    ConcatOfOne(text);
  }

  lemma StepKeepsInk(w: World, e: Event, turn: TurnId)
    requires Cut(w, e)
    ensures Ink(Concat(Said(w, e, turn))) == Ink(Concat(TextOf(w, e, turn)))
  {
    match e {
      case Text(_, text, phrases) => PhrasesOfOne(text, phrases);
      case Polled(now, quiet, phrases) =>
        match A.Poll(w.agent, now, quiet).event {
          case Some(TextChunk(_, text)) => PhrasesOfOne(text, phrases);
          case _ =>
        }
      case _ =>
    }
  }

  /** Over every run, the phrases said in a turn hold every visible character of the
      texts the agent sent for it, in order, and nothing else. */
  lemma {:induction false} NothingSaidIsLost(w: World, events: seq<Event>, turn: TurnId)
    requires CutRun(w, events)
    ensures Ink(Concat(AllSaid(w, events, turn))) == Ink(Concat(AllTexts(w, events, turn)))
    decreases |events|
  {
    if events != [] {
      var next, e := Step(w, events[0]), events[0];
      StepKeepsInk(w, e, turn);
      NothingSaidIsLost(next, events[1..], turn);
      InkOfBoth(Said(w, e, turn), AllSaid(next, events[1..], turn));
      InkOfBoth(TextOf(w, e, turn), AllTexts(next, events[1..], turn));
    }
  }

  lemma InkOfBoth(a: seq<string>, b: seq<string>)
    ensures Ink(Concat(a + b)) == Ink(Concat(a)) + Ink(Concat(b))
  {
    ConcatAppend(a, b);
    InkConcat(Concat(a), Concat(b));
  }
}
