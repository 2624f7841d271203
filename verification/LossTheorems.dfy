/** Which samples are discarded, in every step and over whole runs, and that a
    reply nobody interrupts is heard in full. */
module LossTheorems {
  import opened Wrappers
  import opened SessionTypes
  import opened Sequences
  import opened Conversation
  import opened ConversationSafety
  import opened ConversationTheorems
  import opened SynthesisTheorems
  import opened WorkerTheorems
  import S = Session
  import P = Playback
  import A = BuzzAgent
  import Worker = TtsWorker
  import Safety = SessionSafety

  // ---- The only losses ----

  function Queued(w: World): multiset<Sample> {
    multiset(w.playback.live) + multiset(PausedQueue(w.playback))
  }

  predicate Cancels(outs: seq<Output>) {
    exists k :: 0 <= k < |outs| && outs[k].CancelSynthesis?
  }

  /** What the machine's outputs discard: everything queued at a cancel, and what
      was live at a barge-in. */
  function DroppedBy(w: World, outs: seq<Output>): multiset<Sample> {
    if Cancels(outs) then Queued(w) else if CancelPlayback in outs then multiset(w.playback.live) else multiset{}
  }

  /** What ending the session discards. */
  function QueuedIfSpeaking(w: World): multiset<Sample> {
    if Speaker(w.session).Some? then Queued(w) else multiset{}
  }

  /** What the first text of a new turn displaces. */
  function Displaced(w: World, turn: TurnId): multiset<Sample> {
    if w.session.current == Some(turn) && !P.Recognises(w.playback, turn) then multiset(w.playback.live) else multiset{}
  }

  /** Everything one step discards. */
  function Discarded(w: World, e: Event): multiset<Sample> {
    match e
    case External(input) => DroppedBy(w, S.Handle(w.session, input).outputs)
    case Rebuilt => QueuedIfSpeaking(w)
    case Text(turn, _, _) => Displaced(w, turn)
    case Polled(now, quiet, _) =>
      var event := A.Poll(w.agent, now, quiet).event;
      if event.Some? && event.value.TextChunk? then Displaced(w, event.value.turn) else multiset{}
    case Synthesized(turn, samples) =>
      if w.tts && !P.Recognises(w.playback, turn) then multiset(samples) else multiset{}
    case Complete(_, _) | TtsLost | FeedTick(_) | Replied(_) => multiset{}
  }

  /** The outputs of a direct input tell what becomes of the speaking turn. */
  lemma OutputsTell(s: S.Session, input: Input)
    requires Safety.Good(s) && s.state != Submitting && Direct(input)
    ensures
      var r := S.Handle(s, input);
      var n := r.next.state;
      && (Cancels(r.outputs) <==> Speaker(s).Some? && (n == Idle || n == UserSpeaking || n == Submitting))
      && (!Cancels(r.outputs) && CancelPlayback in r.outputs <==> s.state == AgentSpeaking && n == Interrupting)
  {
    var outs := S.Handle(s, input).outputs;
    match input {
      case SessionEnd | StopRequested => EndTells(s);
      case PushToTalkPressed => PttTells(s);
      case PartialTranscript(turn, text) =>
        if !Plain(s, input) {
          ProofShape(s, turn, text);
          assert outs[0] == CancelSynthesis(s.parked.value);
        }
      case FinalTranscript(turn, text) =>
        FinalShape(s, turn, text);
        if s.current == Some(turn) && s.state == Interrupting {
          assert outs[0] == CancelSynthesis(s.parked.value);
        }
      case BargeInConfirmed =>
        if s.state == AgentSpeaking {
          BargeShape(s);
          assert outs[0] == CancelPlayback;
        }
      case Tick(dt) =>
        if !Plain(s, input) {
          ResumeShape(s, dt);
        }
      case _ =>
    }
  }

  lemma EndTells(s: S.Session)
    requires Safety.Good(s)
    ensures Cancels(S.Handle(s, SessionEnd).outputs) <==> Speaker(s).Some?
    ensures Speaker(s).None? ==> CancelPlayback !in S.Handle(s, SessionEnd).outputs
  {
    if s.state != Idle {
      EndShape(s);
      var outs := S.Handle(s, SessionEnd).outputs;
      if Speaker(s).Some? {
        assert outs[2] == CancelSynthesis(Speaker(s).value);
      }
    }
  }

  lemma PttTells(s: S.Session)
    requires Safety.Good(s) && s.state != Submitting
    ensures Cancels(S.Handle(s, PushToTalkPressed).outputs) <==> Speaker(s).Some?
    ensures Speaker(s).None? ==> CancelPlayback !in S.Handle(s, PushToTalkPressed).outputs
  {
    var outs := S.Handle(s, PushToTalkPressed).outputs;
    if s.state != Idle && s.state != UserSpeaking {
      PttShape(s);
      if s.state == AgentSpeaking {
        assert outs[2] == CancelSynthesis(Speaker(s).value);
      } else if s.state == Interrupting {
        assert outs[0] == CancelSynthesis(Speaker(s).value);
      }
    }
  }

  lemma EffectLoses(w: World, input: Input, n: S.Session)
    requires Safety.Good(w.session) && Lockstep(w.session, w.playback) && Moves(w.session, input, n)
    ensures
      var speaker, x := Speaker(w.session), EffectTo(w, input, n);
      x.history.lost == w.history.lost +
        if speaker.Some? && (n.state == Idle || n.state == UserSpeaking || n.state == Submitting) then Queued(w)
        else if w.session.state == AgentSpeaking && n.state == Interrupting then multiset(w.playback.live)
        else multiset{}
  {
    if n.state == Submitting {
      EffectIsSubmission(w, input, n);
    }
  }

  lemma DirectLoses(w: World, input: Input)
    requires Coherent(w) && Direct(input)
    ensures Dispatch(w, input).history.lost == w.history.lost + DroppedBy(w, S.Handle(w.session, input).outputs)
  {
    DispatchHasEffect(w, input);
    DirectMoves(w.session, input);
    OutputsTell(w.session, input);
    EffectLoses(w, input, S.Handle(w.session, input).next);
  }

  lemma StartingLosesNothing(w: World)
    requires Coherent(w) && w.session.state == Idle
    ensures Dispatch(w, SessionStart).history.lost == w.history.lost
  {
    DirectLoses(w, SessionStart);
    OutputsTell(w.session, SessionStart);
  }

  lemma EndingLoses(w: World)
    requires Coherent(w)
    ensures Dispatch(w, SessionEnd).history.lost == w.history.lost + QueuedIfSpeaking(w)
  {
    DispatchHasEffect(w, SessionEnd);
    DirectMoves(w.session, SessionEnd);
    EffectLoses(w, SessionEnd, S.Handle(w.session, SessionEnd).next);
  }

  lemma RebuildLoses(w: World)
    requires Coherent(w)
    ensures Rebuild(w).history.lost == w.history.lost + QueuedIfSpeaking(w)
  {
    var x := Replaced(w);
    assert Coherent(x) by {
      PacingIsFree(w, 0, None, 0);
    }
    EndingLoses(x);
    EndGoesIdle(x);
    StartingLosesNothing(Dispatch(x, SessionEnd));
  }

  lemma TextLoses(w: World, turn: TurnId, text: string, phrases: seq<string>)
    ensures OnText(w, turn, text, phrases).history.lost == w.history.lost + Displaced(w, turn)
  {
    AgentInput(StartIfNew(w, turn), AgentTextArrived(turn, text));
  }

  lemma SynthesisLoses(w: World, turn: TurnId, samples: seq<Sample>)
    requires Coherent(w) && w.tts
    ensures OnSynthesized(w, turn, samples).history.lost == w.history.lost + Discarded(w, Synthesized(turn, samples))
  {
  }

  /** The only losses, step by step: what is queued at a cancel, what is live at a
      barge-in or displaced by another turn's first text, and what arrives for a
      turn that is neither live nor on hold. */
  lemma StepLoses(w: World, e: Event)
    requires Coherent(w) && Enabled(w, e)
    ensures Step(w, e).history.lost == w.history.lost + Discarded(w, e)
  {
    match e {
      case External(input) => DirectLoses(w, input);
      case Text(turn, text, phrases) => TextLoses(w, turn, text, phrases);
      case Complete(turn, now) => CompleteLosesNothing(w, turn, now);
      case FeedTick(now) => FeedLosesNothing(w, now);
      case Rebuilt => RebuildLoses(w);
      case Polled(now, quiet, phrases) =>
        var p := A.Poll(w.agent, now, quiet);
        var x := w.(agent := p.agent);
        match p.event {
          case None =>
          case Some(TextChunk(turn, text)) => TextLoses(x, turn, text, phrases);
          case Some(TurnComplete(turn)) => CompleteLosesNothing(x, turn, now);
        }
      case Synthesized(turn, samples) =>
        if w.tts {
          SynthesisLoses(w, turn, samples);
        }
      case TtsLost =>
      case Replied(_) =>
    }
  }

  function AllDiscarded(w: World, events: seq<Event>): multiset<Sample>
    decreases |events|
  {
    if events == [] then multiset{} else Discarded(w, events[0]) + AllDiscarded(Step(w, events[0]), events[1..])
  }

  /** Over a whole run, every sample that arrived was fed, is queued, or was one of
      those losses: each exactly once. */
  lemma EverySampleIsAccountedFor(tts: bool, events: seq<Event>)
    requires Legit(Begin(tts), events)
    ensures
      var w := Run(Begin(tts), events);
      w.history.everything == multiset(w.history.fed) + Queued(w) + AllDiscarded(Begin(tts), events)
  {
    BeginsOk(tts);
    EveryRunKeepsInvariant(Begin(tts), events);
    RunLoses(Begin(tts), events);
    assert Conserved(Run(Begin(tts), events).playback, Run(Begin(tts), events).history);
  }

  lemma {:induction false} RunLoses(w: World, events: seq<Event>)
    requires Coherent(w) && Legit(w, events)
    ensures Run(w, events).history.lost == w.history.lost + AllDiscarded(w, events)
    decreases |events|
  {
    if events != [] {
      StepKeepsOk(w, events[0]);
      StepLoses(w, events[0]);
      RunLoses(Step(w, events[0]), events[1..]);
    }
  }

  // ---- A reply that is not interrupted is heard in full ----

  /** The samples of one turn among those fed, in order. */
  function FedOf(fed: seq<Sample>, turn: TurnId): seq<Sample> {
    if fed == [] then []
    else
      var last := fed[|fed| - 1];
      FedOf(fed[..|fed| - 1], turn) + if last.turn == turn then [last] else []
  }

  lemma FedOfSnoc(fed: seq<Sample>, last: Sample, turn: TurnId)
    ensures FedOf(fed + [last], turn) == FedOf(fed, turn) + if last.turn == turn then [last] else []
  {
    PrefixOfSnoc(fed, last, |fed|);
    WholePrefix(fed);
  }

  lemma {:induction false} FedOfMore(fed: seq<Sample>, chunk: seq<Sample>, turn: TurnId)
    requires forall k :: 0 <= k < |chunk| ==> chunk[k].turn == turn
    ensures FedOf(fed + chunk, turn) == FedOf(fed, turn) + chunk
  {
    if chunk == [] {
      assert fed + chunk == fed;
    } else {
      var before, last := chunk[..|chunk| - 1], chunk[|chunk| - 1];
      FedOfMore(fed, before, turn);
      WithoutLast(chunk);
      Associates(fed, before, [last]);
      FedOfSnoc(fed + before, last, turn);
      Associates(FedOf(fed, turn), before, [last]);
    }
  }

  lemma {:induction false} FedOfNone(fed: seq<Sample>, turn: TurnId)
    requires forall k :: 0 <= k < |fed| ==> fed[k].turn != turn
    ensures FedOf(fed, turn) == []
  {
    if fed != [] {
      FedOfNone(fed[..|fed| - 1], turn);
    }
  }

  /** Exactly the first `n` samples of a turn, each once and in order. */
  ghost predicate FirstSamples(q: seq<Sample>, turn: TurnId, n: nat) {
    |q| == n && forall k :: 0 <= k < n ==> q[k].turn == turn && q[k].index == k
  }

  /** All of a turn's samples that are not still queued have been fed. */
  ghost predicate HeardSoFar(w: World, turn: TurnId) {
    && w.playback.liveTurn == Some(turn) && w.playback.paused.None?
    && Tail(w.playback.live, turn, w.history.arrived)
    && FirstSamples(FedOf(w.history.fed, turn), turn, Count(w.history.arrived, turn) - |w.playback.live|)
  }

  ghost predicate SameQueues(a: World, b: World) {
    b.playback == a.playback && b.history.arrived == a.history.arrived && b.history.fed == a.history.fed
  }

  lemma DirectKeepsQueues(w: World, input: Input, turn: TurnId)
    requires Coherent(w) && Direct(input) && Speaks(w, turn)
    requires Speaks(Dispatch(w, input), turn) || Dispatch(w, input).session.state == Listening
    ensures SameQueues(w, Dispatch(w, input))
  {
    DispatchHasEffect(w, input);
    DirectMoves(w.session, input);
  }

  lemma TextKeepsQueues(w: World, turn: TurnId, other: TurnId, text: string, phrases: seq<string>)
    requires Coherent(w) && Speaks(w, turn)
    ensures SameQueues(w, OnText(w, other, text, phrases))
  {
    AgentInput(w, AgentTextArrived(other, text));
  }

  lemma CompleteKeepsQueues(w: World, turn: TurnId, now: Instant)
    ensures SameQueues(w, OnComplete(w, turn, now))
  {
    var x := NoteComplete(w, turn);
    AgentInput(x, AgentTurnComplete(turn));
    var done := Dispatch(x, AgentTurnComplete(turn));
    AgentInput(done.(pending := done.pending - {turn}), PlaybackDrained(turn));
  }

  lemma TakingIsHeard(live: seq<Sample>, n: nat, fed: seq<Sample>, turn: TurnId, arrived: map<TurnId, nat>)
    requires n <= |live| && Tail(live, turn, arrived)
    requires FirstSamples(FedOf(fed, turn), turn, Count(arrived, turn) - |live|)
    ensures Tail(live[n..], turn, arrived)
    ensures FirstSamples(FedOf(fed + live[..n], turn), turn, Count(arrived, turn) - |live[n..]|)
  {
    FedOfMore(fed, live[..n], turn);
  }

  lemma TopUpIsHeard(w: World, resident: nat, now: Instant, turn: TurnId)
    requires HeardSoFar(w, turn)
    ensures HeardSoFar(TopUp(w, resident, now), turn)
  {
    var n := |Chunk(w, resident)|;
    assert Chunk(w, resident) == w.playback.live[..n];
    TakingIsHeard(w.playback.live, n, w.history.fed, turn, w.history.arrived);
  }

  lemma FeedIsHeard(w: World, now: Instant, turn: TurnId)
    requires HeardSoFar(w, turn)
    ensures HeardSoFar(Feed(w, now), turn)
  {
    if w.playback.live != [] || w.pushed != 0 {
      FeedShape(w, now);
      TopUpIsHeard(Anchored(w, now), Resident(Anchored(w, now), now), now, turn);
    }
  }

  lemma SynthesisIsHeard(w: World, other: TurnId, samples: seq<Sample>, turn: TurnId)
    requires HeardSoFar(w, turn) && turn !in w.playback.abandoned
    requires Stamped(samples, other, Count(w.history.arrived, other))
    ensures HeardSoFar(OnSynthesized(w, other, samples), turn)
  {
    if other == turn {
      TailGrows(w.playback.live, turn, w.history.arrived, samples);
    }
  }

  lemma StepIsHeard(w: World, e: Event, turn: TurnId)
    requires Coherent(w) && Enabled(w, e) && Speaks(w, turn) && HeardSoFar(w, turn)
    requires Speaks(Step(w, e), turn) || (Step(w, e).session.state == Listening && !e.Rebuilt?)
    ensures HeardSoFar(Step(w, e), turn)
  {
    match e {
      case External(input) => DirectKeepsQueues(w, input, turn);
      case Text(other, text, phrases) => TextKeepsQueues(w, turn, other, text, phrases);
      case Complete(other, now) => CompleteKeepsQueues(w, other, now);
      case FeedTick(now) => FeedIsHeard(w, now, turn);
      case Rebuilt => RebuildListens(w);
      case Polled(now, quiet, phrases) =>
        var p := A.Poll(w.agent, now, quiet);
        var x := w.(agent := p.agent);
        match p.event {
          case None =>
          case Some(TextChunk(other, text)) => TextKeepsQueues(x, turn, other, text, phrases);
          case Some(TurnComplete(other)) => CompleteKeepsQueues(x, other, now);
        }
      case Synthesized(other, samples) =>
        if w.tts {
          SynthesisIsHeard(w, other, samples, turn);
        }
      case TtsLost =>
      case Replied(_) =>
    }
  }

  lemma {:induction false} SpeakingIsHeard(w: World, events: seq<Event>, turn: TurnId)
    requires Coherent(w) && Legit(w, events) && StaysSpeaking(w, events, turn) && HeardSoFar(w, turn)
    ensures Coherent(Run(w, events)) && Speaks(Run(w, events), turn) && HeardSoFar(Run(w, events), turn)
    decreases |events|
  {
    if events != [] {
      StepKeepsOk(w, events[0]);
      StepIsHeard(w, events[0], turn);
      SpeakingIsHeard(Step(w, events[0]), events[1..], turn);
    }
  }

  /** Only its first text makes a waiting turn speak, and it starts with nothing. */
  lemma FirstTextStarts(w: World, e: Event, turn: TurnId)
    requires Coherent(w) && Enabled(w, e)
    requires w.session.state == AwaitingAgent && w.session.current == Some(turn) && Speaks(Step(w, e), turn)
    ensures e.Text? || e.Polled?
    ensures Step(w, e).playback == P.Start(w.playback, turn)
    ensures Step(w, e).history.arrived == w.history.arrived && Step(w, e).history.fed == w.history.fed
  {
    match e {
      case External(input) =>
        DispatchHasEffect(w, input);
        DirectMoves(w.session, input);
      case Text(other, text, phrases) => AgentInput(StartIfNew(w, other), AgentTextArrived(other, text));
      case Complete(other, now) => CompleteNeverSpeaks(w, other, now);
      case FeedTick(now) => FeedNeverSpeaks(w, now);
      case Rebuilt => RebuildListens(w);
      case Polled(now, quiet, phrases) =>
        var p := A.Poll(w.agent, now, quiet);
        var x := w.(agent := p.agent);
        match p.event {
          case None =>
          case Some(TextChunk(other, text)) => AgentInput(StartIfNew(x, other), AgentTextArrived(other, text));
          case Some(TurnComplete(other)) => CompleteNeverSpeaks(x, other, now);
        }
      case _ =>
    }
  }

  lemma CompleteNeverSpeaks(w: World, turn: TurnId, now: Instant)
    requires w.session.state == AwaitingAgent
    ensures OnComplete(w, turn, now).session.state != AgentSpeaking
  {
    var x := NoteComplete(w, turn);
    AgentInput(x, AgentTurnComplete(turn));
    var done := Dispatch(x, AgentTurnComplete(turn));
    AgentInput(done.(pending := done.pending - {turn}), PlaybackDrained(turn));
  }

  lemma FeedNeverSpeaks(w: World, now: Instant)
    requires w.session.state == AwaitingAgent
    ensures Feed(w, now).session.state != AgentSpeaking
  {
    if w.playback.live != [] || w.pushed != 0 {
      FeedShape(w, now);
    }
  }

  /** Before its first text a turn has no samples. */
  lemma WaitingTurnIsSilent(synth: Worker.Synthesizer, tts: bool, before: seq<Event>, turn: TurnId)
    requires Legit(Begin(tts), before) && ServedRun(synth, Begin(tts), before)
    requires
      var w := Run(Begin(tts), before);
      w.session.state == AwaitingAgent && w.session.current == Some(turn)
    ensures
      var w := Run(Begin(tts), before);
      Coherent(w) && Count(w.history.arrived, turn) == 0 && FedOf(w.history.fed, turn) == []
  {
    BeginsOk(tts);
    BeginsFit(synth, tts);
    ServedRunsAreHonest(synth, Begin(tts), before);
    EveryRunKeepsPending(Begin(tts), before);
    var w := Run(Begin(tts), before);
    assert TurnCounts(w, turn);
    forall k | 0 <= k < |w.history.fed| ensures w.history.fed[k].turn != turn {
      assert w.history.fed[k].index < Frontier(w.playback, w.history.arrived, w.history.fed[k].turn);
    }
    FedOfNone(w.history.fed, turn);
  }

  /** In every run, a reply that nobody interrupts, from its first text to its
      normal end, is heard in full: the samples fed for it are all that arrived for
      it, each once and in order. */
  lemma UninterruptedReplyIsHeardInFull(
    synth: Worker.Synthesizer, tts: bool, before: seq<Event>, first: Event, during: seq<Event>, last: Event,
    turn: TurnId)
    requires Legit(Begin(tts), before) && ServedRun(synth, Begin(tts), before)
    requires
      var w := Run(Begin(tts), before);
      && w.session.state == AwaitingAgent && w.session.current == Some(turn) && Enabled(w, first)
      && Legit(Step(w, first), during) && StaysSpeaking(Step(w, first), during, turn)
    requires
      var w := Run(Step(Run(Begin(tts), before), first), during);
      Enabled(w, last) && !last.Rebuilt? && Step(w, last).session.state == Listening
    ensures
      var end := Step(Run(Step(Run(Begin(tts), before), first), during), last);
      FirstSamples(FedOf(end.history.fed, turn), turn, Count(end.history.arrived, turn))
  {
    var w := Run(Begin(tts), before);
    WaitingTurnIsSilent(synth, tts, before, turn);
    StepKeepsOk(w, first);
    FirstTextStarts(w, first, turn);
    var speaking := Run(Step(w, first), during);
    SpeakingIsHeard(Step(w, first), during, turn);
    StepIsHeard(speaking, last, turn);
    ReplyEndsCleanly(speaking, last, turn);
  }
}
