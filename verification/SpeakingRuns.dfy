/** Concrete runs in which turn 1 speaks, built up event by event, with the worker
    in the loop and every text cut into its phrases. */
module SpeakingRuns {
  import opened Wrappers
  import opened SessionTypes
  import opened Sequences
  import opened Arithmetic
  import opened Conversation
  import opened ConversationSafety
  import opened ConversationTheorems
  import opened SynthesisTheorems
  import opened WorkerTheorems
  import opened Phrases
  import opened WitnessTexts
  import opened PlayoutTheorems
  import opened LoopOrder
  import S = Session
  import P = Playback
  import A = BuzzAgent
  import Worker = TtsWorker

  // ---- A first question, asked and submitted ----

  const ASKING: seq<Event> :=
    [External(SessionStart), External(PushToTalkPressed), External(PushToTalkReleased), External(Tick(0)),
     External(FinalTranscript(1, "hi"))]

  const STARTED := Begin(true).(session := S.INITIAL.(state := Listening), capturing := true)
  const PRESSED := STARTED.(session := STARTED.session.(state := UserSpeaking, counter := 1, current := Some(1)))
  const RELEASED := PRESSED.(session := PRESSED.session.(state := Finalizing))
  const ASKED := RELEASED.(
    session := RELEASED.session.(state := AwaitingAgent),
    agent := A.Submit(A.NEW_AGENT, 1, "hi"),
    history := NO_HISTORY.(submitted := {1}))

  lemma QuietStep(w: World, input: Input, outs: seq<Output>)
    requires S.Handle(w.session, input).outputs == outs && |outs| <= 2
    requires forall k :: 0 <= k < |outs| ==> Quiet(outs[k])
    ensures Dispatch(w, input) ==
      w.(session := S.Handle(w.session, input).next, capturing := Capturing(w.capturing, outs))
  {
    ActQuiet(w.(session := S.Handle(w.session, input).next), outs);
  }

  lemma Starts()
    ensures Step(Begin(true), ASKING[0]) == STARTED
  {
    var outs := [StartCapture, EmitState(Listening)];
    QuietStep(Begin(true), SessionStart, outs);
    CapturingFew(false, outs);
  }

  lemma Presses()
    ensures Step(STARTED, ASKING[1]) == PRESSED
  {
    QuietStep(STARTED, PushToTalkPressed, [EmitState(UserSpeaking)]);
    CapturingFew(true, [EmitState(UserSpeaking)]);
  }

  lemma Releases()
    ensures Step(PRESSED, ASKING[2]) == RELEASED
  {
    QuietStep(PRESSED, PushToTalkReleased, [EmitState(Finalizing)]);
    CapturingFew(true, [EmitState(Finalizing)]);
  }

  lemma Waits()
    ensures Step(RELEASED, ASKING[3]) == RELEASED
  {
    QuietStep(RELEASED, Tick(0), []);
  }

  lemma Asks()
    ensures Step(RELEASED, ASKING[4]) == ASKED
  {
    var r := S.Handle(RELEASED.session, FinalTranscript(1, "hi"));
    var x := RELEASED.(session := r.next);
    assert r.outputs == [SubmitUtterance(1, "hi")] + [EmitState(Submitting)];
    ActHeadTail(x, [SubmitUtterance(1, "hi")], [EmitState(Submitting)]);
    ActSubmit(x, 1, "hi");
    CapturingFew(true, [EmitState(Submitting)]);
  }

  lemma {:induction false} RunSnoc(w: World, events: seq<Event>, last: Event)
    ensures Run(w, events + [last]) == Step(Run(w, events), last)
    ensures Legit(w, events + [last]) <==> Legit(w, events) && Enabled(Run(w, events), last)
    decreases |events|
  {
    if events == [] {
      assert [last][1..] == [];
    } else {
      assert (events + [last])[1..] == events[1..] + [last];
      RunSnoc(Step(w, events[0]), events[1..], last);
    }
  }

  /** The run is allowed and leads to `w`. */
  ghost predicate Reaches(events: seq<Event>, w: World) {
    Legit(Begin(true), events) && Run(Begin(true), events) == w
  }

  lemma OneMore(events: seq<Event>, w: World, e: Event, next: World)
    requires Reaches(events, w) && Enabled(w, e) && Step(w, e) == next
    ensures Reaches(events + [e], next)
  {
    RunSnoc(Begin(true), events, e);
  }

  lemma ReachesStarted()
    ensures Reaches([ASKING[0]], STARTED)
  {
    Starts();
    OneMore([], Begin(true), ASKING[0], STARTED);
    assert [] + [ASKING[0]] == [ASKING[0]];
  }

  lemma ReachesPressed()
    ensures Reaches([ASKING[0]] + [ASKING[1]], PRESSED)
  {
    ReachesStarted();
    Presses();
    OneMore([ASKING[0]], STARTED, ASKING[1], PRESSED);
  }

  lemma ReachesReleased()
    ensures Reaches([ASKING[0]] + [ASKING[1]] + [ASKING[2]], RELEASED)
  {
    ReachesPressed();
    Releases();
    OneMore([ASKING[0]] + [ASKING[1]], PRESSED, ASKING[2], RELEASED);
  }

  lemma ReachesTicked()
    ensures Reaches([ASKING[0]] + [ASKING[1]] + [ASKING[2]] + [ASKING[3]], RELEASED)
  {
    ReachesReleased();
    Waits();
    OneMore([ASKING[0]] + [ASKING[1]] + [ASKING[2]], RELEASED, ASKING[3], RELEASED);
  }

  lemma ReachesAsked()
    ensures Reaches(ASKING, ASKED)
  {
    ReachesTicked();
    Asks();
    OneMore([ASKING[0]] + [ASKING[1]] + [ASKING[2]] + [ASKING[3]], RELEASED, ASKING[4], ASKED);
    AskingIs();
  }

  lemma AskingIs()
    ensures [ASKING[0]] + [ASKING[1]] + [ASKING[2]] + [ASKING[3]] + [ASKING[4]] == ASKING
  {
  }

  /** All of it in the first pass of the loop. */
  lemma AskingInOrder()
    ensures OrderedTo(ASKING, Place(TRANSCRIPTS, 0))
  {
    assert [] + [ASKING[0]] == [ASKING[0]];
    OrderSnoc([], Place(CONTROLS, 0), ASKING[0]);
    OrderSnoc([ASKING[0]], Place(CONTROLS, 0), ASKING[1]);
    OrderSnoc([ASKING[0]] + [ASKING[1]], Place(CONTROLS, 0), ASKING[2]);
    OrderSnoc([ASKING[0]] + [ASKING[1]] + [ASKING[2]], Place(CONTROLS, 0), ASKING[3]);
    OrderSnoc([ASKING[0]] + [ASKING[1]] + [ASKING[2]] + [ASKING[3]], Place(TICKED, 0), ASKING[4]);
    AskingIs();
  }

  // ---- Turn 1 speaking, as far as its end depends on it ----

  datatype Talk = Talk(
    phrases: seq<string>,
    sizes: string -> nat,
    complete: bool,
    queued: nat,
    pending: nat,
    arrived: nat,
    pushed: nat,
    anchor: Option<Instant>,
    playedOut: Instant)

  ghost predicate Talks(w: World, t: Talk) {
    Coherent(w) && TalkFits(w, t)
  }

  ghost predicate TalkFits(w: World, t: Talk) {
    && w.tts && Speaks(w, 1) && 1 in w.history.submitted
    && (t.anchor.None? ==> t.pushed == 0)
    && w.session.complete == t.complete && |w.playback.live| == t.queued
    && Count(w.pending, 1) == t.pending && Count(w.history.arrived, 1) == t.arrived
    && w.pushed == t.pushed && w.anchor == t.anchor && w.history.playedOut == t.playedOut
  }

  ghost predicate Reached(events: seq<Event>, t: Talk) {
    && Legit(Begin(true), events) && Talks(Run(Begin(true), events), t)
    && t.pending <= |t.phrases| && Served(events, t.phrases, t.sizes, |t.phrases| - t.pending)
  }

  /** `n` samples of turn 1, following `from` earlier ones. */
  function Burst(from: nat, n: nat): seq<Sample> {
    seq(n, i requires 0 <= i => Sample(1, from + i, 0.0))
  }

  // ---- The worker and the phrases of these runs ----

  function Zeros(n: nat): seq<real> {
    if n == 0 then [] else Zeros(n - 1) + [0.0]
  }

  /** A synthesiser that answers each phrase with silence of a given length. */
  function Voice(sizes: string -> nat): Worker.Synthesizer {
    (phrase: string) => Some(Zeros(sizes(phrase)))
  }

  /** Every text comes with its phrases. */
  ghost predicate TextsFit(events: seq<Event>) {
    forall k :: 0 <= k < |events| && events[k].Text? ==> ArePhrases(events[k].text, events[k].phrases)
  }

  /** All results are what that synthesiser's worker answers, `done` of them so far,
      to requests for `phrases`. */
  ghost predicate Served(events: seq<Event>, phrases: seq<string>, sizes: string -> nat, done: nat) {
    var h := Run(Begin(true), events).history;
    && ServedRun(Voice(sizes), Begin(true), events) && TextsFit(events)
    && h.sent == Worker.Requests(1, phrases) && h.received == done
  }

  lemma {:induction false} ServedSnoc(synth: Worker.Synthesizer, w: World, events: seq<Event>, last: Event)
    ensures ServedRun(synth, w, events + [last]) <==>
            ServedRun(synth, w, events) && Delivers(synth, Run(w, events), last)
    decreases |events|
  {
    if events == [] {
      assert [last][1..] == [];
    } else {
      assert (events + [last])[1..] == events[1..] + [last];
      ServedSnoc(synth, Step(w, events[0]), events[1..], last);
    }
  }

  lemma {:induction false} NothingToServe(synth: Worker.Synthesizer, w: World, events: seq<Event>)
    requires forall k :: 0 <= k < |events| ==> !events[k].Synthesized?
    ensures ServedRun(synth, w, events)
    decreases |events|
  {
    if events != [] {
      NothingToServe(synth, Step(w, events[0]), events[1..]);
    }
  }

  function Results(phrases: seq<string>, sizes: string -> nat): (results: seq<Worker.TtsResult>)
    ensures |results| == |phrases|
    ensures forall k :: 0 <= k < |phrases| ==> results[k] == Worker.TtsResult(1, Zeros(sizes(phrases[k])))
  {
    if phrases == [] then []
    else
      Results(phrases[..|phrases| - 1], sizes) + [Worker.TtsResult(1, Zeros(sizes(phrases[|phrases| - 1])))]
  }

  lemma {:induction false} WorkerAnswers(phrases: seq<string>, sizes: string -> nat)
    ensures Worker.Serve(Voice(sizes), {}, Worker.Requests(1, phrases)) == Results(phrases, sizes)
    ensures Worker.CancelledAfter({}, Worker.Requests(1, phrases)) == {}
  {
    if phrases != [] {
      var before, last := phrases[..|phrases| - 1], phrases[|phrases| - 1];
      WorkerAnswers(before, sizes);
      Worker.ServeSnoc(Voice(sizes), {}, Worker.Requests(1, before), Worker.Synthesize(1, last));
    }
  }

  lemma {:induction false} BurstIsSilent(from: nat, n: nat)
    ensures Levels(Burst(from, n)) == Zeros(n)
  {
    if n > 0 {
      BurstIsSilent(from, n - 1);
      assert Burst(from, n)[..n - 1] == Burst(from, n - 1);
    }
  }

  lemma ServedResult(events: seq<Event>, phrases: seq<string>, sizes: string -> nat, done: nat, from: nat)
    requires Run(Begin(true), events).tts && Served(events, phrases, sizes, done) && done < |phrases|
    ensures Served(events + [Synthesized(1, Burst(from, sizes(phrases[done])))], phrases, sizes, done + 1)
  {
    var e := Synthesized(1, Burst(from, sizes(phrases[done])));
    WorkerAnswers(phrases, sizes);
    BurstIsSilent(from, sizes(phrases[done]));
    ServedSnoc(Voice(sizes), Begin(true), events, e);
    RunSnoc(Begin(true), events, e);
    ElementsOfSnoc(events, e);
  }

  /** A step that neither sends nor receives. */
  lemma ServedStill(events: seq<Event>, phrases: seq<string>, sizes: string -> nat, done: nat, e: Event)
    requires Served(events, phrases, sizes, done) && !e.Synthesized? && !e.Text?
    requires Sends(Run(Begin(true), events).history, Step(Run(Begin(true), events), e).history, [])
    ensures Served(events + [e], phrases, sizes, done)
  {
    ServedSnoc(Voice(sizes), Begin(true), events, e);
    RunSnoc(Begin(true), events, e);
    ElementsOfSnoc(events, e);
  }

  lemma FirstTextSends(w: World, text: string, phrases: seq<string>)
    requires w.tts && w.session.current == Some(1)
    ensures
      var h := OnText(w, 1, text, phrases).history;
      h.sent == w.history.sent + Worker.Requests(1, phrases) && h.received == w.history.received
  {
    AgentInput(StartIfNew(w, 1), AgentTextArrived(1, text));
  }

  lemma NothingSentYet()
    ensures ASKED.history.sent == [] && ASKED.history.received == 0
  {
  }

  lemma AskingFits()
    ensures TextsFit(ASKING)
    ensures forall k :: 0 <= k < |ASKING| ==> !ASKING[k].Synthesized?
  {
  }

  lemma AskingServed(sizes: string -> nat)
    ensures Served(ASKING, [], sizes, 0)
  {
    ReachesAsked();
    NothingSentYet();
    AskingFits();
    NothingToServe(Voice(sizes), Begin(true), ASKING);
  }

  lemma ServedText(events: seq<Event>, w: World, text: string, phrases: seq<string>, sizes: string -> nat)
    requires Run(Begin(true), events) == w && w.tts && w.session.current == Some(1)
    requires Served(events, [], sizes, 0) && ArePhrases(text, phrases)
    ensures Served(events + [Text(1, text, phrases)], phrases, sizes, 0)
  {
    var e := Text(1, text, phrases);
    RunSnoc(Begin(true), events, e);
    ServedSnoc(Voice(sizes), Begin(true), events, e);
    ElementsOfSnoc(events, e);
    FirstTextSends(w, text, phrases);
    NothingBefore(Worker.Requests(1, phrases));
  }

  lemma FeedServed(events: seq<Event>, phrases: seq<string>, sizes: string -> nat, done: nat, now: Instant)
    requires Served(events, phrases, sizes, done)
    ensures Served(events + [FeedTick(now)], phrases, sizes, done)
  {
    FeedSends(Run(Begin(true), events), now);
    ServedStill(events, phrases, sizes, done, FeedTick(now));
  }

  lemma CompletionServed(events: seq<Event>, phrases: seq<string>, sizes: string -> nat, done: nat, now: Instant)
    requires Served(events, phrases, sizes, done)
    ensures Served(events + [Complete(1, now)], phrases, sizes, done)
  {
    CompleteSends(Run(Begin(true), events), 1, now);
    ServedStill(events, phrases, sizes, done, Complete(1, now));
  }

  lemma NothingBefore<T>(s: seq<T>)
    ensures [] + s == s
  {
  }

  lemma ReachesNext(events: seq<Event>, w: World, e: Event, next: World, t: Talk)
    requires Legit(Begin(true), events) && Run(Begin(true), events) == w && Enabled(w, e) && Step(w, e) == next
    requires Talks(next, t) && t.pending <= |t.phrases|
    requires Served(events + [e], t.phrases, t.sizes, |t.phrases| - t.pending)
    ensures Reached(events + [e], t)
  {
    RunSnoc(Begin(true), events, e);
  }

  lemma Answers(w: World, text: string, phrases: seq<string>, sizes: string -> nat)
    requires Coherent(w) && w.tts && w.session.state == AwaitingAgent && w.session.current == Some(1)
    requires 1 in w.history.submitted && Count(w.pending, 1) == Count(w.history.arrived, 1) == 0
    requires w.anchor.None? ==> w.pushed == 0
    ensures TalkFits(OnText(w, 1, text, phrases),
                     Talk(phrases, sizes, false, 0, |phrases|, 0, w.pushed, w.anchor, w.history.playedOut))
  {
    AgentInput(StartIfNew(w, 1), AgentTextArrived(1, text));
    assert StartIfNew(w, 1).playback == P.Start(w.playback, 1);
  }

  lemma AskedIsCoherent()
    ensures Coherent(ASKED)
  {
    ReachesAsked();
    BeginsOk(true);
    EveryRunKeepsInvariant(Begin(true), ASKING);
  }

  lemma ReachesFirstText(text: string, phrases: seq<string>, sizes: string -> nat)
    requires ArePhrases(text, phrases)
    ensures Reached(ASKING + [Text(1, text, phrases)], Talk(phrases, sizes, false, 0, |phrases|, 0, 0, None, 0))
  {
    ReachesAsked();
    AskedIsCoherent();
    Answers(ASKED, text, phrases, sizes);
    AskingServed(sizes);
    ServedText(ASKING, ASKED, text, phrases, sizes);
    TextKeepsOk(ASKED, 1, text, phrases);
    ReachesNext(ASKING, ASKED, Text(1, text, phrases), OnText(ASKED, 1, text, phrases),
                Talk(phrases, sizes, false, 0, |phrases|, 0, 0, None, 0));
  }

  lemma Hears(w: World, t: Talk, n: nat)
    requires Talks(w, t) && t.pending > 0
    ensures Enabled(w, Synthesized(1, Burst(t.arrived, n)))
    ensures Talks(Step(w, Synthesized(1, Burst(t.arrived, n))),
                  t.(queued := t.queued + n, pending := t.pending - 1, arrived := t.arrived + n))
  {
    StepKeepsOk(w, Synthesized(1, Burst(t.arrived, n)));
  }

  /** The result for the next phrase. */
  function NextResult(t: Talk): Event
    requires 0 < t.pending <= |t.phrases|
  {
    Synthesized(1, Burst(t.arrived, t.sizes(t.phrases[|t.phrases| - t.pending])))
  }

  function Heard(t: Talk): Talk
    requires 0 < t.pending <= |t.phrases|
  {
    var n := t.sizes(t.phrases[|t.phrases| - t.pending]);
    t.(queued := t.queued + n, pending := t.pending - 1, arrived := t.arrived + n)
  }

  lemma HearsNext(w: World, t: Talk)
    requires Talks(w, t) && 0 < t.pending <= |t.phrases|
    ensures Enabled(w, NextResult(t)) && Talks(Step(w, NextResult(t)), Heard(t))
  {
    var n := t.sizes(t.phrases[|t.phrases| - t.pending]);
    Hears(w, t, n);
    NextIs(t, n);
  }

  lemma NextIs(t: Talk, n: nat)
    requires 0 < t.pending <= |t.phrases| && n == t.sizes(t.phrases[|t.phrases| - t.pending])
    ensures NextResult(t) == Synthesized(1, Burst(t.arrived, n))
    ensures Heard(t) == t.(queued := t.queued + n, pending := t.pending - 1, arrived := t.arrived + n)
  {
  }

  lemma ServedNext(events: seq<Event>, t: Talk)
    requires Run(Begin(true), events).tts && 0 < t.pending <= |t.phrases|
    requires Served(events, t.phrases, t.sizes, |t.phrases| - t.pending)
    ensures Served(events + [NextResult(t)], Heard(t).phrases, Heard(t).sizes, |Heard(t).phrases| - Heard(t).pending)
  {
    ServedResult(events, t.phrases, t.sizes, |t.phrases| - t.pending, t.arrived);
  }

  lemma ReachesResult(events: seq<Event>, t: Talk)
    requires Reached(events, t) && t.pending > 0
    ensures Reached(events + [NextResult(t)], Heard(t))
  {
    var w := Run(Begin(true), events);
    HearsNext(w, t);
    ServedNext(events, t);
    ReachesNext(events, w, NextResult(t), Step(w, NextResult(t)), Heard(t));
  }

  // ---- Completions ----

  function Believed(t: Talk, now: Instant): nat {
    if t.anchor.None? || t.pushed <= A.Elapsed(t.anchor.value, now) then 0
    else t.pushed - A.Elapsed(t.anchor.value, now)
  }

  predicate NothingLeft(t: Talk, now: Instant) {
    t.pending == 0 && t.queued == 0 && Believed(t, now) == 0
  }

  lemma Reports(w: World, t: Talk, now: Instant)
    requires Talks(w, t)
    ensures
      var done := Dispatch(NoteComplete(w, 1), AgentTurnComplete(1));
      Talks(done, t.(complete := true)) && (NothingLeftToPlay(done, 1, now) <==> NothingLeft(t, now))
  {
    ReportKeepsSpeaking(w, 1, 1);
    AgentInput(NoteComplete(w, 1), AgentTurnComplete(1));
  }

  /** A drain ends a complete reply and does nothing to another. */
  lemma Drains(w: World, t: Talk)
    requires Talks(w, t) && t.pending == 0
    ensures
      var next := SignalDrained(w, 1);
      if t.complete then next.session.state == Listening && next.history.playedOut == t.playedOut else Talks(next, t)
  {
    DrainedKeepsOk(w, 1);
    AgentInput(w.(pending := w.pending - {1}), PlaybackDrained(1));
  }

  lemma Completes(w: World, t: Talk, now: Instant)
    requires Talks(w, t)
    ensures
      var next := Step(w, Complete(1, now));
      if NothingLeft(t, now) then Ends(w, Complete(1, now), 1) && next.history.playedOut == t.playedOut
      else Talks(next, t.(complete := true))
  {
    Reports(w, t, now);
    if NothingLeft(t, now) {
      Drains(Dispatch(NoteComplete(w, 1), AgentTurnComplete(1)), t.(complete := true));
    }
  }

  lemma ReachesCompletion(events: seq<Event>, t: Talk, now: Instant)
    requires Reached(events, t) && !NothingLeft(t, now)
    ensures Reached(events + [Complete(1, now)], t.(complete := true))
  {
    var w := Run(Begin(true), events);
    Completes(w, t, now);
    CompletionServed(events, t.phrases, t.sizes, |t.phrases| - t.pending, now);
    ReachesNext(events, w, Complete(1, now), Step(w, Complete(1, now)), t.(complete := true));
  }

  // ---- Feeds ----

  function Taken(t: Talk, now: Instant): nat {
    if Believed(t, now) < LEAD_SAMPLES then Min(t.queued, LEAD_SAMPLES - Believed(t, now)) else 0
  }

  predicate Dry(t: Talk, now: Instant) {
    t.queued == Taken(t, now) && Believed(t, now) == 0
  }

  /** After the top-up, and after the pacing is reset. */
  function ToppedUp(t: Talk, now: Instant): Talk
    requires Taken(t, now) <= t.queued
  {
    var n := Taken(t, now);
    t.(queued := t.queued - n, pushed := t.pushed + n, anchor := if t.anchor.None? then Some(now) else t.anchor,
       playedOut := PlaysOut(t.playedOut, n, now))
  }

  function Fed(t: Talk, now: Instant): Talk
    requires Taken(t, now) <= t.queued
  {
    if Dry(t, now) then ToppedUp(t, now).(pushed := 0, anchor := None) else ToppedUp(t, now)
  }

  lemma FedKeepsTexts(t: Talk, now: Instant)
    requires Taken(t, now) <= t.queued
    ensures Fed(t, now).phrases == t.phrases && Fed(t, now).sizes == t.sizes && Fed(t, now).pending == t.pending
  {
  }

  lemma TopsUpFits(w: World, t: Talk, now: Instant)
    requires Talks(w, t)
    ensures Taken(t, now) <= t.queued && TalkFits(Topped(w, now), ToppedUp(t, now))
    ensures Resident(Anchored(w, now), now) == Believed(t, now)
  {
  }

  lemma TopsUp(w: World, t: Talk, now: Instant)
    requires Talks(w, t)
    ensures Taken(t, now) <= t.queued && Talks(Topped(w, now), ToppedUp(t, now))
    ensures Resident(Anchored(w, now), now) == Believed(t, now)
  {
    TopsUpFits(w, t, now);
    PacingIsFree(w, w.pushed, Anchored(w, now).anchor, w.history.playedOut);
    TopUpKeepsOk(Anchored(w, now), Resident(Anchored(w, now), now), now);
  }

  lemma Resets(w: World, t: Talk)
    requires Talks(w, t)
    ensures Talks(w.(pushed := 0, anchor := None), t.(pushed := 0, anchor := None))
  {
    PacingIsFree(w, 0, None, w.history.playedOut);
  }

  lemma FeedsOn(w: World, t: Talk, now: Instant)
    requires Talks(w, t) && (t.queued > 0 || t.pushed > 0)
    requires !(Dry(t, now) && t.complete && t.pending == 0)
    ensures Taken(t, now) <= t.queued && Talks(Feed(w, now), Fed(t, now))
  {
    TopsUp(w, t, now);
    FeedIs(w, now);
    Resets(Topped(w, now), ToppedUp(t, now));
    if t.pending == 0 {
      Drains(Topped(w, now).(pushed := 0, anchor := None), ToppedUp(t, now).(pushed := 0, anchor := None));
    }
  }

  lemma FeedDrains(w: World, t: Talk, now: Instant)
    requires Talks(w, t) && (t.queued > 0 || t.pushed > 0)
    requires Dry(t, now) && t.pending == 0
    ensures Taken(t, now) <= t.queued
    ensures
      var dry := Topped(w, now).(pushed := 0, anchor := None);
      Feed(w, now) == SignalDrained(dry, 1) && Talks(dry, ToppedUp(t, now).(pushed := 0, anchor := None))
  {
    TopsUp(w, t, now);
    FeedIs(w, now);
    Resets(Topped(w, now), ToppedUp(t, now));
  }

  lemma FeedStops(w: World, t: Talk, now: Instant)
    requires Talks(w, t) && (t.queued > 0 || t.pushed > 0)
    requires Dry(t, now) && t.complete && t.pending == 0
    ensures Feed(w, now).session.state == Listening
    ensures Feed(w, now).history.playedOut == PlaysOut(t.playedOut, t.queued, now)
  {
    FeedDrains(w, t, now);
    Drains(Topped(w, now).(pushed := 0, anchor := None), ToppedUp(t, now).(pushed := 0, anchor := None));
  }

  lemma FeedEnds(w: World, t: Talk, now: Instant)
    requires Talks(w, t) && (t.queued > 0 || t.pushed > 0)
    requires Dry(t, now) && t.complete && t.pending == 0
    ensures Ends(w, FeedTick(now), 1)
    ensures Step(w, FeedTick(now)).history.playedOut == PlaysOut(t.playedOut, t.queued, now)
  {
    FeedStops(w, t, now);
    assert Step(w, FeedTick(now)) == Feed(w, now);
  }

  lemma ReachesFeed(events: seq<Event>, t: Talk, now: Instant)
    requires Reached(events, t) && (t.queued > 0 || t.pushed > 0)
    requires !(Dry(t, now) && t.complete && t.pending == 0)
    ensures Taken(t, now) <= t.queued && Reached(events + [FeedTick(now)], Fed(t, now))
  {
    var w := Run(Begin(true), events);
    FeedsOn(w, t, now);
    FeedServed(events, t.phrases, t.sizes, |t.phrases| - t.pending, now);
    FedKeepsTexts(t, now);
    ReachesNext(events, w, FeedTick(now), Feed(w, now), Fed(t, now));
  }

  // ---- Ticks ----

  /** While a turn speaks no timer runs. */
  lemma TicksOn(w: World, dt: Duration)
    requires w.session.state == AgentSpeaking
    ensures Step(w, External(Tick(dt))) == w
  {
    QuietStep(w, Tick(dt), []);
  }

  lemma ReachesTick(events: seq<Event>, t: Talk, dt: Duration)
    requires Reached(events, t)
    ensures Reached(events + [External(Tick(dt))], t)
  {
    var w := Run(Begin(true), events);
    TicksOn(w, dt);
    SendsNothing(w.history, w.history);
    ServedStill(events, t.phrases, t.sizes, |t.phrases| - t.pending, External(Tick(dt)));
    ReachesNext(events, w, External(Tick(dt)), w, t);
  }

  /** A run that can happen: allowed, in the order of the loop, every text with its
      phrases, every result one that the worker of some synthesiser answers. */
  ghost predicate Real(events: seq<Event>) {
    && Legit(Begin(true), events) && InOrder(events) && TextsFit(events)
    && exists synth :: ServedRun(synth, Begin(true), events)
  }
}
