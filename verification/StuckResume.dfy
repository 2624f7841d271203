/** A reply that feeding never ends: complete, then interrupted, then resumed after
    the barge-in has dropped what was left of it. */
module StuckResume {
  import opened Wrappers
  import opened SessionTypes
  import opened Conversation
  import opened ConversationSafety
  import opened ConversationTheorems
  import opened SynthesisTheorems
  import opened WorkerTheorems
  import opened PlayoutTheorems
  import opened LoopOrder
  import opened EndTheorems
  import opened WitnessTexts
  import opened SpeakingRuns
  import S = Session

  /** Turn 1 is on hold with an empty queue. */
  ghost predicate HeldEmpty(w: World, t: Talk) {
    Coherent(w) && HeldFits(w, t)
  }

  ghost predicate HeldFits(w: World, t: Talk) {
    && w.tts && w.session.state == Interrupting && w.session.parked == Some(1) && 1 in w.history.submitted
    && w.session.complete == t.complete && PausedQueue(w.playback) == [] && t.queued == 0
    && (t.anchor.None? ==> t.pushed == 0)
    && Count(w.pending, 1) == t.pending && Count(w.history.arrived, 1) == t.arrived
    && w.pushed == t.pushed && w.anchor == t.anchor && w.history.playedOut == t.playedOut
  }

  ghost predicate SameTraffic(a: World, b: World) {
    b.history.sent == a.history.sent && b.history.received == a.history.received &&
    b.history.returned == a.history.returned && b.history.requested == a.history.requested &&
    b.history.arrived == a.history.arrived
  }

  lemma BargesIn(w: World, t: Talk)
    requires Talks(w, t)
    ensures HeldFits(Dispatch(w, BargeInConfirmed), t.(queued := 0)) && SameTraffic(w, Dispatch(w, BargeInConfirmed))
  {
    DispatchHasEffect(w, BargeInConfirmed);
    assert Dispatch(w, BargeInConfirmed).session == S.Handle(w.session, BargeInConfirmed).next;
  }

  lemma Retracts(w: World, t: Talk)
    requires HeldEmpty(w, t)
    ensures
      var x := Dispatch(w, Tick(BARGE_IN_RETRACTION_WINDOW));
      TalkFits(x, t) && SameTraffic(w, x)
  {
    DispatchHasEffect(w, Tick(BARGE_IN_RETRACTION_WINDOW));
  }

  /** While the turn is on hold, the feeder that finds the ring dry resets the
      pacing and tells nobody. */
  lemma HoldFeeds(w: World, t: Talk, now: Instant)
    requires HeldEmpty(w, t) && t.pushed > 0 && Believed(t, now) == 0
    ensures HeldFits(Feed(w, now), t.(pushed := 0, anchor := None))
  {
    FeedIs(w, now);
  }

  ghost predicate ReachedHeld(events: seq<Event>, t: Talk) {
    && Legit(Begin(true), events) && HeldEmpty(Run(Begin(true), events), t)
    && t.pending <= |t.phrases| && Served(events, t.phrases, t.sizes, |t.phrases| - t.pending)
  }

  lemma ReachesBargeIn(events: seq<Event>, t: Talk)
    requires Reached(events, t)
    ensures ReachedHeld(events + [External(BargeInConfirmed)], t.(queued := 0))
  {
    var w := Run(Begin(true), events);
    BargesIn(w, t);
    StepKeepsOk(w, External(BargeInConfirmed));
    RunSnoc(Begin(true), events, External(BargeInConfirmed));
    SendsNothing(w.history, Dispatch(w, BargeInConfirmed).history);
    ServedStill(events, t.phrases, t.sizes, |t.phrases| - t.pending, External(BargeInConfirmed));
  }

  lemma ReachesHeldFeed(events: seq<Event>, t: Talk, now: Instant)
    requires ReachedHeld(events, t) && t.pushed > 0 && Believed(t, now) == 0
    ensures ReachedHeld(events + [FeedTick(now)], t.(pushed := 0, anchor := None))
  {
    var w := Run(Begin(true), events);
    HoldFeeds(w, t, now);
    StepKeepsOk(w, FeedTick(now));
    RunSnoc(Begin(true), events, FeedTick(now));
    FeedServed(events, t.phrases, t.sizes, |t.phrases| - t.pending, now);
  }

  lemma ReachesRetraction(events: seq<Event>, t: Talk)
    requires ReachedHeld(events, t)
    ensures Reached(events + [External(Tick(BARGE_IN_RETRACTION_WINDOW))], t)
  {
    var w, e := Run(Begin(true), events), External(Tick(BARGE_IN_RETRACTION_WINDOW));
    Retracts(w, t);
    StepKeepsOk(w, e);
    SendsNothing(w.history, Step(w, e).history);
    ServedStill(events, t.phrases, t.sizes, |t.phrases| - t.pending, e);
    ReachesNext(events, w, e, Step(w, e), t);
  }

  const LONG: string -> nat := (phrase: string) => 1921
  const ONE := ["Yes."]
  const ONLY := Synthesized(1, Burst(0, 1921))
  const ONE_PHRASE := ASKING + [Text(1, "Yes.", ONE)]
  const STALL := External(Tick(50_000_000))
  const RETRACTION := External(Tick(BARGE_IN_RETRACTION_WINDOW))

  const SPEAKING := ONE_PHRASE + [Complete(1, 0)] + [ONLY] + [FeedTick(0)] + [STALL]
  const RESUMED := SPEAKING + [External(BargeInConfirmed)] + [FeedTick(2400)] + [RETRACTION]

  lemma ReachesSpeaking()
    ensures Reached(SPEAKING, Talk(ONE, LONG, true, 1, 0, 1921, 1920, Some(0), 1920))
  {
    OnePhrase();
    ReachesFirstText("Yes.", ONE, LONG);
    ReachesCompletion(ONE_PHRASE, Talk(ONE, LONG, false, 0, 1, 0, 0, None, 0), 0);
    ReachesResult(ONE_PHRASE + [Complete(1, 0)], Talk(ONE, LONG, true, 0, 1, 0, 0, None, 0));
    ReachesFeed(ONE_PHRASE + [Complete(1, 0)] + [ONLY], Talk(ONE, LONG, true, 1921, 0, 1921, 0, None, 0), 0);
    ReachesTick(ONE_PHRASE + [Complete(1, 0)] + [ONLY] + [FeedTick(0)],
                Talk(ONE, LONG, true, 1, 0, 1921, 1920, Some(0), 1920), 50_000_000);
  }

  lemma SpeakingInOrder()
    ensures OrderedTo(SPEAKING, Place(TICKED, 2400))
  {
    AskingInOrder();
    OrderSnoc(ASKING, Place(TRANSCRIPTS, 0), Text(1, "Yes.", ONE));
    OrderSnoc(ONE_PHRASE, Place(AGENT, 0), Complete(1, 0));
    OrderSnoc(ONE_PHRASE + [Complete(1, 0)], Place(AGENT, 0), ONLY);
    OrderSnoc(ONE_PHRASE + [Complete(1, 0)] + [ONLY], Place(RESULTS, 0), FeedTick(0));
    OrderSnoc(ONE_PHRASE + [Complete(1, 0)] + [ONLY] + [FeedTick(0)], Place(CONTROLS, 0), STALL);
  }

  lemma ResumedInOrder()
    ensures OrderedTo(RESUMED, Place(TICKED, 36000))
  {
    SpeakingInOrder();
    OrderSnoc(SPEAKING, Place(TICKED, 2400), External(BargeInConfirmed));
    OrderSnoc(SPEAKING + [External(BargeInConfirmed)], Place(DETECTORS, 2400), FeedTick(2400));
    OrderSnoc(SPEAKING + [External(BargeInConfirmed)] + [FeedTick(2400)], Place(CONTROLS, 2400), RETRACTION);
  }

  /** The resumed reply is complete, with nothing in synthesis and nothing queued,
      and no feeding ever moves it again. */
  lemma ResumeCanStick(times: seq<Instant>)
    ensures Real(RESUMED)
    ensures
      var w := Run(Begin(true), RESUMED);
      Waiting(w, 1) && AtRest(w) && FeedAll(w, times) == w
  {
    ReachesSpeaking();
    ReachesBargeIn(SPEAKING, Talk(ONE, LONG, true, 1, 0, 1921, 1920, Some(0), 1920));
    ReachesHeldFeed(SPEAKING + [External(BargeInConfirmed)],
                    Talk(ONE, LONG, true, 0, 0, 1921, 1920, Some(0), 1920), 2400);
    ReachesRetraction(SPEAKING + [External(BargeInConfirmed)] + [FeedTick(2400)],
                      Talk(ONE, LONG, true, 0, 0, 1921, 0, None, 1920));
    ResumedInOrder();
    FeedingIdles(Run(Begin(true), RESUMED), times);
  }
}
