/** Concrete runs that end a reply before it has been played, one for each way in
    which that can happen, and one that leaves more in the ring than the lead. */
module DrainWitnesses {
  import opened Wrappers
  import opened Conversation
  import opened ConversationTheorems
  import opened PlayoutTheorems
  import opened LeadTheorems
  import opened LoopOrder
  import opened WitnessTexts
  import opened SpeakingRuns
  import T = SessionTypes

  /** The run can happen, its last step ends the reply of turn 1, and what was handed
      over plays on until `playedOut`, after that step. */
  ghost predicate EndsTooSoon(events: seq<Event>, last: Event, playedOut: Instant) {
    var w := Run(Begin(true), events);
    && Real(events) && InOrder(events + [last]) && Ends(w, last, 1) && (last.FeedTick? || last.Complete?)
    && Step(w, last).history.playedOut == playedOut > last.now
  }

  lemma FeedEndsTooSoon(events: seq<Event>, t: Talk, p: Place, now: Instant)
    requires Reached(events, t) && OrderedTo(events, p) && Follows(p, FeedTick(now))
    requires (t.queued > 0 || t.pushed > 0) && Dry(t, now) && t.complete && t.pending == 0
    requires PlaysOut(t.playedOut, t.queued, now) > now
    ensures EndsTooSoon(events, FeedTick(now), PlaysOut(t.playedOut, t.queued, now))
  {
    OrderSnoc(events, p, FeedTick(now));
    FeedEnds(Run(Begin(true), events), t, now);
  }

  lemma CompletionEndsTooSoon(events: seq<Event>, t: Talk, p: Place, now: Instant)
    requires Reached(events, t) && OrderedTo(events, p) && Follows(p, Complete(1, now))
    requires NothingLeft(t, now) && t.playedOut > now
    ensures EndsTooSoon(events, Complete(1, now), t.playedOut)
  {
    OrderSnoc(events, p, Complete(1, now));
    Completes(Run(Begin(true), events), t, now);
  }

  /** A tick of so many hundredths of a second, each of 480 samples. */
  function Pause(hundredths: nat): Event {
    External(T.Tick(hundredths * 10_000_000))
  }

  lemma Paused(events: seq<Event>, clock: Instant, hundredths: nat)
    requires OrderedTo(events, Place(CONTROLS, clock))
    ensures OrderedTo(events + [Pause(hundredths)], Place(TICKED, clock + hundredths * 480))
  {
    OrderSnoc(events, Place(CONTROLS, clock), Pause(hundredths));
  }

  const BRIEF: string -> nat := (phrase: string) => 960
  const ONE := ["Yes."]
  const ONE_PHRASE := ASKING + [Text(1, "Yes.", ONE)]

  const COMPLETED_FIRST := ONE_PHRASE + [Complete(1, 0)] + [Synthesized(1, Burst(0, 960))]

  lemma OnePhraseInOrder()
    ensures OrderedTo(ONE_PHRASE, Place(AGENT, 0))
  {
    AskingInOrder();
    OrderSnoc(ASKING, Place(TRANSCRIPTS, 0), Text(1, "Yes.", ONE));
  }

  lemma CompletedFirstInOrder()
    ensures OrderedTo(COMPLETED_FIRST, Place(RESULTS, 0))
  {
    OnePhraseInOrder();
    OrderSnoc(ONE_PHRASE, Place(AGENT, 0), Complete(1, 0));
    OrderSnoc(ONE_PHRASE + [Complete(1, 0)], Place(AGENT, 0), Synthesized(1, Burst(0, 960)));
  }

  lemma ReachesOnePhrase()
    ensures Reached(ONE_PHRASE, Talk(ONE, BRIEF, false, 0, 1, 0, 0, None, 0))
  {
    OnePhrase();
    ReachesFirstText("Yes.", ONE, BRIEF);
  }

  /** The feeder ends the reply in the call that hands over its only samples. */
  lemma FeederEndsWithFullQueue()
    ensures EndsTooSoon(COMPLETED_FIRST, FeedTick(0), 960)
  {
    ReachesOnePhrase();
    ReachesCompletion(ONE_PHRASE, Talk(ONE, BRIEF, false, 0, 1, 0, 0, None, 0), 0);
    ReachesResult(ONE_PHRASE + [Complete(1, 0)], Talk(ONE, BRIEF, true, 0, 1, 0, 0, None, 0));
    CompletedFirstInOrder();
    FeedEndsTooSoon(COMPLETED_FIRST, Talk(ONE, BRIEF, true, 960, 0, 960, 0, None, 0), Place(RESULTS, 0), 0);
  }

  const HANDED_OVER := ONE_PHRASE + [Synthesized(1, Burst(0, 960))] + [FeedTick(0)]

  lemma HandedOverInOrder()
    ensures OrderedTo(HANDED_OVER, Place(CONTROLS, 0))
  {
    OnePhraseInOrder();
    OrderSnoc(ONE_PHRASE, Place(AGENT, 0), Synthesized(1, Burst(0, 960)));
    OrderSnoc(ONE_PHRASE + [Synthesized(1, Burst(0, 960))], Place(RESULTS, 0), FeedTick(0));
  }

  /** The completion arrives one pass after the hand-over, which has reset the
      pacing, so that nothing seems to be left. */
  lemma CompletionEndsWithoutAnchor()
    ensures EndsTooSoon(HANDED_OVER + [Pause(1)], Complete(1, 480), 960)
  {
    ReachesOnePhrase();
    ReachesResult(ONE_PHRASE, Talk(ONE, BRIEF, false, 0, 1, 0, 0, None, 0));
    ReachesFeed(ONE_PHRASE + [Synthesized(1, Burst(0, 960))], Talk(ONE, BRIEF, false, 960, 0, 960, 0, None, 0), 0);
    ReachesTick(HANDED_OVER, Talk(ONE, BRIEF, false, 0, 0, 960, 0, None, 960), 10_000_000);
    HandedOverInOrder();
    Paused(HANDED_OVER, 0, 1);
    CompletionEndsTooSoon(HANDED_OVER + [Pause(1)], Talk(ONE, BRIEF, false, 0, 0, 960, 0, None, 960),
                          Place(TICKED, 480), 480);
  }

  const UNEVEN: string -> nat := (phrase: string) => if phrase == "Yes." then 1920 else 2400
  const TWO := ["Yes.", "No."]
  const FIRST := Synthesized(1, Burst(0, 1920))
  const SECOND := Synthesized(1, Burst(1920, 2400))
  const TWO_PHRASES := ASKING + [Text(1, "Yes. No.", TWO)]

  /** The second phrase arrives while the first is still in the ring, but the
      pacing has been reset, and is anchored afresh on a ring that is not empty. */
  const REANCHORED := TWO_PHRASES + [FIRST] + [FeedTick(0)] + [Pause(1)] + [SECOND] + [FeedTick(480)]

  lemma ReachesReanchored()
    ensures Reached(REANCHORED, Talk(TWO, UNEVEN, false, 480, 0, 4320, 1920, Some(480), 3840))
  {
    TwoPhrases();
    ReachesFirstText("Yes. No.", TWO, UNEVEN);
    ReachesResult(TWO_PHRASES, Talk(TWO, UNEVEN, false, 0, 2, 0, 0, None, 0));
    ReachesFeed(TWO_PHRASES + [FIRST], Talk(TWO, UNEVEN, false, 1920, 1, 1920, 0, None, 0), 0);
    ReachesTick(TWO_PHRASES + [FIRST] + [FeedTick(0)], Talk(TWO, UNEVEN, false, 0, 1, 1920, 0, None, 1920), 10_000_000);
    ReachesResult(TWO_PHRASES + [FIRST] + [FeedTick(0)] + [Pause(1)],
                  Talk(TWO, UNEVEN, false, 0, 1, 1920, 0, None, 1920));
    ReachesFeed(TWO_PHRASES + [FIRST] + [FeedTick(0)] + [Pause(1)] + [SECOND],
                Talk(TWO, UNEVEN, false, 2400, 0, 4320, 0, None, 1920), 480);
  }

  lemma TwoPhrasesInOrder()
    ensures OrderedTo(TWO_PHRASES, Place(AGENT, 0))
  {
    AskingInOrder();
    OrderSnoc(ASKING, Place(TRANSCRIPTS, 0), Text(1, "Yes. No.", TWO));
  }

  lemma ReanchoredInOrder()
    ensures OrderedTo(REANCHORED, Place(CONTROLS, 480))
  {
    TwoPhrasesInOrder();
    OrderSnoc(TWO_PHRASES, Place(AGENT, 0), FIRST);
    OrderSnoc(TWO_PHRASES + [FIRST], Place(RESULTS, 0), FeedTick(0));
    Paused(TWO_PHRASES + [FIRST] + [FeedTick(0)], 0, 1);
    OrderSnoc(TWO_PHRASES + [FIRST] + [FeedTick(0)] + [Pause(1)], Place(TICKED, 480), SECOND);
    OrderSnoc(TWO_PHRASES + [FIRST] + [FeedTick(0)] + [Pause(1)] + [SECOND], Place(RESULTS, 480), FeedTick(480));
  }

  /** The pacing bounds what is in the ring by its lead, but not there: it holds 3360
      samples, 70 ms of sound that a cancellation would leave to be heard. */
  lemma LeadIsExceeded()
    ensures Real(REANCHORED) && Held(Run(Begin(true), REANCHORED), EndClock(REANCHORED, 0)) == 3360 > LEAD_SAMPLES
  {
    ReachesReanchored();
    ReanchoredInOrder();
    OrderedRunsAreClocked(REANCHORED);
    ClockSnoc(TWO_PHRASES + [FIRST] + [FeedTick(0)] + [Pause(1)] + [SECOND], FeedTick(480), 0);
  }

  const COMPLETED := REANCHORED + [Pause(1)] + [Complete(1, 960)] + [FeedTick(960)] + [Pause(4)]

  /** The feeder ends the reply with an empty queue before and after the call, and
      1440 samples unplayed. */
  lemma FeederEndsWithEmptyQueue()
    ensures EndsTooSoon(COMPLETED, FeedTick(2880), 4320)
    ensures Run(Begin(true), COMPLETED).playback.live == []
  {
    ReachesReanchored();
    ReachesTick(REANCHORED, Talk(TWO, UNEVEN, false, 480, 0, 4320, 1920, Some(480), 3840), 10_000_000);
    ReachesCompletion(REANCHORED + [Pause(1)], Talk(TWO, UNEVEN, false, 480, 0, 4320, 1920, Some(480), 3840), 960);
    ReachesFeed(REANCHORED + [Pause(1)] + [Complete(1, 960)],
                Talk(TWO, UNEVEN, true, 480, 0, 4320, 1920, Some(480), 3840), 960);
    ReachesTick(REANCHORED + [Pause(1)] + [Complete(1, 960)] + [FeedTick(960)],
                Talk(TWO, UNEVEN, true, 0, 0, 4320, 2400, Some(480), 4320), 40_000_000);
    CompletedInOrder();
    FeedEndsTooSoon(COMPLETED, Talk(TWO, UNEVEN, true, 0, 0, 4320, 2400, Some(480), 4320), Place(TICKED, 2880), 2880);
  }

  lemma CompletedInOrder()
    ensures OrderedTo(COMPLETED, Place(TICKED, 2880))
  {
    ReanchoredInOrder();
    Paused(REANCHORED, 480, 1);
    OrderSnoc(REANCHORED + [Pause(1)], Place(TICKED, 960), Complete(1, 960));
    OrderSnoc(REANCHORED + [Pause(1)] + [Complete(1, 960)], Place(AGENT, 960), FeedTick(960));
    Paused(REANCHORED + [Pause(1)] + [Complete(1, 960)] + [FeedTick(960)], 960, 4);
  }

  const EMPTIED := REANCHORED + [Pause(1)] + [FeedTick(960)] + [Pause(4)]

  /** So does a completion, although the pacing is anchored. */
  lemma CompletionEndsAnchored()
    ensures EndsTooSoon(EMPTIED, Complete(1, 2880), 4320)
    ensures Run(Begin(true), EMPTIED).anchor.Some?
  {
    ReachesReanchored();
    ReachesTick(REANCHORED, Talk(TWO, UNEVEN, false, 480, 0, 4320, 1920, Some(480), 3840), 10_000_000);
    ReachesFeed(REANCHORED + [Pause(1)], Talk(TWO, UNEVEN, false, 480, 0, 4320, 1920, Some(480), 3840), 960);
    ReachesTick(REANCHORED + [Pause(1)] + [FeedTick(960)],
                Talk(TWO, UNEVEN, false, 0, 0, 4320, 2400, Some(480), 4320), 40_000_000);
    EmptiedInOrder();
    CompletionEndsTooSoon(EMPTIED, Talk(TWO, UNEVEN, false, 0, 0, 4320, 2400, Some(480), 4320),
                          Place(TICKED, 2880), 2880);
  }

  lemma EmptiedInOrder()
    ensures OrderedTo(EMPTIED, Place(TICKED, 2880))
  {
    ReanchoredInOrder();
    Paused(REANCHORED, 480, 1);
    OrderSnoc(REANCHORED + [Pause(1)], Place(TICKED, 960), FeedTick(960));
    Paused(REANCHORED + [Pause(1)] + [FeedTick(960)], 960, 4);
  }
}
