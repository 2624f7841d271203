/** The purpose of the feeder's pacing: how much audio can still be in the engine's
    ring, and therefore heard, when playback is cancelled. */
module LeadTheorems {
  import opened Wrappers
  import opened SessionTypes
  import opened Arithmetic
  import opened Conversation
  import opened ConversationSafety
  import opened ConversationTheorems
  import opened PacingTheorems
  import opened PlayoutTheorems

  /** The ring holds no more than the lead, and will not unless more is handed over. */
  predicate WithinLead(w: World, now: Instant) {
    Held(w, now) <= LEAD_SAMPLES
  }

  /** The call finds the estimate right, or so little queued that it fits anyway. */
  predicate Fits(w: World, now: Instant) {
    || AtRest(w)
    || Held(w, now) == Resident(Anchored(w, now), now)
    || |w.playback.live| + Held(w, now) <= LEAD_SAMPLES
  }

  lemma HandedIs(w: World, now: Instant)
    requires !AtRest(w)
    ensures
      var believed := Resident(Anchored(w, now), now);
      |Handed(w, now)| == if believed < LEAD_SAMPLES then Min(|w.playback.live|, LEAD_SAMPLES - believed) else 0
  {
  }

  lemma FeedHolds(w: World, now: Instant)
    requires !AtRest(w)
    ensures Held(Feed(w, now), now) == Held(w, now) + |Handed(w, now)|
  {
    FeedPacing(w, now);
  }

  /** A feed keeps the ring within the lead exactly then. */
  lemma FeedKeepsLeadIff(w: World, now: Instant)
    requires Underestimates(w) && WithinLead(w, now) && (w.anchor.Some? ==> w.anchor.value <= now)
    ensures WithinLead(Feed(w, now), now) <==> Fits(w, now)
  {
    if !AtRest(w) {
      FeedHolds(w, now);
      HandedIs(w, now);
      NothingHandedMeans(w, now);
    }
  }

  // ---- Over runs ----

  ghost predicate StaysWithinLead(w: World, from: Instant, events: seq<Event>)
    decreases |events|
  {
    WithinLead(w, from) &&
    (events == [] || StaysWithinLead(Step(w, events[0]), Clock(events[0], from), events[1..]))
  }

  predicate FittingRun(w: World, events: seq<Event>)
    decreases |events|
  {
    events == [] ||
    ((events[0].FeedTick? ==> Fits(w, events[0].now)) && FittingRun(Step(w, events[0]), events[1..]))
  }

  lemma StepKeepsLeadIff(w: World, e: Event, from: Instant)
    requires Coherent(w) && Enabled(w, e) && Underestimates(w) && WithinLead(w, from) && from <= Clock(e, from)
    requires w.anchor.Some? ==> w.anchor.value <= from
    ensures WithinLead(Step(w, e), Clock(e, from)) <==> (e.FeedTick? ==> Fits(w, e.now))
    ensures Step(w, e).anchor.Some? ==> Step(w, e).anchor.value <= Clock(e, from)
  {
    StepKeepsPacing(w, e);
    if e.FeedTick? {
      FeedKeepsLeadIff(w, e.now);
      FeedAnchors(w, e.now);
    }
  }

  lemma FeedAnchors(w: World, now: Instant)
    ensures Feed(w, now).anchor == w.anchor || Feed(w, now).anchor == None || Feed(w, now).anchor == Some(now)
  {
    if !AtRest(w) {
      FeedPacing(w, now);
    }
  }

  /** Over every clocked run the ring is within the lead all along if and only if
      every feed is of that kind. */
  lemma {:induction false} RunKeepsLeadIff(w: World, events: seq<Event>, from: Instant)
    requires Coherent(w) && Legit(w, events) && ClockedRun(events, from) && Underestimates(w) && WithinLead(w, from)
    requires w.anchor.Some? ==> w.anchor.value <= from
    ensures StaysWithinLead(w, from, events) <==> FittingRun(w, events)
    ensures StaysWithinLead(w, from, events) ==> WithinLead(Run(w, events), EndClock(events, from))
    decreases |events|
  {
    if events != [] {
      var next, now := Step(w, events[0]), Clock(events[0], from);
      StepKeepsOk(w, events[0]);
      StepKeepsPacing(w, events[0]);
      StepKeepsLeadIff(w, events[0], from);
      if WithinLead(next, now) {
        RunKeepsLeadIff(next, events[1..], now);
      }
    }
  }

  /** What the feeder knows bounds what is left. */
  lemma TrackedIsWithinLead(w: World, until: Instant, now: Instant)
    requires Tracks(w, until, now) && Paced(w, now) && until <= now + LEAD_SAMPLES
    ensures WithinLead(w, now)
  {
    assert Held(w, now) == Expected(w, until, now);
  }

  lemma PaceLasts(w: World, from: Instant, now: Instant)
    requires Paced(w, from) && from <= now
    ensures Paced(w, now)
  {
  }

  lemma NextUntilWithinLead(w: World, until: Instant, e: Event, from: Instant)
    requires until <= from + LEAD_SAMPLES && from <= Clock(e, from)
    ensures NextUntil(w, until, e) <= Clock(e, from) + LEAD_SAMPLES
  {
    if e.FeedTick? && !AtRest(w) {
      HandedIs(w, e.now);
    }
  }

  lemma {:induction false} RunKeepsBounds(w: World, until: Instant, events: seq<Event>, from: Instant)
    requires Coherent(w) && Legit(w, events) && ClockedRun(events, from) && Paced(w, from)
    requires until <= from + LEAD_SAMPLES
    ensures
      var now := EndClock(events, from);
      Paced(Run(w, events), now) && UntilAfter(w, until, events) <= now + LEAD_SAMPLES
    decreases |events|
  {
    if events != [] {
      var now := Clock(events[0], from);
      StepKeepsOk(w, events[0]);
      PaceLasts(w, from, now);
      StepKeepsPace(w, events[0], now);
      NextUntilWithinLead(w, until, events[0], from);
      RunKeepsBounds(Step(w, events[0]), NextUntil(w, until, events[0]), events[1..], now);
    }
  }

  /** After any run of sound feeds no more than the lead is left in the ring: that
      much, at most, is still heard of whatever is cancelled then. */
  lemma SoundRunsKeepLead(tts: bool, events: seq<Event>)
    requires Legit(Begin(tts), events) && ClockedRun(events, 0) && SoundRun(Begin(tts), 0, events)
    ensures WithinLead(Run(Begin(tts), events), EndClock(events, 0))
  {
    BeginsOk(tts);
    BeginsTrue(tts);
    RunIsTrackedIff(Begin(tts), 0, events, 0);
    RunKeepsBounds(Begin(tts), 0, events, 0);
    TrackedIsWithinLead(Run(Begin(tts), events), UntilAfter(Begin(tts), 0, events), EndClock(events, 0));
  }
}
