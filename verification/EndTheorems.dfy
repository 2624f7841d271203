/** When feeding alone brings a complete reply to its end. */
module EndTheorems {
  import opened Wrappers
  import opened SessionTypes
  import opened Conversation
  import opened ConversationSafety
  import opened ConversationTheorems
  import opened SynthesisTheorems
  import opened PlayoutTheorems

  /** The reply is complete and none of it is in synthesis: only feeding is left. */
  ghost predicate Waiting(w: World, turn: TurnId) {
    Coherent(w) && Speaks(w, turn) && w.session.complete && Count(w.pending, turn) == 0
  }

  function Feeds(times: seq<Instant>): seq<Event> {
    if times == [] then [] else [FeedTick(times[0])] + Feeds(times[1..])
  }

  function FeedAll(w: World, times: seq<Instant>): World {
    Run(w, Feeds(times))
  }

  lemma FeedOne(w: World, times: seq<Instant>)
    requires times != []
    ensures FeedAll(w, times) == FeedAll(Feed(w, times[0]), times[1..])
  {
    assert Feeds(times)[1..] == Feeds(times[1..]);
  }

  lemma FeedLeavesSession(w: World, now: Instant)
    requires w.session.state != AgentSpeaking
    ensures Feed(w, now).session == w.session
  {
    if !AtRest(w) {
      FeedShape(w, now);
    }
  }

  lemma {:induction false} FeedingLeavesSession(w: World, times: seq<Instant>)
    requires w.session.state != AgentSpeaking
    ensures FeedAll(w, times).session == w.session
    decreases |times|
  {
    if times != [] {
      FeedOne(w, times);
      FeedLeavesSession(w, times[0]);
      FeedingLeavesSession(Feed(w, times[0]), times[1..]);
    }
  }

  /** With nothing queued and nothing pushed, feeding does nothing at all. */
  lemma {:induction false} FeedingIdles(w: World, times: seq<Instant>)
    requires AtRest(w)
    ensures FeedAll(w, times) == w
    decreases |times|
  {
    if times != [] {
      FeedOne(w, times);
      FeedingIdles(w, times[1..]);
    }
  }

  /** A feed that finds the ring dry ends the reply. */
  lemma DryFeedEnds(w: World, turn: TurnId, now: Instant)
    requires Speaks(w, turn) && w.session.complete && Count(w.pending, turn) == 0 && w.playback.liveTurn == Some(turn)
    requires !AtRest(w) && RunsDry(w, now)
    ensures Feed(w, now).session.state == Listening
  {
    FeedShape(w, now);
  }

  /** Any other only moves samples. */
  ghost predicate Shifts(w: World, f: World, now: Instant) {
    && f.pushed + |f.playback.live| == w.pushed + |w.playback.live|
    && |f.playback.live| == |w.playback.live| - |Handed(w, now)|
    && f.anchor == Anchored(w, now).anchor
  }

  lemma FeedMoves(w: World, now: Instant)
    requires !AtRest(w) && !RunsDry(w, now)
    ensures Shifts(w, Feed(w, now), now) && !AtRest(Feed(w, now))
    ensures Feed(w, now).session == w.session && Feed(w, now).pending == w.pending
  {
    FeedIs(w, now);
  }

  lemma FeedWaits(w: World, turn: TurnId, now: Instant)
    requires Waiting(w, turn) && !AtRest(w) && !RunsDry(w, now)
    ensures Waiting(Feed(w, now), turn)
  {
    FeedMoves(w, now);
    FeedKeepsOk(w, now);
  }

  /** Once everything queued and pushed could have been played, a feed hands over as
      much as it may. */
  lemma LateFeed(w: World, now: Instant)
    requires !AtRest(w) && (w.anchor.Some? ==> now >= w.anchor.value + w.pushed + |w.playback.live|)
    requires w.anchor.None? ==> w.pushed == 0
    ensures RunsDry(w, now) || |Handed(w, now)| == LEAD_SAMPLES
    ensures |w.playback.live| < LEAD_SAMPLES ==> RunsDry(w, now)
  {
  }

  function Late(times: seq<Instant>, deadline: Instant): nat {
    if times == [] then 0 else (if times[0] >= deadline then 1 else 0) + Late(times[1..], deadline)
  }

  /** Everything queued and pushed could have been played by then, if the first feed
      is at `first`. */
  function Deadline(w: World, first: Instant): Instant {
    (if w.anchor.Some? then w.anchor.value else first) + w.pushed + |w.playback.live|
  }

  /** After a feed that does not end the reply, the later ones still suffice. */
  lemma LateFeedsSuffice(w: World, f: World, times: seq<Instant>, deadline: Instant)
    requires times != [] && Shifts(w, f, times[0]) && deadline >= Deadline(w, times[0])
    requires Late(times, deadline) > |w.playback.live| / LEAD_SAMPLES
    requires times[0] >= deadline ==> |Handed(w, times[0])| == LEAD_SAMPLES
    ensures Late(times[1..], deadline) > |f.playback.live| / LEAD_SAMPLES && times[1..] != []
    ensures deadline >= Deadline(f, times[1..][0])
  {
  }

  lemma {:induction false} LateFeedsEnd(w: World, turn: TurnId, times: seq<Instant>, deadline: Instant)
    requires Waiting(w, turn) && !AtRest(w) && Underestimates(w)
    requires times != [] && deadline >= Deadline(w, times[0])
    requires Late(times, deadline) > |w.playback.live| / LEAD_SAMPLES
    ensures FeedAll(w, times).session.state == Listening
    decreases |times|
  {
    var now, next := times[0], Feed(w, times[0]);
    FeedOne(w, times);
    if RunsDry(w, now) {
      DryFeedEnds(w, turn, now);
      FeedingLeavesSession(next, times[1..]);
    } else {
      FeedMoves(w, now);
      FeedWaits(w, turn, now);
      FeedKeepsUnderestimate(w, now);
      if now >= deadline {
        LateFeed(w, now);
      }
      LateFeedsSuffice(w, next, times, deadline);
      LateFeedsEnd(next, turn, times[1..], deadline);
    }
  }

  /** Feeding alone, for long enough, ends a complete reply exactly if anything is
      queued or was pushed since the pacing was last reset. */
  lemma FeedsEndReplyIff(w: World, turn: TurnId, times: seq<Instant>)
    requires Waiting(w, turn) && Underestimates(w)
    requires times != [] && Late(times, Deadline(w, times[0])) > |w.playback.live| / LEAD_SAMPLES
    ensures FeedAll(w, times).session.state == Listening <==> !AtRest(w)
  {
    if AtRest(w) {
      FeedingIdles(w, times);
    } else {
      LateFeedsEnd(w, turn, times, Deadline(w, times[0]));
    }
  }

  /** The same after any run. */
  lemma CompleteRepliesEndIff(tts: bool, events: seq<Event>, turn: TurnId, times: seq<Instant>)
    requires Legit(Begin(tts), events) && Waiting(Run(Begin(tts), events), turn) && times != []
    requires
      var w := Run(Begin(tts), events);
      Late(times, Deadline(w, times[0])) > |w.playback.live| / LEAD_SAMPLES
    ensures
      var w := Run(Begin(tts), events);
      FeedAll(w, times).session.state == Listening <==> !AtRest(w)
  {
    BeginsOk(tts);
    BeginsTrue(tts);
    RunKeepsUnderestimate(Begin(tts), events);
    FeedsEndReplyIff(Run(Begin(tts), events), turn, times);
  }
}
