/** Whether a reply that ends has been played: the feeder's estimate of the
    engine's ring against the ring itself, which plays one sample every tick. */
module PlayoutTheorems {
  import opened Wrappers
  import opened SessionTypes
  import opened Arithmetic
  import opened Conversation
  import opened ConversationSafety
  import opened ConversationTheorems
  import opened PacingTheorems
  import A = BuzzAgent

  // ---- The estimate ----

  /** The ring never holds less than the feeder believes. */
  ghost predicate Underestimates(w: World) {
    && (w.anchor.Some? <==> w.pushed > 0)
    && (w.anchor.Some? ==> w.history.playedOut >= w.anchor.value + w.pushed)
  }

  /** What the ring holds at `t` if nothing more is handed over. */
  function Held(w: World, t: Instant): nat {
    if w.history.playedOut <= t then 0 else w.history.playedOut - t
  }

  /** From `now` on the ring holds exactly what the feeder believes, and nothing
      where it believes nothing. */
  ghost predicate TrueFrom(w: World, now: Instant) {
    && (w.anchor.Some? ==> w.anchor.value <= now)
    && forall t: Instant :: t >= now ==> Resident(w, t) == Held(w, t)
  }

  lemma TrueMeans(w: World, now: Instant)
    requires Underestimates(w)
    ensures TrueFrom(w, now) <==>
      && (w.anchor.Some? ==> w.anchor.value <= now)
      && (w.history.playedOut <= now || (w.anchor.Some? && w.history.playedOut == w.anchor.value + w.pushed))
  {
    if TrueFrom(w, now) && w.history.playedOut > now {
      assert Resident(w, w.history.playedOut - 1) == Held(w, w.history.playedOut - 1) == 1;
    }
  }

  // ---- What feeding does to it ----

  function Handed(w: World, now: Instant): seq<Sample> {
    Chunk(Anchored(w, now), Resident(Anchored(w, now), now))
  }

  predicate AtRest(w: World) {
    w.playback.live == [] && w.pushed == 0
  }

  lemma FeedPacing(w: World, now: Instant)
    requires !AtRest(w)
    ensures
      var f := Feed(w, now);
      && f.history.playedOut == PlaysOut(w.history.playedOut, |Handed(w, now)|, now)
      && (if RunsDry(w, now) then f.pushed == 0 && f.anchor.None?
          else f.pushed == w.pushed + |Handed(w, now)| && f.anchor == Anchored(w, now).anchor)
  {
    FeedShape(w, now);
  }

  lemma FeedKeepsUnderestimate(w: World, now: Instant)
    requires Underestimates(w)
    ensures Underestimates(Feed(w, now))
  {
    if w.playback.live != [] || w.pushed != 0 {
      FeedPacing(w, now);
    }
  }

  /** The call hands nothing over, or it neither resets the pacing nor comes after
      the believed end of the ring. */
  predicate Keeps(w: World, now: Instant) {
    || AtRest(w)
    || Handed(w, now) == []
    || (!RunsDry(w, now) && (w.anchor.Some? ==> now <= w.anchor.value + w.pushed))
  }

  /** A feed leaves a true estimate true exactly under that condition, which the
      feeder can check. */
  lemma FeedKeepsTruthIff(w: World, now: Instant)
    requires Underestimates(w) && TrueFrom(w, now)
    ensures TrueFrom(Feed(w, now), now) <==> Keeps(w, now)
  {
    FeedKeepsUnderestimate(w, now);
    TrueMeans(w, now);
    TrueMeans(Feed(w, now), now);
    if !AtRest(w) {
      FeedPacing(w, now);
      NothingHandedMeans(w, now);
    }
  }

  /** Nothing is handed over only if there is nothing, or enough is believed left. */
  lemma NothingHandedMeans(w: World, now: Instant)
    requires !AtRest(w) && Underestimates(w)
    ensures w.anchor.None? ==> Handed(w, now) != []
    ensures w.anchor.Some? ==> Resident(Anchored(w, now), now) == Resident(w, now)
    ensures w.anchor.None? ==> Resident(Anchored(w, now), now) == 0
  {
  }

  lemma StepKeepsPacing(w: World, e: Event)
    requires Coherent(w) && Enabled(w, e) && Underestimates(w)
    ensures Underestimates(Step(w, e))
    ensures !e.FeedTick? && !e.Rebuilt? ==> SamePace(w, Step(w, e))
    ensures e.Rebuilt? ==> Step(w, e).anchor.None? && Step(w, e).history.playedOut == 0
  {
    if e.FeedTick? {
      FeedKeepsUnderestimate(w, e.now);
    } else if e.Rebuilt? {
      RebuildRestartsPace(w);
    } else {
      QuietStepKeepsPace(w, e);
    }
  }

  // ---- Runs under a clock ----

  predicate Timed(e: Event) {
    e.FeedTick? || e.Complete? || e.Polled?
  }

  function Clock(e: Event, from: Instant): Instant {
    if Timed(e) then e.now else from
  }

  /** Time does not go back. */
  predicate ClockedRun(events: seq<Event>, from: Instant)
    decreases |events|
  {
    events == [] || (from <= Clock(events[0], from) && ClockedRun(events[1..], Clock(events[0], from)))
  }

  function EndClock(events: seq<Event>, from: Instant): Instant
    decreases |events|
  {
    if events == [] then from else EndClock(events[1..], Clock(events[0], from))
  }

  /** The estimate is true after every step. */
  ghost predicate StaysTrue(w: World, from: Instant, events: seq<Event>)
    decreases |events|
  {
    TrueFrom(w, from) && (events == [] || StaysTrue(Step(w, events[0]), Clock(events[0], from), events[1..]))
  }

  predicate KeepingRun(w: World, events: seq<Event>)
    decreases |events|
  {
    events == [] ||
    ((events[0].FeedTick? ==> Keeps(w, events[0].now)) && KeepingRun(Step(w, events[0]), events[1..]))
  }

  lemma StepKeepsTruthIff(w: World, e: Event, from: Instant)
    requires Coherent(w) && Enabled(w, e) && Underestimates(w) && TrueFrom(w, from) && from <= Clock(e, from)
    ensures TrueFrom(Step(w, e), Clock(e, from)) <==> (e.FeedTick? ==> Keeps(w, e.now))
  {
    StepKeepsPacing(w, e);
    TrueMeans(w, from);
    TrueMeans(w, Clock(e, from));
    TrueMeans(Step(w, e), Clock(e, from));
    if e.FeedTick? {
      FeedKeepsTruthIff(w, e.now);
    }
  }

  /** Over every run the ring holds at least what the feeder believes; it holds
      exactly that all along if and only if every feed keeps the estimate true. */
  lemma {:induction false} EstimateStaysTrueIff(w: World, events: seq<Event>, from: Instant)
    requires Coherent(w) && Legit(w, events) && ClockedRun(events, from) && Underestimates(w) && TrueFrom(w, from)
    ensures Underestimates(Run(w, events))
    ensures StaysTrue(w, from, events) <==> KeepingRun(w, events)
    ensures StaysTrue(w, from, events) ==> TrueFrom(Run(w, events), EndClock(events, from))
    decreases |events|
  {
    if events != [] {
      var next, now := Step(w, events[0]), Clock(events[0], from);
      StepKeepsOk(w, events[0]);
      StepKeepsPacing(w, events[0]);
      StepKeepsTruthIff(w, events[0], from);
      if TrueFrom(next, now) {
        EstimateStaysTrueIff(next, events[1..], now);
      } else {
        RunKeepsUnderestimate(next, events[1..]);
      }
    }
  }

  lemma {:induction false} RunKeepsUnderestimate(w: World, events: seq<Event>)
    requires Coherent(w) && Legit(w, events) && Underestimates(w)
    ensures Underestimates(Run(w, events))
    decreases |events|
  {
    if events != [] {
      StepKeepsOk(w, events[0]);
      StepKeepsPacing(w, events[0]);
      RunKeepsUnderestimate(Step(w, events[0]), events[1..]);
    }
  }

  // ---- Runs that reset the pacing ----

  /** What should be left in the ring at `t`: what the feeder believes or, when it
      has reset the pacing, what its last hand-over leaves, which is played out at
      `until`. */
  function Expected(w: World, until: Instant, t: Instant): nat {
    if w.anchor.Some? then Resident(w, t) else if until <= t then 0 else until - t
  }

  ghost predicate Tracks(w: World, until: Instant, now: Instant) {
    && (w.anchor.Some? ==> w.anchor.value <= now && until <= now)
    && forall t: Instant :: t >= now ==> Held(w, t) == Expected(w, until, t)
  }

  lemma TracksMeans(w: World, until: Instant, now: Instant)
    requires Underestimates(w)
    ensures w.anchor.Some? ==> (Tracks(w, until, now) <==> TrueFrom(w, now) && until <= now)
    ensures w.anchor.None? ==>
      (Tracks(w, until, now) <==> w.history.playedOut == until || (w.history.playedOut <= now && until <= now))
  {
    var playedOut := w.history.playedOut;
    var last: Instant := Max(Max(playedOut, until) - 1, 0);
    assert Tracks(w, until, now) && last >= now ==> Held(w, last) == Expected(w, until, last);
    if w.anchor.Some? && TrueFrom(w, now) {
      assert forall t: Instant :: t >= now ==> Held(w, t) == Resident(w, t);
    }
    if w.anchor.Some? && Tracks(w, until, now) {
      forall t: Instant | t >= now ensures Resident(w, t) == Held(w, t) {
        assert Held(w, t) == Expected(w, until, t);
      }
    }
  }

  /** When the ring runs out after the last hand-over that reset the pacing: its
      time and its size. */
  function NextUntil(w: World, until: Instant, e: Event): Instant {
    if e.FeedTick? && !AtRest(w) && RunsDry(w, e.now) && Handed(w, e.now) != [] then e.now + |Handed(w, e.now)|
    else if e.Rebuilt? then 0
    else until
  }

  /** The call hands nothing over, or starts afresh once the last hand-over is
      played out, or comes no later than the believed end of the ring unless it
      resets the pacing. */
  predicate Sound(w: World, until: Instant, now: Instant) {
    || AtRest(w)
    || Handed(w, now) == []
    || (if w.anchor.None? then until <= now else RunsDry(w, now) || now <= w.anchor.value + w.pushed)
  }

  lemma FeedKeepsTrackIff(w: World, until: Instant, now: Instant)
    requires Underestimates(w) && Tracks(w, until, now)
    ensures Tracks(Feed(w, now), NextUntil(w, until, FeedTick(now)), now) <==> Sound(w, until, now)
  {
    var f := Feed(w, now);
    FeedKeepsUnderestimate(w, now);
    TracksMeans(w, until, now);
    TrueMeans(w, now);
    TracksMeans(f, NextUntil(w, until, FeedTick(now)), now);
    TrueMeans(f, now);
    if !AtRest(w) {
      FeedPacing(w, now);
      NothingHandedMeans(w, now);
    }
  }

  ghost predicate StaysTracked(w: World, until: Instant, from: Instant, events: seq<Event>)
    decreases |events|
  {
    Tracks(w, until, from) &&
    (events == [] ||
     StaysTracked(Step(w, events[0]), NextUntil(w, until, events[0]), Clock(events[0], from), events[1..]))
  }

  predicate SoundRun(w: World, until: Instant, events: seq<Event>)
    decreases |events|
  {
    events == [] ||
    ((events[0].FeedTick? ==> Sound(w, until, events[0].now)) &&
     SoundRun(Step(w, events[0]), NextUntil(w, until, events[0]), events[1..]))
  }

  function UntilAfter(w: World, until: Instant, events: seq<Event>): Instant
    decreases |events|
  {
    if events == [] then until else UntilAfter(Step(w, events[0]), NextUntil(w, until, events[0]), events[1..])
  }

  lemma StepKeepsTrackIff(w: World, until: Instant, e: Event, from: Instant)
    requires Coherent(w) && Enabled(w, e) && Underestimates(w) && Tracks(w, until, from) && from <= Clock(e, from)
    ensures Tracks(Step(w, e), NextUntil(w, until, e), Clock(e, from)) <==> (e.FeedTick? ==> Sound(w, until, e.now))
  {
    StepKeepsPacing(w, e);
    LaterTracks(w, until, from, Clock(e, from));
    if e.FeedTick? {
      FeedKeepsTrackIff(w, until, e.now);
    } else {
      TracksMeans(w, until, Clock(e, from));
      TrueMeans(w, Clock(e, from));
      TracksMeans(Step(w, e), NextUntil(w, until, e), Clock(e, from));
      TrueMeans(Step(w, e), Clock(e, from));
    }
  }

  lemma LaterTracks(w: World, until: Instant, from: Instant, now: Instant)
    requires Tracks(w, until, from) && from <= now
    ensures Tracks(w, until, now)
  {
  }

  /** Over every run, what is left in the ring is all along what should be left, if
      and only if every feed is sound. */
  lemma {:induction false} RunIsTrackedIff(w: World, until: Instant, events: seq<Event>, from: Instant)
    requires Coherent(w) && Legit(w, events) && ClockedRun(events, from)
    requires Underestimates(w) && Tracks(w, until, from)
    ensures Underestimates(Run(w, events))
    ensures StaysTracked(w, until, from, events) <==> SoundRun(w, until, events)
    ensures StaysTracked(w, until, from, events) ==>
      Tracks(Run(w, events), UntilAfter(w, until, events), EndClock(events, from))
    decreases |events|
  {
    if events != [] {
      var next, now, left := Step(w, events[0]), Clock(events[0], from), NextUntil(w, until, events[0]);
      StepKeepsOk(w, events[0]);
      StepKeepsPacing(w, events[0]);
      StepKeepsTrackIff(w, until, events[0], from);
      if Tracks(next, left, now) {
        RunIsTrackedIff(next, left, events[1..], now);
      } else {
        RunKeepsUnderestimate(next, events[1..]);
      }
    }
  }

  // ---- The end of a reply ----

  /** The step ends the reply of `turn`. */
  ghost predicate Ends(w: World, e: Event, turn: TurnId) {
    Coherent(w) && Enabled(w, e) && Speaks(w, turn) && !e.Rebuilt? && Step(w, e).session.state == Listening
  }

  /** Everything that was handed to the engine has been played at `now`. */
  predicate PlayedOut(w: World, now: Instant) {
    w.history.playedOut <= now
  }

  lemma DryTakesAll(w: World, now: Instant)
    requires RunsDry(w, now)
    ensures |Chunk(Anchored(w, now), Resident(Anchored(w, now), now))| == |w.playback.live|
  {
  }

  lemma DryBelievesEmpty(w: World, now: Instant)
    requires RunsDry(w, now) && (w.playback.live != [] || w.pushed != 0)
    ensures w.anchor.None? ==> w.playback.live != []
    ensures w.anchor.Some? ==> w.pushed <= A.Elapsed(w.anchor.value, now)
  {
  }

  lemma FeedEndPlaysOut(w: World, now: Instant, turn: TurnId)
    requires Ends(w, FeedTick(now), turn)
    ensures Feed(w, now).history.playedOut == PlaysOut(w.history.playedOut, |w.playback.live|, now)
    ensures w.anchor.None? ==> w.playback.live != []
    ensures w.anchor.Some? ==> w.pushed <= A.Elapsed(w.anchor.value, now)
  {
    FeedEndsDry(w, turn, now);
    DryTakesAll(w, now);
    DryBelievesEmpty(w, now);
    FeedPacing(w, now);
  }

  /** In whatever way a reply ends, it has been played out exactly if the ring was
      already empty and, where the feeder ends it, so was the live queue. */
  lemma EndIsGenuineIff(w: World, e: Event, turn: TurnId)
    requires Ends(w, e, turn)
    ensures e.FeedTick? || e.Complete? || e.Polled?
    ensures PlayedOut(Step(w, e), e.now) <==> PlayedOut(w, e.now) && (e.FeedTick? ==> w.playback.live == [])
  {
    ReplyEndsCleanly(w, e, turn);
    if e.FeedTick? {
      FeedEndPlaysOut(w, e.now, turn);
    } else {
      QuietStepKeepsPace(w, e);
    }
  }

  /** A completion ends a reply only when the feeder believes the ring empty. */
  lemma CompletionBelievesEmpty(w: World, e: Event, turn: TurnId)
    requires Ends(w, e, turn) && (e.Complete? || e.Polled?)
    ensures Resident(w, e.now) == 0
  {
    var x := if e.Polled? then w.(agent := A.Poll(w.agent, e.now, e.quiet).agent) else w;
    if e.Complete? {
      CompletionEndsEmpty(x, turn, e.turn, e.now);
    } else {
      match A.Poll(w.agent, e.now, e.quiet).event {
        case None =>
        case Some(TextChunk(other, text)) => TextEndsNoReply(x, turn, other, text, e.phrases);
        case Some(TurnComplete(other)) => CompletionEndsEmpty(x, turn, other, e.now);
      }
    }
  }

  lemma CompletionEndsEmpty(w: World, turn: TurnId, other: TurnId, now: Instant)
    requires Coherent(w) && Speaks(w, turn) && OnComplete(w, other, now).session.state == Listening
    ensures Resident(w, now) == 0
  {
    ReportKeepsSpeaking(w, turn, other);
    var x := NoteComplete(w, other);
    AgentInput(x, AgentTurnComplete(other));
    var done := Dispatch(x, AgentTurnComplete(other));
    DrainedEnds(done, other);
  }

  /** Where the estimate is true, a reply that a completion ends has always been
      played out, and one the feeder ends exactly if the live queue was empty before
      the call. */
  lemma EndIsGenuineIfTrue(w: World, e: Event, turn: TurnId)
    requires Ends(w, e, turn) && (e.FeedTick? || e.Complete? || e.Polled?) && TrueFrom(w, e.now)
    ensures PlayedOut(Step(w, e), e.now) <==> (e.FeedTick? ==> w.playback.live == [])
  {
    EndIsGenuineIff(w, e, turn);
    assert Resident(w, e.now) == Held(w, e.now);
    if e.FeedTick? {
      FeedEndPlaysOut(w, e.now, turn);
    } else {
      CompletionBelievesEmpty(w, e, turn);
    }
  }

  /** Where what is left is what should be left: the feeder as before; a completion
      exactly if the pacing is anchored, or the last hand-over that reset it has had
      the time it takes to play. */
  lemma EndIsGenuineIffTracked(w: World, until: Instant, e: Event, turn: TurnId)
    requires Ends(w, e, turn) && (e.FeedTick? || e.Complete? || e.Polled?) && Tracks(w, until, e.now)
    ensures PlayedOut(Step(w, e), e.now) <==>
      if e.FeedTick? then w.playback.live == [] else w.anchor.Some? || until <= e.now
  {
    EndIsGenuineIff(w, e, turn);
    assert Held(w, e.now) == Expected(w, until, e.now);
    if e.FeedTick? {
      FeedEndPlaysOut(w, e.now, turn);
    } else {
      CompletionBelievesEmpty(w, e, turn);
    }
  }

  lemma BeginsTrue(tts: bool)
    ensures Underestimates(Begin(tts)) && TrueFrom(Begin(tts), 0) && Tracks(Begin(tts), 0, 0)
  {
  }

  /** After any run of sound feeds, whichever step ends the reply, the feeder's own
      knowledge tells exactly whether it has been played out. */
  lemma SoundRunsEndGenuinelyIff(tts: bool, events: seq<Event>, last: Event, turn: TurnId)
    requires Legit(Begin(tts), events) && ClockedRun(events, 0) && SoundRun(Begin(tts), 0, events)
    requires Ends(Run(Begin(tts), events), last, turn) && EndClock(events, 0) <= Clock(last, EndClock(events, 0))
    ensures last.FeedTick? || last.Complete? || last.Polled?
    ensures
      var w := Run(Begin(tts), events);
      PlayedOut(Step(w, last), last.now) <==>
        if last.FeedTick? then w.playback.live == []
        else w.anchor.Some? || UntilAfter(Begin(tts), 0, events) <= last.now
  {
    var w := Run(Begin(tts), events);
    BeginsOk(tts);
    BeginsTrue(tts);
    RunIsTrackedIff(Begin(tts), 0, events, 0);
    EndIsGenuineIff(w, last, turn);
    LaterTracks(w, UntilAfter(Begin(tts), 0, events), EndClock(events, 0), last.now);
    EndIsGenuineIffTracked(w, UntilAfter(Begin(tts), 0, events), last, turn);
  }
}
