/** The order in which the program's loop lets things happen, and its clock. */
module LoopOrder {
  import opened SessionTypes
  import opened Sequences
  import opened Conversation
  import opened PlayoutTheorems

  /** The stages of one pass, in their order. */
  const CONTROLS := 0
  const TICKED := 1
  const DETECTORS := 2
  const DEVICES := 3
  const TRANSCRIPTS := 4
  const AGENT := 5
  const RESULTS := 6
  const FED := 7

  function Stage(e: Event): nat {
    match e
    case External(input) => (
      match input
      case SessionStart | SessionEnd | StopRequested | PushToTalkPressed | PushToTalkReleased => CONTROLS
      case Tick(_) => TICKED
      case EndpointEvent(_) | BargeInConfirmed => DETECTORS
      case _ => TRANSCRIPTS)
    case Rebuilt => DEVICES
    case Text(_, _, _) | Complete(_, _) | Polled(_, _, _) => AGENT
    case Synthesized(_, _) | TtsLost => RESULTS
    case FeedTick(_) => FED
    case Replied(_) => CONTROLS
  }

  /** Where the loop is, and the time its ticks have counted, in samples. */
  datatype Place = Place(stage: nat, clock: Instant)

  function SamplesIn(dt: Duration): nat {
    dt * 48 / 1_000_000
  }

  /** A pass takes controls before its tick and everything else after it, stage by
      stage, at the time of the tick. Replies come in at any time. */
  predicate Follows(p: Place, e: Event) {
    e.Replied? ||
    ((if p.stage == CONTROLS then Stage(e) <= TICKED else TICKED < Stage(e) && p.stage <= Stage(e)) &&
     (Timed(e) ==> e.now == p.clock))
  }

  /** The feed is the end of a pass. */
  function Next(p: Place, e: Event): Place {
    match e
    case Replied(_) => p
    case FeedTick(_) => Place(CONTROLS, p.clock)
    case External(Tick(dt)) => Place(TICKED, p.clock + SamplesIn(dt))
    case _ => Place(Stage(e), p.clock)
  }

  function PlaceAfter(events: seq<Event>): Place {
    if events == [] then Place(CONTROLS, 0) else Next(PlaceAfter(events[..|events| - 1]), events[|events| - 1])
  }

  /** Passes one after the other, the last perhaps not finished. */
  predicate InOrder(events: seq<Event>) {
    events == [] ||
    (InOrder(events[..|events| - 1]) && Follows(PlaceAfter(events[..|events| - 1]), events[|events| - 1]))
  }

  /** The run keeps the order and leaves the loop at `p`. */
  predicate OrderedTo(events: seq<Event>, p: Place) {
    InOrder(events) && PlaceAfter(events) == p
  }

  lemma OrderSnoc(events: seq<Event>, p: Place, e: Event)
    requires OrderedTo(events, p) && Follows(p, e)
    ensures OrderedTo(events + [e], Next(p, e))
  {
    WholePrefix(events);
    PrefixOfSnoc(events, e, |events|);
  }

  // ---- What the order promises ----

  /** Time does not go back in such a run, and ends where its ticks have brought it. */
  lemma {:induction false} OrderedRunsAreClocked(events: seq<Event>)
    requires InOrder(events)
    ensures ClockedRun(events, 0) && EndClock(events, 0) <= PlaceAfter(events).clock
  {
    if events != [] {
      var before, last := events[..|events| - 1], events[|events| - 1];
      OrderedRunsAreClocked(before);
      ClockSnoc(before, last, 0);
      WithoutLast(events);
    }
  }

  lemma {:induction false} ClockSnoc(events: seq<Event>, last: Event, from: Instant)
    ensures ClockedRun(events + [last], from) <==>
            ClockedRun(events, from) && EndClock(events, from) <= Clock(last, EndClock(events, from))
    ensures EndClock(events + [last], from) == Clock(last, EndClock(events, from))
    decreases |events|
  {
    if events == [] {
      assert [last][1..] == [];
    } else {
      assert (events + [last])[1..] == events[1..] + [last];
      ClockSnoc(events[1..], last, Clock(events[0], from));
    }
  }
}
