/** The playback queues over any history of calls, in any order and for any turns. */
module PlaybackTheorems {
  import opened Wrappers
  import opened SessionTypes
  import opened Sequences
  import opened Arithmetic
  import opened Playback

  datatype Call<T> =
    | Starts(turn: TurnId)
    | Parks
    | Flushes
    | Abandons(turn: TurnId)
    | Resumes(turn: TurnId)
    | Routes(turn: TurnId, samples: seq<T>)
    | Takes(count: nat)

  function Apply<T>(p: Playback<T>, call: Call<T>): Playback<T> {
    match call
    case Starts(turn) => Start(p, turn)
    case Parks => Park(p)
    case Flushes => Flush(p)
    case Abandons(turn) => Abandon(p, turn)
    case Resumes(turn) => Resume(p, turn)
    case Routes(turn, samples) => Route(p, turn, samples)
    case Takes(count) => p.(live := p.live[Min(|p.live|, count)..])
  }

  function After<T>(calls: seq<Call<T>>): Playback<T> {
    if calls == [] then Empty() else Apply(After(calls[..|calls| - 1]), calls[|calls| - 1])
  }

  // ---- Who is abandoned, live and on hold ----

  /** Its synthesis was cancelled and it was not started since. */
  predicate GivenUp<T>(calls: seq<Call<T>>, turn: TurnId) {
    calls != [] &&
    match calls[|calls| - 1]
    case Abandons(other) => other == turn || GivenUp(calls[..|calls| - 1], turn)
    case Starts(other) => other != turn && GivenUp(calls[..|calls| - 1], turn)
    case _ => GivenUp(calls[..|calls| - 1], turn)
  }

  lemma {:induction false} AbandonedIsGivenUp<T>(calls: seq<Call<T>>, turn: TurnId)
    ensures turn in After(calls).abandoned <==> GivenUp(calls, turn)
  {
    if calls != [] {
      AbandonedIsGivenUp(calls[..|calls| - 1], turn);
    }
  }

  /** The turns that may be heard now and that may be resumed. */
  datatype Floor = Floor(live: Option<TurnId>, held: Option<TurnId>)

  /** The floor, told by the calls: starting a turn gives it the floor, stopping
      playback puts the turn that has it on hold, and only that turn can be resumed;
      a cancelled turn loses both. */
  function FloorAfter<T>(calls: seq<Call<T>>): Floor {
    if calls == [] then Floor(None, None)
    else
      var f := FloorAfter(calls[..|calls| - 1]);
      match calls[|calls| - 1]
      case Starts(turn) => Floor(Some(turn), f.held)
      case Parks => if f.live.Some? then Floor(None, f.live) else f
      case Abandons(turn) =>
        Floor(if f.live == Some(turn) then None else f.live, if f.held == Some(turn) then None else f.held)
      case Resumes(turn) => if f.held == Some(turn) then Floor(Some(turn), None) else f
      case Flushes | Routes(_, _) | Takes(_) => f
  }

  lemma {:induction false} FloorIsTold<T>(calls: seq<Call<T>>)
    ensures After(calls).liveTurn == FloorAfter(calls).live
    ensures FloorAfter(calls).held == if After(calls).paused.Some? then Some(After(calls).paused.value.turn) else None
  {
    if calls != [] {
      FloorIsTold(calls[..|calls| - 1]);
    }
  }

  // ---- Where arriving audio goes ----

  /** Audio for the turn is wanted, live or for later. */
  predicate Wanted<T>(calls: seq<Call<T>>, turn: TurnId) {
    !GivenUp(calls, turn) && (FloorAfter(calls).live == Some(turn) || FloorAfter(calls).held == Some(turn))
  }

  /** How many results were not. */
  function Unwanted<T>(calls: seq<Call<T>>): nat {
    if calls == [] then 0
    else
      var before, last := calls[..|calls| - 1], calls[|calls| - 1];
      Unwanted(before) + if last.Routes? && !Wanted(before, last.turn) then 1 else 0
  }

  /** The stale count is the number of results nobody wanted any more. */
  lemma {:induction false} StaleIsUnwanted<T>(calls: seq<Call<T>>)
    ensures After(calls).stale == Unwanted(calls)
  {
    if calls != [] {
      var before, last := calls[..|calls| - 1], calls[|calls| - 1];
      StaleIsUnwanted(before);
      if last.Routes? {
        AbandonedIsGivenUp(before, last.turn);
        FloorIsTold(before);
      }
    }
  }

  /** What is queued for the turn, live or on hold. */
  function QueueOf<T>(p: Playback<T>, turn: TurnId): seq<T> {
    if p.liveTurn == Some(turn) then p.live else if IsPaused(p, turn) then p.paused.value.queued else []
  }

  /** After any calls, a result joins its own turn's queue at the end exactly if it is
      wanted, and changes no other queue. */
  lemma ResultsJoinTheirQueue<T>(calls: seq<Call<T>>, turn: TurnId, samples: seq<T>, other: TurnId)
    ensures
      var p := After(calls);
      QueueOf(Route(p, turn, samples), other) ==
        QueueOf(p, other) + if other == turn && Wanted(calls, turn) then samples else []
  {
    var p := After(calls);
    AbandonedIsGivenUp(calls, turn);
    FloorIsTold(calls);
    assert QueueOf(p, other) + [] == QueueOf(p, other);
  }

  /** What the other calls make of a turn's queue: flushing empties the live one,
      stopping playback and cancelling drop it, starting begins it anew, resuming
      brings back what was held. */
  lemma CallsOnQueues<T>(p: Playback<T>, turn: TurnId, other: TurnId)
    requires p.liveTurn != Some(turn) || !IsPaused(p, turn)
    ensures QueueOf(Flush(p), turn) == if p.liveTurn == Some(turn) then [] else QueueOf(p, turn)
    ensures p.liveTurn == Some(turn) ==> QueueOf(Park(p), turn) == [] && IsPaused(Park(p), turn)
    ensures QueueOf(Abandon(p, turn), turn) == []
    ensures other != turn ==> QueueOf(Abandon(p, other), turn) == QueueOf(p, turn)
    ensures QueueOf(Start(p, turn), turn) == []
    ensures IsPaused(p, turn) ==> QueueOf(Resume(p, turn), turn) == QueueOf(p, turn)
    ensures IsPaused(p, turn) ==> Resume(p, turn).liveTurn == Some(turn) && Resume(p, turn).paused.None?
    ensures !IsPaused(p, other) ==> Resume(p, other) == p
  {
  }

  /** A turn that is started anew is heard again, whatever became of it before. */
  lemma StartedTurnsAreHeard<T>(calls: seq<Call<T>>, turn: TurnId, samples: seq<T>)
    ensures
      var p := Route(Start(After(calls), turn), turn, samples);
      p.live == samples && p.liveTurn == Some(turn) && p.stale == After(calls).stale
  {
    assert [] + samples == samples;
  }
}
