/** Which synthesised audio may be heard: one live queue, one paused queue for a
    turn on hold, and the set of turns abandoned for good. The sample type is a
    parameter, so nothing here can look inside a sample. */
module Playback {
  import opened Wrappers
  import opened SessionTypes
  import opened Arithmetic

  datatype Paused<T> = Paused(turn: TurnId, queued: seq<T>)

  datatype Playback<T> = Playback(
    live: seq<T>,
    liveTurn: Option<TurnId>,
    paused: Option<Paused<T>>,
    abandoned: set<TurnId>,
    stale: nat)

  function Empty<T>(): Playback<T> {
    Playback([], None, None, {}, 0)
  }

  function Start<T>(p: Playback<T>, turn: TurnId): Playback<T> {
    p.(live := [], liveTurn := Some(turn), abandoned := p.abandoned - {turn})
  }

  function Park<T>(p: Playback<T>): Playback<T> {
    if p.liveTurn.None? then p
    else p.(liveTurn := None, live := [], paused := Some(Paused(p.liveTurn.value, [])))
  }

  function Flush<T>(p: Playback<T>): Playback<T> {
    p.(live := [])
  }

  predicate IsPaused<T>(p: Playback<T>, turn: TurnId) {
    p.paused.Some? && p.paused.value.turn == turn
  }

  function Abandon<T>(p: Playback<T>, turn: TurnId): Playback<T> {
    var q := p.(abandoned := p.abandoned + {turn});
    var r := if p.liveTurn == Some(turn) then q.(liveTurn := None, live := []) else q;
    if IsPaused(p, turn) then r.(paused := None) else r
  }

  function Resume<T>(p: Playback<T>, turn: TurnId): Playback<T> {
    if IsPaused(p, turn) then p.(liveTurn := Some(turn), live := p.paused.value.queued, paused := None) else p
  }

  function Route<T>(p: Playback<T>, turn: TurnId, samples: seq<T>): Playback<T> {
    if turn in p.abandoned then p.(stale := p.stale + 1)
    else if p.liveTurn == Some(turn) then p.(live := p.live + samples)
    else if IsPaused(p, turn) then p.(paused := Some(Paused(turn, p.paused.value.queued + samples)))
    else p.(stale := p.stale + 1)
  }

  predicate Recognises<T>(p: Playback<T>, turn: TurnId) {
    p.liveTurn == Some(turn) || IsPaused(p, turn)
  }

  class PlaybackState<T> {
    var live: seq<T>
    var liveTurn: Option<TurnId>
    var paused: Option<Paused<T>>
    var abandoned: set<TurnId>
    var staleChunksDropped: nat

    function View(): Playback<T>
      reads this
    {
      Playback(live, liveTurn, paused, abandoned, staleChunksDropped)
    }

    constructor ()
      ensures View() == Empty()
    {
      live, liveTurn, paused, abandoned, staleChunksDropped := [], None, None, {}, 0;
    }

    method StartTurn(turn: TurnId)
      modifies this
      ensures View() == Start(old(View()), turn)
    {
      live := [];
      liveTurn := Some(turn);
      abandoned := abandoned - {turn};
    }

    method CancelPlayback() returns (interrupted: Option<TurnId>)
      modifies this
      ensures View() == Park(old(View()))
      ensures interrupted == old(liveTurn)
    {
      interrupted := liveTurn;
      if interrupted.Some? {
        liveTurn := None;
        live := [];
        paused := Some(Paused(interrupted.value, []));
      }
    }

    method FlushLive()
      modifies this
      ensures View() == Flush(old(View()))
    {
      live := [];
    }

    method CancelSynthesis(turn: TurnId)
      modifies this
      ensures View() == Abandon(old(View()), turn)
    {
      abandoned := abandoned + {turn};
      if liveTurn == Some(turn) {
        liveTurn := None;
        live := [];
      }
      if paused.Some? && paused.value.turn == turn {
        paused := None;
      }
    }

    method ResumeTurn(turn: TurnId) returns (resumed: bool)
      modifies this
      ensures View() == Resume(old(View()), turn)
      ensures resumed <==> IsPaused(old(View()), turn)
    {
      if paused.Some? && paused.value.turn == turn {
        liveTurn := Some(turn);
        live := paused.value.queued;
        paused := None;
        resumed := true;
      } else {
        resumed := false;
      }
    }

    method RouteSynthesized(turn: TurnId, samples: seq<T>)
      modifies this
      ensures View() == Route(old(View()), turn, samples)
    {
      if turn in abandoned {
        staleChunksDropped := staleChunksDropped + 1;
        return;
      }
      if liveTurn == Some(turn) {
        live := live + samples;
        return;
      }
      if paused.Some? && paused.value.turn == turn {
        paused := Some(Paused(turn, paused.value.queued + samples));
        return;
      }
      staleChunksDropped := staleChunksDropped + 1;
    }

    method TakeLive(maxSamples: nat) returns (chunk: seq<T>)
      modifies this`live
      ensures chunk == old(live)[..Min(|old(live)|, maxSamples)]
      ensures chunk + live == old(live)
    {
      var n := Min(|live|, maxSamples);
      chunk := live[..n];
      live := live[n..];
    }
  }
}
