/** The agent backend: replies carry no turn on the wire, so each is attributed
    to the most recently submitted turn, and a quiet period stands for the end
    of a turn. Instants are whole ticks of any fixed clock. */
module BuzzAgent {
  import opened Wrappers
  import opened SessionTypes

  type Instant = nat

  datatype AgentEvent = TextChunk(turn: TurnId, text: string) | TurnComplete(turn: TurnId)

  datatype Agent = Agent(
    current: Option<TurnId>,
    lastReply: Option<Instant>,
    /** Replies delivered by the transport and not yet polled. */
    inbox: seq<string>,
    /** What was handed to the transport, in order. */
    published: seq<string>)

  const NEW_AGENT := Agent(None, None, [], [])

  function Submit(a: Agent, turn: TurnId, text: string): Agent {
    a.(current := Some(turn), lastReply := None, published := a.published + [text])
  }

  datatype Polled = Polled(agent: Agent, event: Option<AgentEvent>)

  function Elapsed(since: Instant, now: Instant): nat {
    if since <= now then now - since else 0
  }

  function Poll(a: Agent, now: Instant, quiet: nat): Polled {
    if a.current.None? then Polled(a.(inbox := []), None)
    else if a.inbox != [] then
      Polled(a.(inbox := a.inbox[1..], lastReply := Some(now)), Some(TextChunk(a.current.value, a.inbox[0])))
    else if a.lastReply.Some? && Elapsed(a.lastReply.value, now) >= quiet then
      Polled(a.(lastReply := None), Some(TurnComplete(a.current.value)))
    else Polled(a, None)
  }

  class BuzzAgent {
    const quietPeriod: nat
    var currentTurn: Option<TurnId>
    var lastReplyAt: Option<Instant>
    var inbox: seq<string>
    var published: seq<string>

    function View(): Agent
      reads this
    {
      Agent(currentTurn, lastReplyAt, inbox, published)
    }

    constructor (quietPeriod: nat)
      ensures View() == NEW_AGENT && this.quietPeriod == quietPeriod
    {
      this.quietPeriod := quietPeriod;
      currentTurn, lastReplyAt, inbox, published := None, None, [], [];
    }

    method Deliver(reply: string)
      modifies this
      ensures View() == old(View()).(inbox := old(inbox) + [reply])
    {
      inbox := inbox + [reply];
    }

    method SubmitTurn(turn: TurnId, text: string)
      modifies this
      ensures View() == Submit(old(View()), turn, text)
    {
      currentTurn := Some(turn);
      lastReplyAt := None;
      published := published + [text];
    }

    method PollEvent(now: Instant) returns (event: Option<AgentEvent>)
      modifies this
      ensures Polled(View(), event) == Poll(old(View()), now, quietPeriod)
    {
      while inbox != []
        invariant currentTurn == old(currentTurn) && lastReplyAt == old(lastReplyAt) && published == old(published)
        invariant currentTurn.None? || inbox == old(inbox)
        decreases |inbox|
      {
        var text := inbox[0];
        inbox := inbox[1..];
        if currentTurn.Some? {
          lastReplyAt := Some(now);
          return Some(TextChunk(currentTurn.value, text));
        }
      }
      if currentTurn.Some? && lastReplyAt.Some? {
        if Elapsed(lastReplyAt.value, now) >= quietPeriod {
          lastReplyAt := None;
          return Some(TurnComplete(currentTurn.value));
        }
      }
      event := None;
    }
  }
}
