/** What an observer who sees only the machine's outputs may rely on: a small
    automaton that accepts legal output sequences, and what acceptance implies
    about any two positions of a sequence. Nothing here mentions the machine. */
module OutputProtocol {
  import opened SessionTypes
  import opened Sequences

  datatype Monitor = Monitor(
    /** The last state reported. */
    shown: SessionState,
    capturing: bool,
    /** The most recently submitted turn, 0 when there is none. */
    last: TurnId,
    /** Whether `last` has been cancelled. */
    cancelled: bool,
    /** Whether a barge-in is unresolved. */
    held: bool,
    /** The largest turn any submission or replay has named. */
    top: TurnId)

  const START := Monitor(Idle, false, 0, false, false, 0)

  /** The state diagram. */
  predicate Edge(a: SessionState, b: SessionState) {
    match a
    case Idle => b == Listening
    case Listening => b == UserSpeaking || b == Idle
    case UserSpeaking => b == Finalizing || b == Idle
    case Finalizing => b == Submitting || b == Listening || b == UserSpeaking || b == Idle
    case Submitting => b == AwaitingAgent || b == Listening || b == UserSpeaking || b == Idle
    case AwaitingAgent => b == AgentSpeaking || b == Listening || b == UserSpeaking || b == Idle
    case AgentSpeaking => b == Listening || b == Interrupting || b == UserSpeaking || b == Idle
    case Interrupting => b == UserSpeaking || b == Submitting || b == AgentSpeaking || b == Idle
  }

  predicate Speaking(m: Monitor) {
    m.shown == AgentSpeaking || m.shown == Interrupting
  }

  predicate Allows(m: Monitor, o: Output) {
    match o
    case StartCapture => !m.capturing && m.shown == Idle
    case StopCapture => m.capturing && !m.held && (Speaking(m) ==> m.cancelled)
    case ShowPartial(_) => !m.held && (m.shown == UserSpeaking || m.shown == Interrupting)
    case SubmitUtterance(t, _) =>
      !m.held && (m.shown == Finalizing || m.shown == Interrupting) && m.last < t && m.top <= t
    case CancelPlayback | FlushOutputBuffer => Speaking(m) && !m.cancelled
    case CancelSynthesis(t) => Speaking(m) && !m.cancelled && t == m.last
    case ReplayPreRoll(t) => m.shown == AgentSpeaking && !m.held && !m.cancelled && m.top < t
    case ResumeSpeaking(t) => m.held && m.shown == Interrupting && t == m.last
    case EmitState(x) => Edge(m.shown, x) && (m.held <==> x == Interrupting) && (m.capturing <==> x != Idle)
  }

  function Next(m: Monitor, o: Output): Monitor {
    match o
    case StartCapture => m.(capturing := true)
    case StopCapture => m.(capturing := false)
    case SubmitUtterance(t, _) => m.(last := t, cancelled := false, top := t)
    case CancelSynthesis(_) => m.(cancelled := true, held := false)
    case ReplayPreRoll(t) => m.(held := true, top := t)
    case ResumeSpeaking(_) => m.(held := false)
    case EmitState(x) => m.(shown := x)
    case ShowPartial(_) | CancelPlayback | FlushOutputBuffer => m
  }

  function Watch(m: Monitor, outs: seq<Output>): Monitor
    decreases |outs|
  {
    if outs == [] then m else Watch(Next(m, outs[0]), outs[1..])
  }

  predicate Legal(m: Monitor, outs: seq<Output>)
    decreases |outs|
  {
    outs == [] || (Allows(m, outs[0]) && Legal(Next(m, outs[0]), outs[1..]))
  }

  lemma {:induction false} LegalConcat(m: Monitor, a: seq<Output>, b: seq<Output>)
    ensures Watch(m, a + b) == Watch(Watch(m, a), b)
    ensures Legal(m, a + b) <==> Legal(m, a) && Legal(Watch(m, a), b)
    decreases |a|
  {
    if a == [] {
      assert a + b == b;
    } else {
      assert (a + b)[1..] == a[1..] + b;
      LegalConcat(Next(m, a[0]), a[1..], b);
    }
  }

  lemma LegalCons(m: Monitor, o: Output, rest: seq<Output>)
    ensures Watch(m, [o] + rest) == Watch(Next(m, o), rest)
    ensures Legal(m, [o] + rest) <==> Allows(m, o) && Legal(Next(m, o), rest)
  {
    assert ([o] + rest)[1..] == rest;
  }

  /** The turn a barge-in output commits to. */
  predicate Resolves(o: Output, turn: TurnId) {
    o == CancelSynthesis(turn) || o == ResumeSpeaking(turn)
  }

  /** How a legal sequence relates to the monitor state it starts from. */
  ghost predicate Ahead(m: Monitor, o: Output) {
    match o
    case SubmitUtterance(t, _) => m.last < t && m.top <= t
    case CancelSynthesis(t) => m.last < t || (m.last == t && !m.cancelled)
    case ResumeSpeaking(t) => m.last < t || (m.last == t && !m.cancelled)
    case ReplayPreRoll(t) => m.top < t
    case _ => true
  }

  ghost predicate Ordered(a: Output, b: Output) {
    match (a, b)
    case (SubmitUtterance(t, _), SubmitUtterance(u, _)) => t < u
    case (SubmitUtterance(t, _), CancelSynthesis(u)) => t <= u
    case (SubmitUtterance(t, _), ReplayPreRoll(u)) => t < u
    case (CancelSynthesis(t), CancelSynthesis(u)) => t < u
    case (CancelSynthesis(t), ResumeSpeaking(u)) => t < u
    case (CancelSynthesis(t), SubmitUtterance(u, _)) => t < u
    case (ReplayPreRoll(t), ReplayPreRoll(u)) => t < u
    case (ReplayPreRoll(t), SubmitUtterance(u, _)) => t <= u
    case _ => true
  }

  ghost predicate Sane(m: Monitor) {
    m.last <= m.top && (m.held ==> !m.cancelled)
  }

  /** Submissions, cancellations and replays name strictly increasing turns, so
      each happens at most once for a turn, and a cancelled turn is never
      resumed or submitted again. */
  lemma {:induction false} TurnsNeverRepeat(m: Monitor, outs: seq<Output>)
    requires Sane(m) && Legal(m, outs)
    ensures Sane(Watch(m, outs))
    ensures forall i :: 0 <= i < |outs| ==> Ahead(m, outs[i])
    ensures forall i, j :: 0 <= i < j < |outs| ==> Ordered(outs[i], outs[j])
    decreases |outs|
  {
    if outs != [] {
      var o, rest := outs[0], outs[1..];
      var m' := Next(m, o);
      TurnsNeverRepeat(m', rest);
      forall i, j | 0 <= i < j < |outs| ensures Ordered(outs[i], outs[j]) {
        if i == 0 {
          assert outs[j] == rest[j - 1] && Ahead(m', rest[j - 1]);
        } else {
          assert outs[i] == rest[i - 1] && outs[j] == rest[j - 1];
        }
      }
      forall i | 0 <= i < |outs| ensures Ahead(m, outs[i]) {
        if i > 0 {
          assert outs[i] == rest[i - 1];
        }
      }
    }
  }

  /** Until it is resolved, a barge-in stays held and blocks the outputs that
      would start another, submit words or close the microphone. */
  lemma {:induction false} HeldUntilResolved(m: Monitor, outs: seq<Output>)
    requires m.held && Legal(m, outs)
    requires forall k :: 0 <= k < |outs| ==> !Resolves(outs[k], m.last)
    ensures Watch(m, outs).held && Watch(m, outs).last == m.last
    ensures forall k :: 0 <= k < |outs| ==>
      !outs[k].ReplayPreRoll? && !outs[k].SubmitUtterance? && !outs[k].StopCapture? && !outs[k].ShowPartial?
    decreases |outs|
  {
    if outs != [] {
      HeldUntilResolved(Next(m, outs[0]), outs[1..]);
    }
  }

  /** The monitor's view of two positions of a legal sequence. */
  lemma TwoPositions(outs: seq<Output>, i: nat, j: nat)
    requires Legal(START, outs)
    requires i < j < |outs|
    ensures
      var m := Watch(START, outs[..i]);
      var n := Next(m, outs[i]);
      Allows(m, outs[i]) && Legal(n, outs[i + 1..j]) && Allows(Watch(n, outs[i + 1..j]), outs[j])
  {
    var m := Watch(START, outs[..i]);
    LegalConcat(START, outs[..i], outs[i..]);
    assert outs == outs[..i] + outs[i..];
    assert outs[i..] == [outs[i]] + outs[i + 1..];
    LegalCons(m, outs[i], outs[i + 1..]);
    assert outs[i + 1..] == outs[i + 1..j] + outs[j..];
    LegalConcat(Next(m, outs[i]), outs[i + 1..j], outs[j..]);
    assert outs[j..][0] == outs[j];
  }

  /** Every barge-in is resolved, by a resume or a cancellation of exactly the
      turn submitted last before it, before the next replay, submission, partial
      transcript or end of capture. */
  lemma BargeInIsResolved(outs: seq<Output>, i: nat, j: nat)
    requires Legal(START, outs)
    requires i < j < |outs| && outs[i].ReplayPreRoll?
    requires outs[j].ReplayPreRoll? || outs[j].SubmitUtterance? || outs[j].StopCapture? || outs[j].ShowPartial?
    ensures exists k :: i < k < j && Resolves(outs[k], Watch(START, outs[..i]).last)
  {
    TwoPositions(outs, i, j);
    var between := outs[i + 1..j];
    var held := Next(Watch(START, outs[..i]), outs[i]);
    if forall k :: 0 <= k < |between| ==> !Resolves(between[k], held.last) {
      HeldUntilResolved(held, between);
      assert false;
    }
    var k :| 0 <= k < |between| && Resolves(between[k], held.last);
    assert outs[i + 1 + k] == between[k];
  }

  /** Whether a barge-in is unresolved when output `l` is made. */
  predicate HeldBefore(outs: seq<Output>, l: nat)
    requires l <= |outs|
  {
    Watch(START, outs[..l]).held
  }

  lemma OneOutput(outs: seq<Output>, l: nat)
    requires Legal(START, outs) && l < |outs|
    ensures Allows(Watch(START, outs[..l]), outs[l])
    ensures Watch(START, outs[..l + 1]) == Next(Watch(START, outs[..l]), outs[l])
  {
    PrefixSnoc(outs, l);
    SplitAt(outs, l + 1);
    LegalConcat(START, outs[..l + 1], outs[l + 1..]);
    LegalConcat(START, outs[..l], [outs[l]]);
    assert [outs[l]][1..] == [];
  }

  /** The output that resolves the barge-in held from `from` on. */
  lemma {:induction false} Release(outs: seq<Output>, from: nat, j: nat) returns (k: nat)
    requires Legal(START, outs) && from <= j < |outs| && outs[j].ReplayPreRoll? && HeldBefore(outs, from)
    ensures from <= k < j && Resolves(outs[k], Watch(START, outs[..from]).last)
    ensures forall l :: from <= l <= k ==> HeldBefore(outs, l)
    ensures forall l :: from <= l < k ==> !outs[l].ResumeSpeaking? && !outs[l].CancelSynthesis?
    ensures !HeldBefore(outs, k + 1)
    decreases j - from
  {
    OneOutput(outs, from);
    if outs[from].ResumeSpeaking? || outs[from].CancelSynthesis? {
      k := from;
    } else {
      k := Release(outs, from + 1, j);
    }
  }

  lemma {:induction false} StaysReleased(outs: seq<Output>, from: nat, j: nat, l: nat)
    requires Legal(START, outs) && from <= l <= j < |outs| && !HeldBefore(outs, from)
    requires forall q :: from <= q < j ==> !outs[q].ReplayPreRoll?
    ensures !HeldBefore(outs, l)
    decreases l
  {
    if l > from {
      StaysReleased(outs, from, j, l - 1);
      OneOutput(outs, l - 1);
    }
  }

  /** Between one replay and the next exactly one output settles the barge-in: the
      turn is on hold up to it and no longer after it, and no other output resumes
      a turn. */
  lemma BargeInIsResolvedOnce(outs: seq<Output>, i: nat, j: nat)
    requires Legal(START, outs)
    requires i < j < |outs| && outs[i].ReplayPreRoll? && outs[j].ReplayPreRoll?
    requires forall l :: i < l < j ==> !outs[l].ReplayPreRoll?
    ensures exists k :: i < k < j && SettlesAlone(outs, i, k, j)
  {
    OneOutput(outs, i);
    var k := Release(outs, i + 1, j);
    forall l | k < l <= j ensures !HeldBefore(outs, l) {
      StaysReleased(outs, k + 1, j, l);
    }
    forall l | i < l < j ensures outs[l].ResumeSpeaking? ==> HeldBefore(outs, l) {
      OneOutput(outs, l);
    }
    assert SettlesAlone(outs, i, k, j);
  }

  ghost predicate SettlesAlone(outs: seq<Output>, i: nat, k: nat, j: nat)
    requires i < k < j < |outs|
  {
    && Resolves(outs[k], Watch(START, outs[..i]).last)
    && (forall l :: i < l <= k ==> HeldBefore(outs, l))
    && (forall l :: k < l <= j ==> !HeldBefore(outs, l))
    && (forall l :: i < l < j && outs[l].ResumeSpeaking? ==> l == k)
  }

  lemma {:induction false} CaptureUnchanged(m: Monitor, outs: seq<Output>)
    requires forall k :: 0 <= k < |outs| ==> !outs[k].StartCapture? && !outs[k].StopCapture?
    ensures Watch(m, outs).capturing == m.capturing
    decreases |outs|
  {
    if outs != [] {
      CaptureUnchanged(Next(m, outs[0]), outs[1..]);
    }
  }

  /** `StartCapture` and `StopCapture` strictly alternate. */
  lemma CaptureAlternates(outs: seq<Output>, i: nat, j: nat)
    requires Legal(START, outs)
    requires i < j < |outs|
    requires outs[i] == outs[j] && (outs[i] == StartCapture || outs[i] == StopCapture)
    ensures exists k :: i < k < j && outs[k] != outs[i] && (outs[k] == StartCapture || outs[k] == StopCapture)
  {
    TwoPositions(outs, i, j);
    var between := outs[i + 1..j];
    var m := Next(Watch(START, outs[..i]), outs[i]);
    if forall k :: 0 <= k < |between| ==> !between[k].StartCapture? && !between[k].StopCapture? {
      CaptureUnchanged(m, between);
      assert false;
    }
    FirstToggle(m, between);
    var k :| 0 <= k < |between| && between[k] == (if m.capturing then StopCapture else StartCapture);
    assert outs[i + 1 + k] == between[k];
  }

  lemma {:induction false} FirstToggle(m: Monitor, outs: seq<Output>)
    requires Legal(m, outs)
    requires exists k :: 0 <= k < |outs| && (outs[k].StartCapture? || outs[k].StopCapture?)
    ensures exists k :: 0 <= k < |outs| && outs[k] == if m.capturing then StopCapture else StartCapture
    decreases |outs|
  {
    if outs[0].StartCapture? || outs[0].StopCapture? {
      assert outs[0] == if m.capturing then StopCapture else StartCapture;
    } else {
      var k :| 0 <= k < |outs| && (outs[k].StartCapture? || outs[k].StopCapture?);
      assert outs[1..][k - 1] == outs[k];
      FirstToggle(Next(m, outs[0]), outs[1..]);
      var q :| 0 <= q < |outs[1..]| && outs[1..][q] == if m.capturing then StopCapture else StartCapture;
      assert outs[q + 1] == outs[1..][q];
    }
  }
}
