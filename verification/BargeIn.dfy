/** The barge-in detector: sliding windows, gates and a hangover, equal to a
    specification over the frames since the last reset. */
module BargeIn {
  import opened Wrappers
  import opened Arithmetic
  import opened Sequences
  import opened VoiceRuns
  import opened Variation
  import opened ZeroCrossings
  import T = SessionTypes
  import N = NoiseFloor

  datatype Route = Headphones | Speakers | Unknown

  datatype Config = Config(
    frontend: N.Config,
    thresholdDb: real,
    confirmWindow: nat,
    confirmCount: nat,
    erleFloorDb: real,
    warmupFrames: nat,
    minVariance: real,
    hangoverFrames: nat)

  function CountVoiced(window: seq<bool>): nat {
    if window == [] then 0 else (if window[|window| - 1] then 1 else 0) + CountVoiced(window[..|window| - 1])
  }

  /** Enough rates, and enough variation among them. No rates have no
      variance and meet no threshold. */
  predicate Varied(c: Config, rates: seq<real>) {
    |rates| >= c.confirmWindow && rates != [] && Variance(rates) >= c.minVariance
  }

  predicate Confirmed(c: Config, window: seq<bool>) {
    |window| >= c.confirmWindow && CountVoiced(window) >= c.confirmCount
  }

  /** When the echo canceller and the route let speech through. `since` counts the
      frames since playback started, if it is still playing. */
  predicate Open(c: Config, route: Route, erleDb: Option<real>, since: Option<nat>) {
    route == Headphones ||
    (erleDb.Some? && erleDb.value >= c.erleFloorDb && (since.None? || since.value >= c.warmupFrames))
  }

  /** Enough variation in the last `confirmWindow` frames, all of them voiced. */
  predicate Unanimous(c: Config, h: seq<bool>, rates: seq<real>) {
    && 1 <= c.confirmWindow && c.confirmCount <= c.confirmWindow
    && VoicedRun(h) >= c.confirmWindow
    && Variance(Newest(rates, c.confirmWindow)) >= c.minVariance
  }

  // ---- Offline ----

  /** One frame and what was known when it arrived: `since` counts the frames since
      playback started, this one included. */
  datatype Entry = Entry(voiced: bool, zcr: real, route: Route, erleDb: Option<real>, since: Option<nat>)

  function Voicing(log: seq<Entry>): (h: seq<bool>)
    ensures |h| == |log|
  {
    if log == [] then [] else Voicing(log[..|log| - 1]) + [log[|log| - 1].voiced]
  }

  function Rates(log: seq<Entry>): (rates: seq<real>)
    ensures |rates| == |log|
  {
    if log == [] then [] else Rates(log[..|log| - 1]) + [log[|log| - 1].zcr]
  }

  /** The newest frame meets everything that starts speech. */
  predicate Starts(c: Config, log: seq<Entry>) {
    log != [] && Unanimous(c, Voicing(log), Rates(log)) &&
    Open(c, log[|log| - 1].route, log[|log| - 1].erleDb, log[|log| - 1].since)
  }

  function Closing(c: Config): nat {
    Max(1, c.hangoverFrames)
  }

  /** Which frames met everything that starts speech. */
  function Starting(c: Config, log: seq<Entry>): (starts: seq<bool>)
    ensures |starts| == |log|
  {
    if log == [] then [] else Starting(c, log[..|log| - 1]) + [Starts(c, log)]
  }

  /** Some start was never followed by a silent run as long as the hangover. */
  ghost predicate Active(c: Config, log: seq<Entry>) {
    On(Starting(c, log), Voicing(log), Closing(c))
  }

  /** What the frame `e` reports after the frames of `log`. */
  ghost function Report(c: Config, log: seq<Entry>, e: Entry): T.DetectorEvent {
    Verdict(Active(c, log), Active(c, log + [e]))
  }

  lemma LogSnoc(log: seq<Entry>, e: Entry)
    ensures Voicing(log + [e]) == Voicing(log) + [e.voiced] && Rates(log + [e]) == Rates(log) + [e.zcr]
  {
    PrefixOfSnoc(log, e, |log|);
    WholePrefix(log);
  }

  lemma StartingSnoc(c: Config, log: seq<Entry>, e: Entry)
    ensures Starting(c, log + [e]) == Starting(c, log) + [Starts(c, log + [e])]
  {
    PrefixOfSnoc(log, e, |log|);
    WholePrefix(log);
  }

  /** How one frame changes the offline verdict. */
  lemma ActiveSnoc(c: Config, log: seq<Entry>, e: Entry)
    ensures Active(c, log + [e]) <==>
      Starts(c, log + [e]) || (Active(c, log) && SilentRun(Voicing(log + [e])) < Closing(c))
  {
    LogSnoc(log, e);
    StartingSnoc(c, log, e);
    OnSnoc(Starting(c, log), Voicing(log), Starts(c, log + [e]), e.voiced, Closing(c));
  }

  /** A frame that starts speech is voiced, so it does not count towards its end. */
  lemma StartsAreVoiced(c: Config, log: seq<Entry>)
    requires Starts(c, log)
    ensures log[|log| - 1].voiced && SilentRun(Voicing(log)) == 0
  {
    VoicedRunMeans(Voicing(log), c.confirmWindow);
  }

  /** Speech starts exactly when it is off and the newest frame meets everything,
      and ends exactly when it is on and the silent run reaches the hangover. */
  lemma ReportMeans(c: Config, log: seq<Entry>, e: Entry)
    ensures Report(c, log, e) == T.SpeechStart <==> !Active(c, log) && Starts(c, log + [e])
    ensures
      Report(c, log, e) == T.SpeechEnd <==>
      Active(c, log) && SilentRun(Voicing(log + [e])) >= Max(1, c.hangoverFrames)
  {
    ActiveSnoc(c, log, e);
    if Starts(c, log + [e]) {
      StartsAreVoiced(c, log + [e]);
    }
  }

  ghost function Reports(c: Config, log: seq<Entry>): seq<T.DetectorEvent> {
    if log == [] then [] else Reports(c, log[..|log| - 1]) + [Report(c, log[..|log| - 1], log[|log| - 1])]
  }

  /** The events alternate quiet stretches with interruptions, each opened once,
      continued and closed once. */
  lemma {:induction false} ReportsAlternate(c: Config, log: seq<Entry>)
    ensures |Reports(c, log)| == |log| && Alternates(Reports(c, log), Active(c, log))
  {
    if log != [] {
      var before, e := log[..|log| - 1], log[|log| - 1];
      ReportsAlternate(c, before);
      WithoutLast(log);
      AlternatesSnoc(Reports(c, before), Active(c, before), Active(c, log));
    }
  }

  // ---- Runs of the detector ----

  datatype Op =
    | Erle(erleDb: Option<real>)
    | RouteTo(route: Route)
    | Started
    | Stopped
    | Reset
    | Frame(voiced: bool, zcr: real)

  datatype Known = Known(log: seq<Entry>, route: Route, erleDb: Option<real>, since: Option<nat>)

  function EntryOf(k: Known, voiced: bool, zcr: real): Entry {
    Entry(voiced, zcr, k.route, k.erleDb, if k.since.Some? then Some(k.since.value + 1) else None)
  }

  /** What is known after an operation: a reset forgets the frames and the playback
      but neither the route nor the canceller. */
  function Next(k: Known, op: Op): Known {
    match op
    case Erle(erleDb) => k.(erleDb := erleDb)
    case RouteTo(route) => k.(route := route)
    case Started => k.(since := Some(0))
    case Stopped => k.(since := None)
    case Reset => k.(log := [], since := None)
    case Frame(voiced, zcr) =>
      var e := EntryOf(k, voiced, zcr);
      k.(log := k.log + [e], since := e.since)
  }

  const UNKNOWN := Known([], Unknown, None, None)

  function After(k: Known, ops: seq<Op>): Known {
    if ops == [] then k else Next(After(k, ops[..|ops| - 1]), ops[|ops| - 1])
  }

  function Frames(ops: seq<Op>): nat {
    if ops == [] then 0 else Frames(ops[..|ops| - 1]) + if ops[|ops| - 1].Frame? then 1 else 0
  }

  /** The guard stays armed: playback neither stops nor starts anew, and nothing
      resets the detector. */
  predicate Undisturbed(ops: seq<Op>) {
    forall k :: 0 <= k < |ops| ==> !ops[k].Started? && !ops[k].Stopped? && !ops[k].Reset?
  }

  lemma {:induction false} SinceCountsFrames(k: Known, ops: seq<Op>)
    requires Undisturbed(ops)
    ensures After(Next(k, Started), ops).since == Some(Frames(ops))
  {
    if ops != [] {
      SinceCountsFrames(k, ops[..|ops| - 1]);
    }
  }

  // ---- What is known, told by the operations ----

  /** The last value reported of the canceller. */
  function LastErle(ops: seq<Op>): Option<real> {
    if ops == [] then None
    else if ops[|ops| - 1].Erle? then ops[|ops| - 1].erleDb
    else LastErle(ops[..|ops| - 1])
  }

  function LastRoute(ops: seq<Op>): Route {
    if ops == [] then Unknown
    else if ops[|ops| - 1].RouteTo? then ops[|ops| - 1].route
    else LastRoute(ops[..|ops| - 1])
  }

  /** The frames since the last reset, as operations. */
  function FramesHeard(ops: seq<Op>): seq<Op> {
    if ops == [] || ops[|ops| - 1].Reset? then []
    else FramesHeard(ops[..|ops| - 1]) + if ops[|ops| - 1].Frame? then [ops[|ops| - 1]] else []
  }

  /** How many frames came since playback started, unless it has stopped or the
      detector was reset. */
  function FramesPlayed(ops: seq<Op>): Option<nat> {
    if ops == [] then None
    else
      var before := FramesPlayed(ops[..|ops| - 1]);
      match ops[|ops| - 1]
      case Started => Some(0)
      case Stopped | Reset => None
      case Frame(_, _) => if before.Some? then Some(before.value + 1) else None
      case Erle(_) | RouteTo(_) => before
  }

  ghost predicate LogIs(log: seq<Entry>, frames: seq<Op>) {
    |log| == |frames| && forall k :: 0 <= k < |log| ==> frames[k] == Frame(log[k].voiced, log[k].zcr)
  }

  /** A reset forgets what was heard and that something plays; the route and the
      canceller's health are what was last told, whenever that was. */
  lemma {:induction false} KnownIsTold(ops: seq<Op>)
    ensures
      var k := After(UNKNOWN, ops);
      && k.erleDb == LastErle(ops) && k.route == LastRoute(ops) && k.since == FramesPlayed(ops)
      && LogIs(k.log, FramesHeard(ops))
  {
    if ops != [] {
      var before, op := ops[..|ops| - 1], ops[|ops| - 1];
      KnownIsTold(before);
      if op.Frame? {
        LogIsMore(After(UNKNOWN, before).log, FramesHeard(before), EntryOf(After(UNKNOWN, before), op.voiced, op.zcr));
      }
    }
  }

  lemma LogIsMore(log: seq<Entry>, frames: seq<Op>, e: Entry)
    requires LogIs(log, frames)
    ensures LogIs(log + [e], frames + [Frame(e.voiced, e.zcr)])
  {
  }

  lemma FrameMeans(c: Config, k: Known, voiced: bool, zcr: real)
    ensures
      var e := EntryOf(k, voiced, zcr);
      Report(c, k.log, e) == T.SpeechStart <==>
        && !Active(c, k.log) && Unanimous(c, Voicing(k.log + [e]), Rates(k.log + [e]))
        && (|| k.route == Headphones
            || (&& k.erleDb.Some? && k.erleDb.value >= c.erleFloorDb
                && (k.since.None? || k.since.value + 1 >= c.warmupFrames)))
  {
    ReportMeans(c, k.log, EntryOf(k, voiced, zcr));
  }

  /** After any operations, playback starts and the guard is left armed: whatever
      happens meanwhile, on a route with an echo path a frame starts speech exactly
      if it is at least the `warmupFrames`-th, the canceller reports enough
      suppression, and the newest window is voiced and varied. */
  lemma WarmupHolds(c: Config, before: seq<Op>, during: seq<Op>, voiced: bool, zcr: real)
    requires Undisturbed(during)
    requires After(Next(After(UNKNOWN, before), Started), during).route != Headphones
    ensures
      var k := After(Next(After(UNKNOWN, before), Started), during);
      var log := k.log + [EntryOf(k, voiced, zcr)];
      Report(c, k.log, EntryOf(k, voiced, zcr)) == T.SpeechStart <==>
        && !Active(c, k.log) && Frames(during) + 1 >= c.warmupFrames
        && k.erleDb.Some? && k.erleDb.value >= c.erleFloorDb
        && Unanimous(c, Voicing(log), Rates(log))
  {
    var k := After(Next(After(UNKNOWN, before), Started), during);
    SinceCountsFrames(After(UNKNOWN, before), during);
    FrameMeans(c, k, voiced, zcr);
  }

  // ---- The windows ----

  /** The rates the detector holds: those of the voiced run at the end of the
      history, as far as the window reaches. */
  function RunRates(c: Config, h: seq<bool>, rates: seq<real>): seq<real> {
    Newest(rates, Min(c.confirmWindow, VoicedRun(h)))
  }

  lemma {:induction false} CountBounds(window: seq<bool>)
    ensures CountVoiced(window) <= |window|
    ensures (forall k :: 0 <= k < |window| ==> window[k]) ==> CountVoiced(window) == |window|
  {
    if window != [] {
      CountBounds(window[..|window| - 1]);
    }
  }

  /** The k-of-n rule is in truth n-of-n: since the rate window is emptied by every
      silent frame, a start needs every frame of the window voiced, whatever
      smaller count is configured; with a larger count, or no window, there is
      never a start. */
  lemma ConfirmationIsUnanimous(c: Config, h: seq<bool>, rates: seq<real>)
    requires |h| == |rates|
    ensures Confirmed(c, Newest(h, c.confirmWindow)) && Varied(c, RunRates(c, h, rates)) <==> Unanimous(c, h, rates)
  {
    VoicedRunMeans(h, VoicedRun(h));
    VoicedRunMeans(h, c.confirmWindow);
    var window := Newest(h, c.confirmWindow);
    CountBounds(window);
    if VoicedRun(h) >= c.confirmWindow {
      forall k | 0 <= k < |window| ensures window[k] {
        assert window[k] == h[|h| - |window| + k];
      }
    }
  }

  /** The rule as documented, enough voiced frames among the newest and enough
      variation, comes to the verdict the detector comes to. */
  ghost predicate AgreesOn(c: Config, h: seq<bool>, rates: seq<real>) {
    Documented(c, h, rates) <==> Unanimous(c, h, rates)
  }

  predicate Documented(c: Config, h: seq<bool>, rates: seq<real>) {
    Confirmed(c, Newest(h, c.confirmWindow)) && Variance(Newest(rates, c.confirmWindow)) >= c.minVariance
  }

  /** Whether any window of rates varies enough. */
  predicate Attainable(c: Config) {
    c.minVariance <= Peak(c.confirmWindow)
  }

  /** The documented rule agrees with the detector on every history exactly if the
      count is no smaller than the window, or no window can vary enough to start
      anything. */
  lemma CountRuleHoldsIff(c: Config)
    ensures
      (forall h: seq<bool>, rates: seq<real> :: |h| == |rates| && AreRates(rates) ==> AgreesOn(c, h, rates)) <==>
      c.confirmCount >= Max(1, c.confirmWindow) || !Attainable(c)
  {
    if c.confirmCount >= Max(1, c.confirmWindow) || !Attainable(c) {
      forall h: seq<bool>, rates: seq<real> | |h| == |rates| && AreRates(rates) ensures AgreesOn(c, h, rates) {
        RuleAgrees(c, h, rates);
      }
    } else {
      ExtremesVary(c.confirmWindow);
      RuleDisagrees(c, Extremes(c.confirmWindow));
    }
  }

  lemma RuleAgrees(c: Config, h: seq<bool>, rates: seq<real>)
    requires |h| == |rates| && AreRates(rates)
    requires c.confirmCount >= Max(1, c.confirmWindow) || !Attainable(c)
    ensures AgreesOn(c, h, rates)
  {
    var n := c.confirmWindow;
    VoicedRunMeans(h, n);
    if !Attainable(c) {
      if |h| >= n {
        assert |Newest(rates, n)| == n && AreRates(Newest(rates, n));
        VarianceIsAtMostPeak(Newest(rates, n));
      }
    } else {
      CountBounds(Newest(h, n));
      FullCount(Newest(h, n));
      if |h| >= n {
        assert forall k :: |h| - n <= k < |h| ==> h[k] == Newest(h, n)[k - (|h| - n)];
      }
    }
  }

  /** All but the oldest frame of the window voiced. */
  function LateVoices(n: nat): (h: seq<bool>)
    ensures |h| == n
  {
    if n == 0 then [] else [false] + Voices(n - 1)
  }

  lemma RuleDisagrees(c: Config, rates: seq<real>)
    requires c.confirmCount < Max(1, c.confirmWindow)
    requires |rates| == c.confirmWindow && Variance(rates) >= c.minVariance
    ensures !AgreesOn(c, LateVoices(c.confirmWindow), rates)
  {
    var n := c.confirmWindow;
    if n > 0 {
      LateCount(n - 1);
      VoicedRunMeans(LateVoices(n), n);
      assert !LateVoices(n)[0];
    }
  }

  function Default(frontend: N.Config): Config {
    Config(frontend, 15.0, 4, 3, 12.0, 15, 0.000002, 20)
  }

  /** With the default configuration, 3 in 4, it does not: here are four frames of
      which three are voiced and which vary enough. */
  lemma DefaultsDisagree(frontend: N.Config)
    ensures Extremes(4) == [1.0, 0.0, 1.0, 0.0] && !AgreesOn(Default(frontend), LateVoices(4), Extremes(4))
  {
    assert Extremes(1) == [1.0] && Extremes(2) == [1.0, 0.0] && Extremes(3) == [1.0, 0.0, 1.0];
    ExtremesVary(4);
    RuleDisagrees(Default(frontend), Extremes(4));
  }

  lemma {:induction false} FullCount(window: seq<bool>)
    ensures CountVoiced(window) >= |window| ==> forall k :: 0 <= k < |window| ==> window[k]
  {
    if window != [] {
      FullCount(window[..|window| - 1]);
      CountBounds(window[..|window| - 1]);
      assert forall k :: 0 <= k < |window| - 1 ==> window[k] == window[..|window| - 1][k];
    }
  }

  lemma {:induction false} LateCount(n: nat)
    ensures CountVoiced([false] + Voices(n)) == n
  {
    if n > 0 {
      LateCount(n - 1);
      assert [false] + Voices(n) == ([false] + Voices(n - 1)) + [true];
      assert (([false] + Voices(n - 1)) + [true])[..n] == [false] + Voices(n - 1);
    } else {
      assert [false] + Voices(0) == [false] && [false][..0] == [];
    }
  }

  function PushCapped<X>(buf: seq<X>, value: X, cap: nat): seq<X> {
    if cap == 0 then buf else (if |buf| >= cap then buf[1..] else buf) + [value]
  }

  lemma PushCappedKeepsNewest<X>(history: seq<X>, x: X, cap: nat)
    ensures PushCapped(Newest(history, cap), x, cap) == Newest(history + [x], cap)
  {
    if cap > 0 {
      NewestSnoc(history, x, cap);
    }
  }

  lemma RunRatesSnoc(c: Config, h: seq<bool>, rates: seq<real>, v: bool, x: real)
    requires |h| == |rates|
    ensures RunRates(c, h + [v], rates + [x]) == if v then PushCapped(RunRates(c, h, rates), x, c.confirmWindow) else []
  {
    RunsSnoc(h, v);
    VoicedRunMeans(h, VoicedRun(h));
    var run := VoicedRun(h);
    if v && run < c.confirmWindow {
      assert Newest(rates + [x], run + 1) == Newest(rates, run) + [x];
    } else if v {
      PushCappedKeepsNewest(rates, x, c.confirmWindow);
    }
  }

  /** The countdown of the convergence guard. */
  function Countdown(c: Config, since: Option<nat>): nat {
    if since.None? || since.value >= c.warmupFrames then 0 else c.warmupFrames - since.value
  }

  ghost predicate Holds(
    c: Config, k: Known, erleDb: Option<real>, route: Route, voiced: seq<bool>, rates: seq<real>, warmup: nat)
  {
    && erleDb == k.erleDb && route == k.route
    && voiced == Newest(Voicing(k.log), c.confirmWindow)
    && rates == RunRates(c, Voicing(k.log), Rates(k.log))
    && warmup == Countdown(c, k.since)
  }

  /** Nothing has been heard: empty windows, and no speech. */
  lemma EmptyHolds(c: Config, k: Known)
    requires k.log == [] && k.since.None?
    ensures Holds(c, k, k.erleDb, k.route, [], [], 0) && !Active(c, k.log)
  {
  }

  lemma HoldsNext(
    c: Config, k: Known, erleDb: Option<real>, route: Route, window: seq<bool>, rates: seq<real>, warmup: nat,
    voiced: bool, zcr: real)
    requires Holds(c, k, erleDb, route, window, rates, warmup)
    ensures Holds(c, Next(k, Frame(voiced, zcr)), erleDb, route,
                  PushCapped(window, voiced, c.confirmWindow),
                  if voiced then PushCapped(rates, zcr, c.confirmWindow) else [],
                  if warmup > 0 then warmup - 1 else 0)
  {
    LogSnoc(k.log, EntryOf(k, voiced, zcr));
    PushCappedKeepsNewest(Voicing(k.log), voiced, c.confirmWindow);
    RunRatesSnoc(c, Voicing(k.log), Rates(k.log), voiced, zcr);
  }

  /** The log is that of these frames. */
  ghost predicate Sight(c: Config, log: seq<Entry>, frames: seq<N.AudioFrame>) {
    Voicing(log) == N.Voiced(c.frontend, c.thresholdDb, frames) && Rates(log) == N.Zcrs(frames)
  }

  lemma EmptySight(c: Config)
    ensures Sight(c, [], [])
  {
  }

  lemma SightSnoc(c: Config, k: Known, frames: seq<N.AudioFrame>, frame: N.AudioFrame)
    requires Sight(c, k.log, frames)
    ensures
      var voiced := N.Snr(c.frontend, frames, frame) >= c.thresholdDb;
      Sight(c, Next(k, Frame(voiced, Zcr(frame))).log, frames + [frame])
  {
    N.FramesSnoc(c.frontend, c.thresholdDb, frames, frame);
    LogSnoc(k.log, EntryOf(k, N.Snr(c.frontend, frames, frame) >= c.thresholdDb, Zcr(frame)));
  }

  class BargeInDetector {
    const config: Config
    const frontend: N.VoicingFrontend
    var voicedWindow: seq<bool>
    var zcrWindow: seq<real>
    var active: bool
    var hangoverSilentFrames: nat
    var erleDb: Option<real>
    var route: Route
    var warmupRemaining: nat
    /** What was seen so far, operation by operation. */
    ghost var seen: Known

    /** The windows, the gate and the warm-up hold exactly what was seen. */
    ghost predicate Remembers()
      reads this
    {
      Holds(config, seen, erleDb, route, voicedWindow, zcrWindow, warmupRemaining)
    }

    /** What was seen are the frames the front end has had. */
    ghost predicate Sees()
      reads this, frontend
    {
      frontend.Valid() && frontend.config == config.frontend && Sight(config, seen.log, frontend.frames)
    }

    ghost predicate Valid()
      reads this, frontend
    {
      Listens() && Sees()
    }

    /** The windows and the activity against the offline verdict. */
    ghost predicate Listens()
      reads this
    {
      && Remembers()
      && (active <==> Active(config, seen.log))
      && (active ==> hangoverSilentFrames == SilentRun(Voicing(seen.log)) < Closing(config))
    }

    constructor (config: Config)
      ensures Valid() && this.config == config && seen == UNKNOWN && frontend.frames == [] && fresh(frontend)
    {
      frontend := new N.VoicingFrontend(config.frontend);
      this.config := config;
      voicedWindow, zcrWindow, active, hangoverSilentFrames := [], [], false, 0;
      erleDb, route, warmupRemaining := None, Unknown, 0;
      seen := UNKNOWN;
      EmptyHolds(config, UNKNOWN);
    }

    method SetErle(erleDb: Option<real>)
      requires Valid()
      modifies this`erleDb, this`seen
      ensures Valid() && seen == Next(old(seen), Erle(erleDb))
    {
      this.erleDb := erleDb;
      seen := Next(seen, Erle(erleDb));
    }

    method SetOutputRoute(route: Route)
      requires Valid()
      modifies this`route, this`seen
      ensures Valid() && seen == Next(old(seen), RouteTo(route))
    {
      this.route := route;
      seen := Next(seen, RouteTo(route));
    }

    method NotifyPlaybackStarted()
      requires Valid()
      modifies this`warmupRemaining, this`seen
      ensures Valid() && seen == Next(old(seen), Started)
    {
      warmupRemaining := config.warmupFrames;
      seen := Next(seen, Started);
    }

    method NotifyPlaybackStopped()
      requires Valid()
      modifies this`warmupRemaining, this`seen
      ensures Valid() && seen == Next(old(seen), Stopped)
    {
      warmupRemaining := 0;
      seen := Next(seen, Stopped);
    }

    method Forget()
      requires Remembers()
      modifies this
      ensures Listens() && seen == Next(old(seen), Reset) && !active
    {
      voicedWindow, zcrWindow, active, hangoverSilentFrames := [], [], false, 0;
      warmupRemaining := 0;
      seen := Next(seen, Reset);
      EmptyHolds(config, seen);
    }

    /** Detection history goes; the canceller's health and the route stay. */
    method ResetDetection()
      requires Remembers() && frontend.config == config.frontend
      modifies this, frontend
      ensures Valid() && seen == Next(old(seen), Reset) && frontend.frames == [] && !active
    {
      Forget();
      frontend.Reset();
      EmptySight(config);
    }

    method GateOpen() returns (open: bool)
      requires Remembers()
      ensures open <==> Open(config, route, erleDb, seen.since)
    {
      if route == Headphones {
        return true;
      }
      open := erleDb.Some? && erleDb.value >= config.erleFloorDb && warmupRemaining == 0;
    }

    /** The windows and the warm-up after one frame. */
    method Hear(voiced: bool, zcr: real)
      requires Remembers()
      modifies this`warmupRemaining, this`voicedWindow, this`zcrWindow, this`seen
      ensures Remembers() && seen == Next(old(seen), Frame(voiced, zcr))
    {
      HoldsNext(config, seen, erleDb, route, voicedWindow, zcrWindow, warmupRemaining, voiced, zcr);
      if warmupRemaining > 0 {
        warmupRemaining := warmupRemaining - 1;
      }
      voicedWindow := PushCapped(voicedWindow, voiced, config.confirmWindow);
      if voiced {
        zcrWindow := PushCapped(zcrWindow, zcr, config.confirmWindow);
      } else {
        zcrWindow := [];
      }
      seen := Next(seen, Frame(voiced, zcr));
    }

    /** What the newest frame amounts to, once heard after `k`. */
    method Decide(ghost k: Known, voiced: bool, ghost zcr: real) returns (event: T.DetectorEvent)
      requires Remembers() && seen == Next(k, Frame(voiced, zcr))
      requires active <==> Active(config, k.log)
      requires active ==> hangoverSilentFrames == SilentRun(Voicing(k.log)) < Closing(config)
      modifies this`active, this`hangoverSilentFrames
      ensures Listens() && event == Report(config, k.log, EntryOf(k, voiced, zcr))
    {
      ghost var e := EntryOf(k, voiced, zcr);
      ActiveSnoc(config, k.log, e);
      ReportMeans(config, k.log, e);
      LogSnoc(k.log, e);
      RunsSnoc(Voicing(k.log), voiced);
      if active {
        if voiced {
          hangoverSilentFrames, event := 0, T.SpeechContinue;
        } else {
          hangoverSilentFrames := hangoverSilentFrames + 1;
          if hangoverSilentFrames >= config.hangoverFrames {
            active, hangoverSilentFrames, event := false, 0, T.SpeechEnd;
          } else {
            event := T.SpeechContinue;
          }
        }
      } else {
        event := Confirm();
        if event == T.SpeechStart {
          StartsAreVoiced(config, k.log + [e]);
        }
      }
    }

    /** Whether the newest frame starts speech. */
    method Confirm() returns (event: T.DetectorEvent)
      requires Remembers() && !active && seen.log != []
      requires
        var last := seen.log[|seen.log| - 1];
        last.route == route && last.erleDb == erleDb && last.since == seen.since
      modifies this`active, this`hangoverSilentFrames
      ensures active <==> Starts(config, seen.log)
      ensures event == (if active then T.SpeechStart else T.DetectorEvent.Silence)
      ensures active ==> hangoverSilentFrames == 0
    {
      ConfirmationIsUnanimous(config, Voicing(seen.log), Rates(seen.log));
      var open := GateOpen();
      if Confirmed(config, voicedWindow) && open && Varied(config, zcrWindow) {
        active, hangoverSilentFrames, event := true, 0, T.SpeechStart;
      } else {
        event := T.DetectorEvent.Silence;
      }
    }

    /** One frame of the right length. */
    method HearFrame(voiced: bool, zcr: real) returns (event: T.DetectorEvent)
      requires Listens()
      modifies this
      ensures Listens() && seen == Next(old(seen), Frame(voiced, zcr))
      ensures event == Report(config, old(seen).log, EntryOf(old(seen), voiced, zcr))
    {
      ghost var k := seen;
      Hear(voiced, zcr);
      event := Decide(k, voiced, zcr);
    }

    /** One raw frame: its event is the one that the whole history of frames, and what
        was known at each, has offline. A frame of the wrong length is an error and
        changes nothing. */
    method PushFrame(frame: seq<real>) returns (r: Result<T.DetectorEvent, nat>)
      requires Valid()
      modifies this, frontend
      ensures Valid()
      ensures |frame| != T.FRAME_SAMPLES ==>
        r == Err(|frame|) && frontend.frames == old(frontend.frames) && seen == old(seen)
      ensures |frame| == T.FRAME_SAMPLES ==>
        var voiced := N.Snr(config.frontend, old(frontend.frames), frame) >= config.thresholdDb;
        && frontend.frames == old(frontend.frames) + [frame]
        && seen == Next(old(seen), Frame(voiced, Zcr(frame)))
        && r == Ok(Report(config, old(seen).log, EntryOf(old(seen), voiced, Zcr(frame))))
    {
      ghost var before, k := frontend.frames, seen;
      var features := frontend.Process(frame);
      match features {
        case Err(error) => r := Err(error);
        case Ok(f) =>
          SightSnoc(config, k, before, frame);
          var event := HearFrame(f.snrDb >= config.thresholdDb, f.zcr);
          r := Ok(event);
      }
    }
  }
}
