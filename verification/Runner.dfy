/**
 The mission state machine (`agent/darkview_agent/mission/runner.py`).

 Every device call may raise: the model asks `Either()`, which answers either way. What a
 frame shows, where a solve lands and how far it is off are likewise arbitrary. The safety
 envelope and the sky conversion are functions the runner is given and never looks into.
 Times are seconds; `at` is the observatory's wall clock, `clock` the monotonic one, which
 may advance at every reading.
 */
module Runner {
  import opened Common
  import opened Missions
  import opened Stacks
  import W = Watch

  const MAX_CENTERING_ITERATIONS := 3
  const MAX_SOLVE_ATTEMPTS := 3

  // ------------------------------------------------------------------
  // What the runner keeps for a mission
  // ------------------------------------------------------------------

  /** A capture's settings. The source's constructor refuses fewer than one frame. */
  datatype Settings = Settings(exposure: real, gain: int, frames: nat)

  predicate SettingsOk(s: Settings) { s.frames >= 1 }

  /** `disc`: a Moon or planet, measured by centroid. `autoExposes`: it has an imaging profile. */
  datatype Request = Request(ra: real, dec: real, frames: nat, exposure: real, gain: int,
                             override: bool, disc: bool, autoExposes: bool)

  datatype Job = LiveJob | ExposeJob | SolveJob
  datatype Focus = AutofocusRun | FocusMove

  datatype Progress = Progress(
    request: Request,
    aimRa: real,
    aimDec: real,
    stateEntered: real,
    centeringIterations: nat,
    solveAttempts: nat,
    solved: Option<(real, real)>,
    disc: Option<(real, real)>,
    focus: Option<Focus>,
    framesCaptured: nat,
    exposureStarted: bool,
    job: Option<Job>,
    liveExposure: real,
    liveGain: int,
    captureSettings: Option<Settings>,
    acquired: bool,
    observingSince: Option<real>,
    sessionEnd: Option<real>,
    autoExposure: Option<(real, int)>,
    correcting: bool,
    stale: bool,
    suspended: bool,
    captureId: Option<nat>,
    stacked: bool,
    parked: bool,
    completedAt: Option<real>)

  function FirstProgress(request: Request, mono: real): Progress {
    Progress(request, request.ra, request.dec, mono, 0, 0, None, None, None, 0, false, None,
             request.exposure, request.gain, None, false, None, None, None, false, false, false,
             None, false, false, None)
  }

  /** What a solve exposes at: a disc needs the settings of the live view. */
  function SolveFrame(g: Progress): Frame {
    if g.request.disc then Frame(g.liveExposure, g.liveGain) else Frame(g.request.exposure, g.request.gain)
  }

  /** The safety envelope in force, as the runner sees it. */
  datatype Envelope = Envelope(hasSite: bool, measured: bool, slewTimeout: real,
                               permitted: (real, real, real, bool) -> bool)

  // ------------------------------------------------------------------
  // What is recorded about a run
  // ------------------------------------------------------------------

  datatype Call = StopFocus | StopExposure | HaltSlew | Park

  /** A device call made, and whether it raised. */
  datatype Attempt = Attempt(call: Call, raised: bool)

  function Calls(attempts: seq<Attempt>): seq<Call> {
    seq(|attempts|, i requires 0 <= i < |attempts| => attempts[i].call)
  }

  /** First the camera, then the motion, and Park last. */
  const PARKING := [StopExposure, HaltSlew, Park]

  /** A mission's ending, and what it attempted. */
  datatype Ending = Ending(state: State, attempts: seq<Attempt>)

  predicate EndingParks(e: Ending) {
    Calls(e.attempts) == PARKING || Calls(e.attempts) == [StopFocus] + PARKING
  }

  /** A slew, with everything the envelope was asked about it. */
  datatype Slew = Slew(at: real, altitude: real, azimuth: real, override: bool, envelope: Envelope)

  predicate Permitted(s: Slew) {
    s.envelope.permitted(s.at, s.altitude, s.azimuth, s.override)
  }

  predicate AllPermitted(slews: seq<Slew>) {
    forall i :: 0 <= i < |slews| ==> Permitted(slews[i])
  }

  /** A capture handed over: which accepted request it answers, and what it is made of. */
  datatype Delivery = Delivery(request: nat, command: nat, frames: seq<Frame>, taken: nat, settings: Settings)

  /** `accepted` lists every accepted CAPTURE in order. `centringSlews` counts the centring slews
      commanded in one acquisition. `solvedAt` and `recentred` hold, for each solve and for each
      RECENTER, how many events the history then had. `corrective` holds the times at which this
      mission's corrective slews were granted, `discs` those of them that were of a disc,
      refused or not. */
  datatype Trace = Trace(
    endings: seq<Ending>,
    slews: seq<Slew>,
    accepted: seq<(nat, Settings)>,
    delivered: seq<Delivery>,
    centringSlews: nat,
    solvedAt: seq<nat>,
    recentred: seq<nat>,
    corrective: seq<real>,
    discs: seq<real>)

  /** The record of the same mission, some time later: nothing in it is taken back, and no
      RECENTER was carried out. */
  ghost predicate Onward(t: Trace, t': Trace) {
    && t.endings <= t'.endings && t.slews <= t'.slews && t.delivered <= t'.delivered
    && t.solvedAt <= t'.solvedAt && t.corrective <= t'.corrective && t.discs <= t'.discs
    && t'.accepted == t.accepted && t'.recentred == t.recentred
  }

  /** What holds of the record whatever was asked. */
  ghost predicate Longer(t: Trace, t': Trace) {
    && t.endings <= t'.endings && t.slews <= t'.slews && t.delivered <= t'.delivered
    && t.accepted <= t'.accepted && t.solvedAt <= t'.solvedAt && t.recentred <= t'.recentred
  }

  /** The terminal states of a history, in order. */
  function TerminalStates(h: seq<Event>): seq<State> {
    if h == [] then []
    else TerminalStates(h[..|h| - 1]) + if Terminal(h[|h| - 1].state) then [h[|h| - 1].state] else []
  }

  lemma TerminalStatesAppend(h: seq<Event>, e: Event)
    ensures TerminalStates(h + [e]) == TerminalStates(h) + if Terminal(e.state) then [e.state] else []
  {
    assert (h + [e])[..|h|] == h;
  }

  /** Each ending in the history made its own attempt to park, in order. */
  ghost predicate EndingsPark(h: seq<Event>, endings: seq<Ending>) {
    && TerminalStates(h) == seq(|endings|, i requires 0 <= i < |endings| => endings[i].state)
    && forall i :: 0 <= i < |endings| ==> EndingParks(endings[i])
  }

  // ------------------------------------------------------------------
  // What holds of a capture
  // ------------------------------------------------------------------

  predicate AllExposedAt(frames: seq<Frame>, s: Settings) {
    forall f :: f in frames ==> f == Frame(s.exposure, s.gain)
  }

  /** The promise about one delivered capture. */
  predicate DeliveryOk(d: Delivery, accepted: seq<(nat, Settings)>) {
    && d.request < |accepted|
    && accepted[d.request] == (d.command, d.settings)
    && AllExposedAt(d.frames, d.settings)
    && 1 <= |d.frames| <= d.taken <= d.settings.frames
  }

  /** Every delivery is good, and they answer ever later requests: none is answered twice. */
  ghost predicate DeliveriesOk(delivered: seq<Delivery>, accepted: seq<(nat, Settings)>) {
    && (forall i :: 0 <= i < |delivered| ==> DeliveryOk(delivered[i], accepted))
    && (forall i, j :: 0 <= i < j < |delivered| ==> delivered[i].request < delivered[j].request)
  }

  /** The capture in hand: its command is the last accepted, not delivered yet; before the
      run its stack is empty, and during it the stack holds only its own frames. */
  ghost predicate CaptureOk(state: State, g: Progress, stack: Stack, camera: Frame,
                            accepted: seq<(nat, Settings)>, delivered: seq<Delivery>)
  {
    && (state in {Capturing, Processing} ==> g.captureId.Some?)
    && (g.captureId.Some? ==>
          && g.captureSettings.Some? && SettingsOk(g.captureSettings.value)
          && |accepted| > 0
          && accepted[|accepted| - 1] == (g.captureId.value, g.captureSettings.value)
          && (delivered != [] ==> delivered[|delivered| - 1].request < |accepted| - 1)
          && AllExposedAt(stack.frames, g.captureSettings.value)
          && |stack.frames| <= g.framesCaptured <= g.captureSettings.value.frames
          && (state !in {Capturing, Processing} ==> g.framesCaptured == 0)
          && (state == Capturing ==> g.framesCaptured < g.captureSettings.value.frames)
          && (state == Capturing && g.exposureStarted ==>
                camera == Frame(g.captureSettings.value.exposure, g.captureSettings.value.gain)))
    && (state == Observing ==> !g.exposureStarted)
  }

  // ------------------------------------------------------------------
  // What holds of an acquisition
  // ------------------------------------------------------------------

  function CorrectedRa(g: Progress): real
    requires g.solved.Some?
  {
    var turned := g.aimRa + g.request.ra - g.solved.value.0;
    turned - 24.0 * (turned / 24.0).Floor as real
  }

  function CorrectedDec(g: Progress): real
    requires g.solved.Some?
  {
    g.aimDec + g.request.dec - g.solved.value.1
  }

  /** Aimed where the correction says, and as far off as before, the mount is on the object: its
      declination is, and its right ascension up to whole turns. */
  lemma CorrectionTakesOut(g: Progress, offRa: real, offDec: real, turns: int)
    requires g.solved == Some((g.aimRa + offRa - 24.0 * turns as real, g.aimDec + offDec))
    ensures 0.0 <= CorrectedRa(g) < 24.0
    ensures SameDirection(CorrectedRa(g) + offRa, g.request.ra)
    ensures CorrectedDec(g) + offDec == g.request.dec
  {
    var turned := g.aimRa + g.request.ra - g.solved.value.0;
    assert TurnsApart(CorrectedRa(g) + offRa, g.request.ra, turns - (turned / 24.0).Floor);
  }

  ghost predicate SameDirection(x: real, y: real) { exists n :: TurnsApart(x, y, n) }

  predicate TurnsApart(x: real, y: real, n: int) { x == y + 24.0 * n as real }

  predicate PastPole(g: Progress)
    requires g.solved.Some?
  {
    !(-90.0 <= CorrectedDec(g) <= 90.0)
  }

  predicate Measured(g: Progress) {
    if g.request.disc then g.disc.Some? else g.solved.Some?
  }

  function Times(s: seq<nat>, n: nat): nat {
    if s == [] then 0 else Times(s[..|s| - 1], n) + if s[|s| - 1] == n then 1 else 0
  }

  lemma TimesPush(s: seq<nat>, x: nat)
    ensures forall n :: Times(s + [x], n) == Times(s, n) + if x == n then 1 else 0
  {
    assert (s + [x])[..|s|] == s;
  }

  /** Never a fourth solve between two events. */
  ghost predicate SolvesOk(solvedAt: seq<nat>, events: nat) {
    && (forall n :: Times(solvedAt, n) <= MAX_SOLVE_ATTEMPTS)
    && (forall n :: n > events ==> Times(solvedAt, n) == 0)
  }

  lemma SolvesPush(solvedAt: seq<nat>, events: nat)
    requires SolvesOk(solvedAt, events) && Times(solvedAt, events) < MAX_SOLVE_ATTEMPTS
    ensures SolvesOk(solvedAt + [events], events)
    ensures Times(solvedAt + [events], events) == Times(solvedAt, events) + 1
  {
    TimesPush(solvedAt, events);
  }

  /** How often the acquisition in hand has slewed from CENTERING. */
  function CentringSlews(h: seq<Event>): nat {
    if h == [] || h[|h| - 1].state in {Preparing, Observing} then 0
    else CentringSlews(h[..|h| - 1])
         + if h[|h| - 1].state == Slewing && |h| > 1 && h[|h| - 2].state == Centering then 1 else 0
  }

  /** Never a fourth time, in any acquisition of the history. */
  predicate Centred(h: seq<Event>) {
    h != [] ==> Centred(h[..|h| - 1]) && CentringSlews(h) <= MAX_CENTERING_ITERATIONS
  }

  /** And as many have been commanded. */
  ghost predicate CentringOk(h: seq<Event>, commanded: nat) {
    Centred(h) && CentringSlews(h) <= commanded <= MAX_CENTERING_ITERATIONS
  }

  lemma CentringPush(h: seq<Event>, commanded: nat, e: Event)
    requires CentringOk(h, commanded)
    requires h != [] && h[|h| - 1].state == Centering && e.state == Slewing ==> CentringSlews(h) < commanded
    ensures CentringOk(h + [e], commanded)
  {
    assert (h + [e])[..|h|] == h;
  }

  ghost predicate AcquisitionOk(state: State, failure: Option<Reason>, g: Progress, centringSlews: nat,
                                solvedAt: seq<nat>, recentred: seq<nat>, events: nat)
  {
    && (!Terminal(state) ==>
          && centringSlews <= g.centeringIterations <= MAX_CENTERING_ITERATIONS
          && g.solveAttempts <= MAX_SOLVE_ATTEMPTS
          && Times(solvedAt, events) <= (if state == Verifying then g.solveAttempts else 0)
          && (state == Verifying ==> g.solveAttempts < MAX_SOLVE_ATTEMPTS)
          && (state in {Preparing, Slewing} ==> g.solveAttempts == 0))
    && (state == Preparing ==> !g.acquired)
    && (state in {Observing, Capturing, Processing} ==> g.acquired)
    && (state == Centering ==> Measured(g))
    && (state == Centering && g.acquired ==>
          && g.centeringIterations < MAX_CENTERING_ITERATIONS
          && (events !in recentred && !g.request.disc ==> !PastPole(g)))
    && (failure == Some(PlateSolveFailed) ==> !g.acquired)
    && (failure == Some(CenteringExhausted) && g.acquired ==> events > 0 && events - 1 in recentred)
    && (failure.Some? ==> Terminal(state))
  }

  /** What the camera and the mount are doing, by state. */
  predicate JobsOk(state: State, g: Progress) {
    && (g.job.Some? || g.focus.Some? ==> state == Observing)
    && (g.autoExposure.Some? ==> g.job in {None, Some(ExposeJob)} && !g.correcting)
    && (g.correcting ==> g.job.None?)
    && (state in {Preparing, Slewing, Verifying, Centering} ==> !g.correcting && g.autoExposure.None?)
  }

  /** The runner reports an outcome to the watch only for the step the watch last issued. */
  ghost predicate WatchFollowed(g: Progress, v: W.View) {
    var (p, stay) := (v.p, v.stay);
    && (g.job == Some(SolveJob) ==>
          && p.pending != Some(W.Recentre)
          && (p.status == W.Recovering ==> stay.outstanding == Some(W.Solve)))
    && (g.autoExposure.Some? && p.status == W.Recovering ==> stay.outstanding == Some(W.AutoExpose))
    && (g.correcting && p.status == W.Recovering ==> stay.outstanding == Some(W.Recentre))
  }

  /** A step of the ladder is in the runner's hands: a solve exposing, a run of auto exposure
      or a corrective slew. */
  predicate UnderWay(g: Progress) {
    g.job == Some(SolveJob) || g.autoExposure.Some? || g.correcting
  }

  /** The step the watch last issued is still in the runner's hands, unless it has been
      reported or dropped. */
  ghost predicate InHand(g: Progress, v: W.View) {
    v.p.status == W.Recovering && v.stay.outstanding.Some? ==>
      match v.stay.outstanding.value
      case AutoExpose => g.autoExposure.Some?
      case Solve => g.job == Some(SolveJob)
      case Recentre => g.correcting
  }

  /** The watch once a step is dropped, of which it is not told. */
  function Dropping(watch: Option<W.View>, need: W.Need): Option<W.View> {
    if watch.None? then None else Some(W.OnDropped(watch.value, need))
  }

  ghost predicate MissionOk(state: State, failure: Option<Reason>, g: Progress, stack: Stack,
                            camera: Frame, t: Trace, events: nat)
  {
    && AcquisitionOk(state, failure, g, t.centringSlews, t.solvedAt, t.recentred, events)
    && (!Terminal(state) ==> JobsOk(state, g) && CaptureOk(state, g, stack, camera, t.accepted, t.delivered))
  }

  /** The observing deadline: the session's end, or the observing ceiling. */
  predicate PastDeadline(g: Progress, at: real, mono: real, ceiling: real) {
    || (g.sessionEnd.Some? && g.sessionEnd.value - at <= 0.0)
    || (g.observingSince.Some? && ceiling - (mono - g.observingSince.value) <= 0.0)
  }

  // ------------------------------------------------------------------
  // The state of the runner, and how it changes
  // ------------------------------------------------------------------

  /** Everything the runner holds: the mission in hand, its watch, and the history. */
  datatype Mission = Mission(
    started: bool,
    offers: nat,
    state: State,
    failure: Option<Reason>,
    g: Progress,
    stack: Stack,
    camera: Frame,
    watch: Option<W.View>,
    history: seq<Event>,
    clock: real)

  /** Every corrective slew of this mission was charged to its watch. */
  ghost predicate SlewsCharged(watch: Option<W.View>, corrective: seq<real>) {
    if watch.None? then corrective == [] else W.Covered(corrective, watch.value.wear.charged)
  }

  /** Every correction of a disc this mission's watch has granted. */
  ghost predicate DiscsRecorded(watch: Option<W.View>, discs: seq<real>) {
    discs == if watch.None? then [] else watch.value.wear.discCharged
  }

  /** The mission in hand is the latest in the history, and it counts as acquired once it has
      been OBSERVING. */
  ghost predicate ObservedIsAcquired(h: seq<Event>, offers: nat, acquired: bool) {
    && (forall i :: 0 <= i < |h| ==> h[i].mission <= offers)
    && (forall i :: 0 <= i < |h| && h[i] == Event(offers, Observing) ==> acquired)
  }

  lemma ObservedPush(h: seq<Event>, offers: nat, acquired: bool, e: Event, acquired': bool)
    requires ObservedIsAcquired(h, offers, acquired) && e.mission >= offers && (e.state == Observing ==> acquired')
    requires e.mission == offers && acquired ==> acquired'
    ensures ObservedIsAcquired(h + [e], e.mission, acquired')
  {
  }

  /** Each RECENTER came before or after some event of the history. */
  ghost predicate RecentredBy(recentred: seq<nat>, events: nat) {
    forall i :: 0 <= i < |recentred| ==> recentred[i] <= events
  }

  /** The history is legal, its endings attempted to park, and it ends with the mission in hand. */
  ghost predicate HistoryOk(h: seq<Event>, endings: seq<Ending>, started: bool, offers: nat, state: State) {
    && LegalHistory(h) && EndingsPark(h, endings)
    && if started then h != [] && h[|h| - 1] == Event(offers, state) else h == [] && offers == 0
  }

  lemma HistoryPush(h: seq<Event>, endings: seq<Ending>, started: bool, offers: nat, state: State, e: Event)
    requires HistoryOk(h, endings, started, offers, state) && Live(e.state)
    requires if started then Follows(Event(offers, state), e) else e == Event(1, Preparing)
    ensures HistoryOk(h + [e], endings, true, e.mission, e.state)
  {
    LegalAppend(h, e);
    TerminalStatesAppend(h, e);
  }

  /** The watch has just charged a corrective slew nobody has commanded yet. */
  ghost predicate Granted(v: W.View, corrective: seq<real>) {
    var n := |v.wear.charged|;
    n > 0 && W.Covered(corrective, v.wear.charged[..n - 1])
  }

  ghost predicate Recorded(m: Mission, t: Trace) {
    && HistoryOk(m.history, t.endings, m.started, m.offers, m.state)
    && AllPermitted(t.slews)
    && DeliveriesOk(t.delivered, t.accepted)
    && SlewsCharged(m.watch, t.corrective) && DiscsRecorded(m.watch, t.discs)
    && RecentredBy(t.recentred, |m.history|) && SolvesOk(t.solvedAt, |m.history|)
    && CentringOk(m.history, t.centringSlews)
  }

  ghost predicate WatchAlive(m: Mission) {
    m.watch.Some? ==> W.Alive(m.watch.value, m.clock)
  }

  ghost predicate WatchSound(m: Mission) {
    && WatchAlive(m)
    && (m.started && Live(m.state) && m.watch.Some? ==> WatchFollowed(m.g, m.watch.value))
    && (m.started && m.state in {Observing, Capturing, Processing} ==> m.watch.Some?)
  }

  ghost predicate WatchKept(m: Mission) {
    WatchSound(m) && (m.started && Live(m.state) && m.watch.Some? ==> InHand(m.g, m.watch.value))
  }

  ghost predicate Kept(m: Mission, t: Trace) {
    Sound(m, t) && WatchKept(m)
  }

  /** Everything but that the step last issued has been begun. */
  ghost predicate Sound(m: Mission, t: Trace) {
    && Recorded(m, t) && ObservedIsAcquired(m.history, m.offers, m.g.acquired)
    && WatchSound(m)
    && (m.started ==>
          && (Live(m.state) || Terminal(m.state))
          && MissionOk(m.state, m.failure, m.g, m.stack, m.camera, t, |m.history|))
  }

  /** A live mission whose handler raised: enough is known to end it. */
  ghost predicate Interrupted(m: Mission, t: Trace) {
    && Recorded(m, t) && ObservedIsAcquired(m.history, m.offers, m.g.acquired) && WatchAlive(m)
    && m.started && Live(m.state) && m.failure.None?
  }

  lemma LaterKept(m: Mission, t: Trace, mono: real)
    requires Kept(m, t) && mono >= m.clock
    ensures Kept(m.(clock := mono), t)
  {
  }

  function Enter(m: Mission, to: State, mono: real): Mission {
    m.(state := to, g := m.g.(stateEntered := mono), clock := mono,
       history := m.history + [Event(m.offers, to)])
  }

  lemma EnterRecorded(m: Mission, t: Trace, to: State, mono: real)
    requires Recorded(m, t) && m.started && Live(m.state) && Live(to) && LegalPredecessor(to, m.state)
    requires m.state == Centering && to == Slewing ==> CentringSlews(m.history) < t.centringSlews
    ensures Recorded(Enter(m, to, mono), t)
    ensures ObservedIsAcquired(m.history, m.offers, m.g.acquired) && (to == Observing ==> m.g.acquired) ==>
              ObservedIsAcquired(m.history + [Event(m.offers, to)], m.offers, m.g.acquired)
  {
    if ObservedIsAcquired(m.history, m.offers, m.g.acquired) && (to == Observing ==> m.g.acquired) {
      ObservedPush(m.history, m.offers, m.g.acquired, Event(m.offers, to), m.g.acquired);
    }
    CentringPush(m.history, t.centringSlews, Event(m.offers, to));
    HistoryPush(m.history, t.endings, m.started, m.offers, m.state, Event(m.offers, to));
  }

  lemma EnterInterrupted(m: Mission, t: Trace, to: State, mono: real)
    requires Interrupted(m, t) && to in {Verifying, Observing} && LegalPredecessor(to, m.state) && mono >= m.clock
    requires m.g.acquired
    ensures Interrupted(Enter(m, to, mono), t)
  {
    EnterRecorded(m, t, to, mono);
  }

  /** Ending a mission stops a moving focuser before the parking sequence. */
  function ParkingCalls(g: Progress): seq<Call> {
    (if g.focus.Some? then [StopFocus] else []) + PARKING
  }

  function Ended(m: Mission, to: State, reason: Option<Reason>, mono: real, parked: bool): Mission {
    var e := Enter(m, to, mono);
    e.(failure := reason,
       g := e.g.(focus := None, job := None, autoExposure := None, correcting := false, parked := parked))
  }

  lemma EndedKept(m: Mission, t: Trace, to: State, reason: Option<Reason>, mono: real, attempts: seq<Attempt>, parked: bool)
    requires Calls(attempts) == ParkingCalls(m.g)
    requires Interrupted(m, t) && Terminal(to) && LegalPredecessor(to, m.state) && mono >= m.clock
    requires reason == Some(PlateSolveFailed) ==> !m.g.acquired
    requires reason == Some(CenteringExhausted) && m.g.acquired ==> |m.history| in t.recentred
    ensures Kept(Ended(m, to, reason, mono, parked), t.(endings := t.endings + [Ending(to, attempts)]))
  {
    ObservedPush(m.history, m.offers, m.g.acquired, Event(m.offers, to), m.g.acquired);
    EndedRecorded(m, t, to, reason, mono, attempts, parked);
    EndedOk(m, t, to, reason, mono, attempts, parked);
  }

  lemma EndedOk(m: Mission, t: Trace, to: State, reason: Option<Reason>, mono: real, attempts: seq<Attempt>, parked: bool)
    requires Terminal(to) && mono >= m.clock && WatchAlive(m)
    requires reason == Some(PlateSolveFailed) ==> !m.g.acquired
    requires reason == Some(CenteringExhausted) && m.g.acquired ==> |m.history| in t.recentred
    ensures var (r, t') := (Ended(m, to, reason, mono, parked), t.(endings := t.endings + [Ending(to, attempts)]));
            WatchKept(r) && MissionOk(r.state, r.failure, r.g, r.stack, r.camera, t', |r.history|)
  {
  }

  lemma EndedRecorded(m: Mission, t: Trace, to: State, reason: Option<Reason>, mono: real, attempts: seq<Attempt>, parked: bool)
    requires Calls(attempts) == ParkingCalls(m.g)
    requires Recorded(m, t) && m.started && Live(m.state) && Terminal(to) && LegalPredecessor(to, m.state)
    ensures Recorded(Ended(m, to, reason, mono, parked), t.(endings := t.endings + [Ending(to, attempts)]))
  {
    CentringPush(m.history, t.centringSlews, Event(m.offers, to));
    EndingPush(m.history, t.endings, m.offers, m.state, to, attempts);
  }

  lemma EndingPush(h: seq<Event>, endings: seq<Ending>, offers: nat, state: State, to: State, attempts: seq<Attempt>)
    requires HistoryOk(h, endings, true, offers, state) && Terminal(to) && Follows(Event(offers, state), Event(offers, to))
    requires EndingParks(Ending(to, attempts))
    ensures HistoryOk(h + [Event(offers, to)], endings + [Ending(to, attempts)], true, offers, to)
  {
    LegalAppend(h, Event(offers, to));
    TerminalStatesAppend(h, Event(offers, to));
  }

  /** One ending more, with these calls attempted, the last of them the Park. */
  ghost predicate EndedWith(t: Trace, t': Trace, to: State, calls: seq<Call>, parked: bool) {
    var n := |t.endings|;
    && t' == t.(endings := t'.endings) && |t'.endings| == n + 1 && t'.endings[..n] == t.endings
    && t'.endings[n].state == to && Calls(t'.endings[n].attempts) == calls && calls != []
    && parked == !t'.endings[n].attempts[|calls| - 1].raised
  }

  /** A mission about to slew, with the camera and the mount at rest. */
  ghost predicate AtRest(q: Mission, t: Trace) {
    && Recorded(q, t) && ObservedIsAcquired(q.history, q.offers, q.g.acquired) && WatchKept(q)
    && q.started && q.state in {Preparing, Centering, Observing} && q.failure.None?
    && JobsOk(q.state, q.g) && CaptureOk(q.state, q.g, q.stack, q.camera, t.accepted, t.delivered)
    && !q.g.correcting && q.g.autoExposure.None? && q.g.job.None? && q.g.focus.None? && q.g.solveAttempts == 0
    && (q.state == Observing ==> q.g.acquired) && (q.state == Preparing ==> !q.g.acquired)
    && Times(t.solvedAt, |q.history|) == 0
    && t.centringSlews + (if q.state == Centering then 1 else 0) <= q.g.centeringIterations <= MAX_CENTERING_ITERATIONS
  }

  /** A permitted slew from rest: the stack is dropped, and the mission is SLEWING unless the
      mount refused. */
  lemma SlewKept(q: Mission, t: Trace, slew: Slew, mono: real)
    requires AtRest(q, t) && Permitted(slew) && mono >= q.clock
    ensures var t' := AfterSlew(q, t, slew);
            && Kept(Enter(q.(stack := EMPTY_STACK), Slewing, mono), t')
            && Interrupted(q.(stack := EMPTY_STACK), t')
            && (q.state != Centering ==> Kept(q.(stack := EMPTY_STACK), t'))
  {
    var (r, t') := (q.(stack := EMPTY_STACK), AfterSlew(q, t, slew));
    SlewRecorded(q, t, slew, t');
    EnterRecorded(r, t', Slewing, mono);
    SlewingOk(q, t, slew);
  }

  /** What holds of the mission itself after such a slew. */
  lemma SlewingOk(q: Mission, t: Trace, slew: Slew)
    requires AtRest(q, t)
    ensures var t' := AfterSlew(q, t, slew);
            && MissionOk(Slewing, None, q.g, EMPTY_STACK, q.camera, t', |q.history| + 1)
            && (q.state != Centering ==> MissionOk(q.state, None, q.g, EMPTY_STACK, q.camera, t', |q.history|))
  {
  }

  ghost function AfterSlew(q: Mission, t: Trace, slew: Slew): Trace {
    t.(slews := t.slews + [slew],
       centringSlews := t.centringSlews + if q.state == Centering then 1 else 0)
  }

  /** OBSERVING is entered: the mission counts as acquired and its watch is clean. */
  function OnTarget(q: Mission, mono: real, gaveUp: bool): Mission {
    var r := Enter(q, Observing, mono);
    var clean := if q.watch.None? then W.Begun(mono, q.g.request.disc)
                 else W.OnReset(q.watch.value, mono, q.g.request.disc);
    r.(watch := Some(if gaveUp then W.OnGaveUp(clean, W.OffCentre, mono) else clean),
       g := r.g.(acquired := true, exposureStarted := false,
                 observingSince := if r.g.observingSince.None? then Some(mono) else r.g.observingSince,
                 autoExposure := if !gaveUp && r.g.request.autoExposes then Some((r.g.liveExposure, r.g.liveGain))
                                 else r.g.autoExposure))
  }

  /** A mission in VERIFYING that has just measured its frame. */
  ghost predicate Verified(q: Mission, t: Trace) {
    && Recorded(q, t) && ObservedIsAcquired(q.history, q.offers, q.g.acquired) && WatchKept(q)
    && q.started && q.state == Verifying && q.failure.None?
    && JobsOk(Verifying, q.g) && CaptureOk(Verifying, q.g, q.stack, q.camera, t.accepted, t.delivered)
    && t.centringSlews <= q.g.centeringIterations <= MAX_CENTERING_ITERATIONS
    && Times(t.solvedAt, |q.history|) <= q.g.solveAttempts <= MAX_SOLVE_ATTEMPTS
  }

  lemma ArrivedKept(q: Mission, t: Trace, mono: real)
    requires Kept(q, t) && q.started && q.state == Slewing && mono >= q.clock
    ensures Kept(Enter(q, Verifying, mono), t)
  {
    EnterRecorded(q, t, Verifying, mono);
  }

  lemma OnTargetKept(q: Mission, t: Trace, mono: real, gaveUp: bool)
    requires Verified(q, t) && mono >= q.clock
    ensures Kept(OnTarget(q, mono, gaveUp), t)
  {
    OnTargetWatched(q, t, mono, gaveUp);
    OnTargetRecorded(q, t, mono, gaveUp);
    OnTargetOk(q, t, mono, gaveUp);
  }

  lemma OnTargetRecorded(q: Mission, t: Trace, mono: real, gaveUp: bool)
    requires Verified(q, t) && mono >= q.clock
    ensures var r := OnTarget(q, mono, gaveUp); Recorded(r, t) && ObservedIsAcquired(r.history, r.offers, r.g.acquired)
  {
    EnterRecorded(q, t, Observing, mono);
    ObservedPush(q.history, q.offers, q.g.acquired, Event(q.offers, Observing), true);
    OnTargetWatched(q, t, mono, gaveUp);
  }

  lemma OnTargetOk(q: Mission, t: Trace, mono: real, gaveUp: bool)
    requires Verified(q, t)
    ensures var r := OnTarget(q, mono, gaveUp); MissionOk(Observing, None, r.g, r.stack, r.camera, t, |r.history|)
  {
  }

  /** Its watch is clean or knows that it was given up on, and forgets none of its slews. */
  lemma OnTargetWatched(q: Mission, t: Trace, mono: real, gaveUp: bool)
    requires Verified(q, t) && mono >= q.clock
    ensures var r := OnTarget(q, mono, gaveUp);
            && WatchKept(r) && SlewsCharged(r.watch, t.corrective) && DiscsRecorded(r.watch, t.discs)
  {
    W.ReachedBegun(mono, q.g.request.disc);
    var clean := W.Begun(mono, q.g.request.disc);
    if q.watch.Some? {
      W.RenewedAlive(q.watch.value, mono, q.g.request.disc, mono);
      clean := W.OnReset(q.watch.value, mono, q.g.request.disc);
    }
    W.GaveUpAlive(clean, W.OffCentre, mono, mono);
  }

  lemma CentringKept(q: Mission, t: Trace, mono: real)
    requires Verified(q, t) && Measured(q.g) && mono >= q.clock
    requires q.g.acquired ==> q.g.centeringIterations < MAX_CENTERING_ITERATIONS && (q.g.request.disc || !PastPole(q.g))
    ensures Kept(Enter(q, Centering, mono), t)
  {
    EnterRecorded(q, t, Centering, mono);
  }

  /** One more centring iteration, aimed anew; the solves are counted afresh. */
  function NextIteration(q: Mission, ra: real, dec: real): Mission {
    q.(g := q.g.(centeringIterations := q.g.centeringIterations + 1, solveAttempts := 0, aimRa := ra, aimDec := dec))
  }

  lemma CentringAtRest(q: Mission, t: Trace, ra: real, dec: real)
    requires Kept(q, t) && q.started && q.state == Centering && q.g.centeringIterations < MAX_CENTERING_ITERATIONS
    ensures AtRest(NextIteration(q, ra, dec), t) && Interrupted(NextIteration(q, ra, dec), t)
  {
  }

  function WithSolve(m: Mission, t: Trace): Trace {
    t.(solvedAt := t.solvedAt + [|m.history|])
  }

  lemma MeasuredFrame(m: Mission, t: Trace, r: Mission)
    requires Kept(m, t) && m.started && m.state == Verifying && r == SeenAs(m, r)
    ensures Verified(r, WithSolve(m, t))
  {
    SolvesPush(t.solvedAt, |m.history|);
  }

  lemma VerifiedKept(q: Mission, t: Trace)
    requires Verified(q, t) && q.g.solveAttempts < MAX_SOLVE_ATTEMPTS
    ensures Kept(q, t)
  {
  }

  lemma SlewRecorded(m: Mission, t: Trace, slew: Slew, t': Trace)
    requires Recorded(m, t) && Permitted(slew)
    requires t' == t.(slews := t.slews + [slew], centringSlews := t'.centringSlews, corrective := t'.corrective)
    requires SlewsCharged(m.watch, t'.corrective) && CentringOk(m.history, t'.centringSlews)
    ensures Recorded(m, t')
  {
  }

  // ------------------------------------------------------------------
  // Observing
  // ------------------------------------------------------------------

  /** A live mission in OBSERVING with nothing running on the camera. */
  ghost predicate Idle(q: Mission, t: Trace) {
    Kept(q, t) && q.started && q.state == Observing && q.g.job.None?
  }

  /** One whose watch has just been asked: the step it issued is still to be begun. */
  ghost predicate Asked(q: Mission, t: Trace) {
    Sound(q, t) && q.started && q.state == Observing && q.g.job.None?
  }

  /** The part of the record a change of live settings, stack, watch and jobs leaves alone. */
  predicate SameCapture(g: Progress, g': Progress) {
    && g'.captureId == g.captureId && g'.captureSettings == g.captureSettings
    && g'.framesCaptured == g.framesCaptured && g'.exposureStarted == g.exposureStarted
    && g'.acquired == g.acquired && g'.centeringIterations == g.centeringIterations
    && g'.solveAttempts == g.solveAttempts && SameDeadline(g, g')
  }

  predicate SameDeadline(g: Progress, g': Progress) {
    g'.sessionEnd == g.sessionEnd && g'.observingSince == g.observingSince
  }

  /** While OBSERVING, only the jobs, the watch and an empty or unclaimed stack change. */
  lemma ObservingKept(q: Mission, t: Trace, r: Mission)
    requires Sound(q, t) && q.started && q.state == Observing
    requires r == q.(g := r.g, stack := r.stack, camera := r.camera, watch := r.watch, clock := r.clock)
    requires SameCapture(q.g, r.g) && JobsOk(Observing, r.g)
    requires r.stack == q.stack || r.stack == EMPTY_STACK || q.g.captureId.None?
    requires r.watch.Some? && WatchAlive(r) && WatchFollowed(r.g, r.watch.value) && InHand(r.g, r.watch.value)
    requires SlewsCharged(r.watch, t.corrective) && DiscsRecorded(r.watch, t.discs)
    ensures Kept(r, t)
  {
  }

  ghost function AfterAsking(q: Mission, t: Trace, mono: real): Trace
    requires q.watch.Some? && (q.watch.value.p.status != W.Ok ==> q.watch.value.p.reason.Some?)
  {
    t.(discs := t.discs + if W.OnDue(q.watch.value, mono).0 == Some(W.Recentre) && q.watch.value.p.disc then [mono] else [])
  }

  lemma AskedKept(q: Mission, t: Trace, mono: real)
    requires Idle(q, t) && !q.g.correcting && q.g.autoExposure.None? && mono >= q.clock
    ensures var (need, v) := W.OnDue(q.watch.value, mono);
            && Asked(q.(watch := Some(v), clock := mono), AfterAsking(q, t, mono))
            && (need.None? ==> InHand(q.g, v))
            && (need == Some(W.Recentre) ==> Granted(v, t.corrective))
            && (need.Some? ==> v.stay.outstanding == need && v.p.pending.None?)
  {
    W.AskedAlive(q.watch.value, mono);
    W.DueCharges(q.watch.value, mono);
    W.CoveredAppend(t.corrective, q.watch.value.wear.charged, mono);
    var (need, v) := W.OnDue(q.watch.value, mono);
    assert need == Some(W.Recentre) ==> v.wear.charged[..|v.wear.charged| - 1] == q.watch.value.wear.charged;
    WatchChangedKept(q, t, q.(watch := Some(v), clock := mono), AfterAsking(q, t, mono));
  }

  /** Only the watch has changed, and what it granted is recorded. */
  lemma WatchChangedKept(q: Mission, t: Trace, r: Mission, t': Trace)
    requires Idle(q, t) && r == q.(watch := r.watch, clock := r.clock) && t' == t.(discs := t'.discs)
    requires r.watch.Some? && WatchAlive(r) && WatchFollowed(r.g, r.watch.value)
    requires SlewsCharged(r.watch, t.corrective) && DiscsRecorded(r.watch, t'.discs)
    ensures Asked(r, t')
  {
  }

  function Recentring(q: Mission, ra: real, dec: real, mono: real): Mission {
    q.(g := q.g.(aimRa := ra, aimDec := dec, correcting := true, solved := None, disc := None), clock := mono)
  }

  ghost function AfterCorrectiveSlew(q: Mission, t: Trace, slew: Slew): Trace
    requires q.watch.Some? && q.watch.value.wear.charged != []
  {
    var charged := q.watch.value.wear.charged;
    t.(slews := t.slews + [slew], corrective := t.corrective + [charged[|charged| - 1]])
  }

  /** A corrective slew the watch asked for and the envelope permits. */
  lemma CorrectiveSlewKept(q: Mission, t: Trace, slew: Slew, ra: real, dec: real, mono: real)
    requires Asked(q, t) && !q.g.correcting && q.g.autoExposure.None? && mono >= q.clock && Permitted(slew)
    requires q.watch.value.stay.outstanding == Some(W.Recentre) && Granted(q.watch.value, t.corrective)
    ensures var t' := AfterCorrectiveSlew(q, t, slew);
            Interrupted(q, t') && Kept(Recentring(q, ra, dec, mono), t')
  {
    CorrectionRecorded(q, t, slew);
    ObservingKept(q, AfterCorrectiveSlew(q, t, slew), Recentring(q, ra, dec, mono));
  }

  lemma GrantCovered(v: W.View, corrective: seq<real>)
    requires Granted(v, corrective)
    ensures W.Covered(corrective + [v.wear.charged[|v.wear.charged| - 1]], v.wear.charged)
  {
    var (charged, n) := (v.wear.charged, |v.wear.charged| - 1);
    W.CoveredAppend(corrective, charged[..n], charged[n]);
    assert charged == charged[..n] + [charged[n]];
  }

  lemma CorrectionRecorded(q: Mission, t: Trace, slew: Slew)
    requires Asked(q, t) && Permitted(slew) && Granted(q.watch.value, t.corrective)
    ensures Asked(q, AfterCorrectiveSlew(q, t, slew))
  {
    GrantCovered(q.watch.value, t.corrective);
    SlewRecorded(q, t, slew, AfterCorrectiveSlew(q, t, slew));
  }

  // ------------------------------------------------------------------
  // Capturing and processing
  // ------------------------------------------------------------------

  /** A frame of the run is taken: at the run's own settings, and never more than asked for. */
  lemma FrameTaken(q: Mission, t: Trace, verdict: StackVerdict, mono: real)
    requires Kept(q, t) && q.started && q.state == Capturing && q.g.exposureStarted && mono >= q.clock
    ensures var r := WithFrame(q, verdict);
            if r.g.framesCaptured >= q.g.captureSettings.value.frames then Kept(Enter(r, Processing, mono), t)
            else Kept(r, t)
  {
    if WithFrame(q, verdict).g.framesCaptured >= q.g.captureSettings.value.frames {
      LastFrameTaken(q, t, verdict, mono);
    }
  }

  lemma LastFrameTaken(q: Mission, t: Trace, verdict: StackVerdict, mono: real)
    requires Kept(q, t) && q.started && q.state == Capturing && q.g.exposureStarted && mono >= q.clock
    requires WithFrame(q, verdict).g.framesCaptured >= q.g.captureSettings.value.frames
    ensures Kept(Enter(WithFrame(q, verdict), Processing, mono), t)
  {
    EnterRecorded(WithFrame(q, verdict), t, Processing, mono);
  }

  function WithFrame(q: Mission, verdict: StackVerdict): Mission {
    q.(stack := q.stack.Add(q.camera, verdict),
       g := q.g.(stacked := true, exposureStarted := false, framesCaptured := q.g.framesCaptured + 1))
  }

  /** What handing over the capture records: nothing when there is no frame to keep. */
  ghost function Delivered(q: Mission, t: Trace): Trace
    requires q.g.captureId.Some? && q.g.captureSettings.Some? && |t.accepted| > 0
  {
    if !q.g.stacked || q.stack.frames == [] then t
    else t.(delivered := t.delivered + [Delivery(|t.accepted| - 1, q.g.captureId.value, q.stack.frames,
                                                 q.g.framesCaptured, q.g.captureSettings.value)])
  }

  /** A capture is done with and the slot is not: OBSERVING again, with no capture in hand. */
  function ObservingOn(q: Mission, mono: real): Mission {
    var r := q.(stack := EMPTY_STACK,
                g := q.g.(captureId := None, stacked := false, captureSettings := None, exposureStarted := false));
    Enter(r, Observing, mono)
  }

  lemma DeliveredRecorded(q: Mission, t: Trace)
    requires Kept(q, t) && q.started && q.state == Processing
    ensures Recorded(q, Delivered(q, t))
  {
    if q.g.stacked && q.stack.frames != [] {
      DeliveryPush(t, Delivery(|t.accepted| - 1, q.g.captureId.value, q.stack.frames, q.g.framesCaptured,
                               q.g.captureSettings.value));
    }
  }

  lemma DeliveryPush(t: Trace, d: Delivery)
    requires DeliveriesOk(t.delivered, t.accepted) && DeliveryOk(d, t.accepted)
    requires t.delivered != [] ==> t.delivered[|t.delivered| - 1].request < d.request
    ensures DeliveriesOk(t.delivered + [d], t.accepted)
  {
  }

  lemma DeliveredKept(q: Mission, t: Trace, mono: real)
    requires Kept(q, t) && q.started && q.state == Processing && mono >= q.clock
    ensures Interrupted(q.(g := q.g.(captureId := None), clock := mono), Delivered(q, t))
    ensures Kept(ObservingOn(q, mono), Delivered(q, t)) && Onward(t, Delivered(q, t))
  {
    DeliveredRecorded(q, t);
    ObservingOnKept(q, t, mono);
  }

  lemma ObservingOnKept(q: Mission, t: Trace, mono: real)
    requires Kept(q, t) && q.started && q.state == Processing && mono >= q.clock
    ensures Kept(ObservingOn(q, mono), Delivered(q, t))
  {
    DeliveredRecorded(q, t);
    var r := q.(stack := EMPTY_STACK,
                g := q.g.(captureId := None, stacked := false, captureSettings := None, exposureStarted := false));
    EnterRecorded(r, Delivered(q, t), Observing, mono);
  }

  /** The same mission, no earlier, with nothing of the history taken back. */
  predicate Same(q: Mission, r: Mission) {
    r.started && r.offers == q.offers && r.clock >= q.clock && q.history <= r.history
  }

  /** What is under way for what the watch asked: nothing asked is a live frame, and a
      re-centre is a slew or, refused, a live frame. */
  predicate Began(need: Option<W.Need>, autoExposes: bool, g: Progress) {
    match need
    case None => g.job == Some(LiveJob)
    case Some(AutoExpose) => g.job == Some(if autoExposes then ExposeJob else LiveJob)
    case Some(Solve) => g.job == Some(SolveJob)
    case Some(Recentre) => if g.correcting then g.job.None? else g.job == Some(LiveJob)
  }

  /** What follows once nothing is in the way: an exposure run goes on, and otherwise it is
      what the watch asks for, which hears first of a corrective slew that has finished. */
  predicate GoesOn(q: Mission, r: Mission, asked: real) {
    && q.watch.Some? && asked >= q.clock
    && var v := if q.g.correcting then W.OnRecentred(q.watch.value) else q.watch.value;
    && (v.p.status != W.Ok ==> v.p.reason.Some?)
    && if q.g.autoExposure.Some? then r.g.job == Some(ExposeJob)
       else Began(W.OnDue(v, asked).0, q.g.request.autoExposes, r.g)
  }

  /** All the watch has heard from `q` to `r`. */
  ghost predicate WatchHears(q: Mission, r: Mission, heard: Option<W.Happening>) {
    && q.watch.Some?
    && r.watch == if heard.None? then q.watch else Some(W.After(q.watch.value, heard.value))
  }

  /** The frame of the job in hand is left alone. */
  function FrameLeft(q: Mission, mono: real): Mission {
    q.(g := q.g.(job := None, stale := false), clock := mono,
       watch := if q.g.job == Some(SolveJob) then Dropping(q.watch, W.Solve) else q.watch)
  }

  lemma FrameLeftKept(q: Mission, t: Trace, mono: real)
    requires Kept(q, t) && q.started && q.state == Observing && mono >= q.clock && q.g.job.Some?
    ensures JobFinished(q, FrameLeft(q, mono), t)
  {
    W.DroppedAlive(q.watch.value, W.Solve, mono);
    ObservingKept(q, t, FrameLeft(q, mono));
  }

  /** The exposure in hand is forgotten, and none is begun until resumed. A run of auto exposure
      goes on afterwards; a solve is dropped. */
  function Suspended(q: Mission): Mission {
    q.(g := q.g.(exposureStarted := false, job := None, suspended := true),
       watch := if q.g.job == Some(SolveJob) then Dropping(q.watch, W.Solve) else q.watch)
  }

  lemma SuspendedKept(q: Mission, t: Trace)
    requires Kept(q, t) && q.started
    ensures Kept(Suspended(q), t) && Undelayed(q, Suspended(q))
  {
    if q.watch.Some? {
      W.DroppedAlive(q.watch.value, W.Solve, q.clock);
    }
  }

  ghost predicate JobFinished(q: Mission, r: Mission, t: Trace) {
    Idle(r, t) && r.g.focus == q.g.focus && SameCapture(q.g, r.g) && Same(q, r)
  }

  lemma CapturingKept(q: Mission, t: Trace, mono: real)
    requires Idle(q, t) && q.g.captureId.Some? && q.g.focus.None? && mono >= q.clock
    ensures Kept(Enter(q, Capturing, mono), t)
  {
    EnterRecorded(q, t, Capturing, mono);
  }

  // ------------------------------------------------------------------
  // The end of the slot, and what others ask of the runner
  // ------------------------------------------------------------------

  /** Past the deadline, in a state the next pump ends. */
  predicate LastPump(m: Mission, at: real, ceiling: real) {
    && m.started && m.g.acquired && m.state in {Slewing, Processing}
    && PastDeadline(m.g, at, m.clock, ceiling)
  }

  /** What a pump past the deadline leads to: an ending, or a state the next pump ends. */
  predicate Finishing(q: Mission, r: Mission, at: real, ceiling: real) {
    && (PastDeadline(q.g, at, q.clock, ceiling) ==> Terminal(r.state) || LastPump(r, at, ceiling))
    && (LastPump(q, at, ceiling) ==> Terminal(r.state))
  }

  lemma LastPumpLater(m: Mission, at: real, later: real, ceiling: real)
    requires LastPump(m, at, ceiling) && at <= later
    ensures LastPump(m, later, ceiling)
  {
  }

  /** The slot ended during a run: what is stacked is delivered next. */
  function CutShort(q: Mission, mono: real): Mission {
    Enter(q.(g := q.g.(exposureStarted := false)), Processing, mono)
  }

  lemma CutShortKept(q: Mission, t: Trace, mono: real)
    requires Kept(q, t) && q.started && q.state == Capturing && mono >= q.clock
    ensures Kept(CutShort(q, mono), t)
  {
    EnterRecorded(q.(g := q.g.(exposureStarted := false)), t, Processing, mono);
  }

  function Begin(q: Mission, request: Request, mono: real): Mission {
    q.(started := true, offers := q.offers + 1, state := Preparing, failure := None,
       g := FirstProgress(request, mono), watch := None, clock := mono,
       history := q.history + [Event(q.offers + 1, Preparing)])
  }

  lemma BeginKept(q: Mission, t: Trace, request: Request, mono: real)
    requires Kept(q, t) && !(q.started && Live(q.state)) && mono >= q.clock
    ensures Kept(Begin(q, request, mono), t.(centringSlews := 0, corrective := [], discs := []))
  {
    BeginRecorded(q, t, request, mono);
    ObservedPush(q.history, q.offers, q.g.acquired, Event(q.offers + 1, Preparing), false);
  }

  lemma BeginRecorded(q: Mission, t: Trace, request: Request, mono: real)
    requires Recorded(q, t) && (q.started ==> Terminal(q.state))
    ensures Recorded(Begin(q, request, mono), t.(centringSlews := 0, corrective := [], discs := []))
  {
    HistoryPush(q.history, t.endings, q.started, q.offers, q.state, Event(q.offers + 1, Preparing));
    CentringPush(q.history, t.centringSlews, Event(q.offers + 1, Preparing));
  }

  /** A CAPTURE accepted: the run starts from nothing, at its own settings, and a run of auto
      exposure is dropped. */
  function WithCapture(q: Mission, id: nat, settings: Settings): Mission {
    q.(stack := EMPTY_STACK,
       watch := if q.g.autoExposure.Some? then Dropping(q.watch, W.AutoExpose) else q.watch,
       g := q.g.(captureId := Some(id), captureSettings := Some(settings), framesCaptured := 0,
                 exposureStarted := false, stacked := false, autoExposure := None))
  }

  predicate CanCapture(q: Mission) {
    q.started && Live(q.state) && q.state !in {Capturing, Processing}
  }

  lemma WithCaptureKept(q: Mission, t: Trace, id: nat, settings: Settings)
    requires Kept(q, t) && CanCapture(q) && SettingsOk(settings)
    ensures Kept(WithCapture(q, id, settings), t.(accepted := t.accepted + [(id, settings)]))
  {
    if q.watch.Some? {
      W.DroppedAlive(q.watch.value, W.AutoExpose, q.clock);
    }
  }

  /** The field has changed while OBSERVING, so what was stacked or exposing is of the old one. */
  function Moved(q: Mission, nudged: bool): Mission
    requires q.watch.Some?
  {
    q.(stack := EMPTY_STACK,
       g := q.g.(stacked := false, stale := q.g.stale || q.g.job.Some?),
       watch := if nudged then Some(W.OnMoved(q.watch.value)) else q.watch)
  }

  lemma NudgedKept(q: Mission, t: Trace, nudged: bool)
    requires Kept(q, t) && q.started && q.state == Observing
    ensures Kept(Moved(q, nudged), t)
  {
    W.NudgedAlive(q.watch.value, q.clock);
    ObservingKept(q, t, Moved(q, nudged));
  }

  /** After a RECENTER the aim is the target itself and the watch is clean. */
  function BackOnTarget(q: Mission, mono: real): Mission {
    var r := q.(g := q.g.(aimRa := q.g.request.ra, aimDec := q.g.request.dec));
    Renewed(if r.state == Observing && r.watch.Some? then Moved(r, false) else r, mono)
  }

  function Renewed(q: Mission, mono: real): Mission {
    q.(clock := mono,
       watch := if q.watch.None? then None else Some(W.OnReset(q.watch.value, mono, q.watch.value.p.disc)))
  }

  /** The record with a RECENTER added. */
  function WithRecenter(m: Mission, t: Trace): Trace {
    t.(recentred := t.recentred + [|m.history|])
  }

  lemma AimResetKept(q: Mission, t: Trace, r: Mission)
    requires Kept(q, t) && q.started && r == q.(g := q.g.(aimRa := r.g.aimRa, aimDec := r.g.aimDec))
    ensures Kept(r, WithRecenter(q, t))
  {
  }

  lemma WatchResetKept(q: Mission, t: Trace, mono: real)
    requires Kept(q, t) && q.started && mono >= q.clock
    ensures Kept(Renewed(q, mono), t)
  {
    if q.watch.Some? {
      W.RenewedAlive(q.watch.value, mono, q.watch.value.p.disc, mono);
    }
  }

  lemma BackOnTargetKept(q: Mission, t: Trace, mono: real)
    requires Kept(q, t) && q.started && mono >= q.clock
    ensures Kept(BackOnTarget(q, mono), WithRecenter(q, t))
  {
    var r := q.(g := q.g.(aimRa := q.g.request.ra, aimDec := q.g.request.dec));
    AimResetKept(q, t, r);
    FieldResetKept(r, WithRecenter(q, t), mono);
  }

  lemma FieldResetKept(r: Mission, t: Trace, mono: real)
    requires Kept(r, t) && r.started && mono >= r.clock
    ensures Kept(Renewed(if r.state == Observing && r.watch.Some? then Moved(r, false) else r, mono), t)
  {
    if r.state == Observing {
      NudgedKept(r, t, false);
      WatchResetKept(Moved(r, false), t, mono);
    } else {
      WatchResetKept(r, t, mono);
    }
  }

  predicate CanRetarget(m: Mission) {
    m.started && m.state == Observing && m.g.captureId.None? && m.g.focus.None?
  }

  /** Nothing of the old object survives a retarget. */
  function Retargeted(g: Progress, ra: real, dec: real, exposure: real, gain: int, disc: bool): Progress {
    g.(request := g.request.(ra := ra, dec := dec, exposure := exposure, gain := gain, disc := disc, autoExposes := true),
       liveExposure := exposure, liveGain := gain, aimRa := ra, aimDec := dec, centeringIterations := 0,
       solveAttempts := 0, solved := None, disc := None, autoExposure := None, correcting := false,
       stacked := false, stale := false)
  }

  /** The old object is left, with whatever step was under way for it. */
  function Leaving(q: Mission, g: Progress): Mission
    requires q.watch.Some?
  {
    var step := q.watch.value.stay.outstanding;
    q.(g := g, watch := if step.None? then q.watch else Dropping(q.watch, step.value))
  }

  lemma RetargetedAtRest(q: Mission, t: Trace, g: Progress)
    requires Idle(q, t) && q.g.captureId.None? && q.g.focus.None?
    requires g == Retargeted(q.g, g.aimRa, g.aimDec, g.liveExposure, g.liveGain, g.request.disc)
    ensures AtRest(Leaving(q, g), t.(centringSlews := 0))
  {
    var step := q.watch.value.stay.outstanding;
    if step.Some? {
      W.DroppedAlive(q.watch.value, step.value, q.clock);
    }
  }

  /** What is asked of the runner between pumps, and the pump itself. */
  datatype Op =
    | PumpAt(at: real)
    | OfferOf(request: Request)
    | CancelFor(reason: Reason)
    | Suspend
    | Resume
    | SetEnd(ends: Option<real>)
    | SlotEnded(at: real)
    | Adopt(envelope: Envelope)
    | CaptureOf(id: nat, settings: Settings)
    | FocusOn(what: Focus)
    | MovedBy(nudged: bool)
    | Recentered
    | RetargetTo(ra: real, dec: real, exposure: real, gain: int, disc: bool, at: real)

  /** A capture has at least one frame, and others cancel for reasons of their own. */
  predicate OpOk(op: Op) {
    && (op.CaptureOf? ==> SettingsOk(op.settings))
    && (op.CancelFor? ==> !RunnersOwn(op.reason))
  }

  /** What puts a deadline that has passed by `at` off: a session end after it. */
  predicate PutsOff(op: Op, at: real) {
    op.SetEnd? && op.ends.Some? && op.ends.value > at
  }

  /** The mission has ended, or the next pump from `at` on ends it. */
  predicate Closing(m: Mission, at: real, ceiling: real) {
    Terminal(m.state) || LastPump(m, at, ceiling)
  }

  /** A mission on its way out stays so, unless another has been offered since. */
  ghost predicate StillClosing(q: Mission, r: Mission, op: Op, ceiling: real) {
    forall at :: q.started && !PutsOff(op, at) && Closing(q, at, ceiling) ==>
      r.offers > q.offers || Closing(r, at, ceiling)
  }

  /** What each thing asked makes of the mission. What a pump makes of it is `PumpComes`, and
      what a retarget does is up to the mount as well. */
  ghost predicate Does(q: Mission, r: Mission, op: Op) {
    match op
    case PumpAt(_) => true
    case OfferOf(request) => if q.started && Live(q.state) then r == q else r == Begin(q, request, r.clock)
    case CancelFor(reason) =>
      if q.started && Live(q.state) then r.state == Cancelled && r.failure == Some(reason) else r == q
    case Suspend => r == if q.started then Suspended(q) else q
    case Resume => r == if q.started then q.(g := q.g.(suspended := false)) else q
    case SetEnd(ends) => r == if q.started && ends.Some? then q.(g := q.g.(sessionEnd := ends)) else q
    case SlotEnded(at) => r == SlotOver(q, at)
    case Adopt(_) => r == q
    case CaptureOf(id, settings) => r == if CanCapture(q) then WithCapture(q, id, settings) else q
    case FocusOn(what) =>
      r == if q.started && q.state == Observing && q.g.focus.None? then q.(g := q.g.(focus := Some(what))) else q
    case MovedBy(nudged) => if q.started && q.state == Observing then q.watch.Some? && r == Moved(q, nudged) else r == q
    case Recentered => r == if q.started then BackOnTarget(q, r.clock) else q
    case RetargetTo(_, _, _, _, _, _) => !CanRetarget(q) ==> r == q
  }

  /** What was asked leaves the history and the record as they were, with more at the end. Only
      a RECENTER is recorded as one, and only a pump takes a mission further from its end. */
  ghost predicate Heeded(q: Mission, t: Trace, r: Mission, t': Trace, op: Op, ceiling: real) {
    && r.offers >= q.offers && (q.started ==> r.started) && q.history <= r.history && Longer(t, t')
    && t'.recentred == t.recentred + (if op.Recentered? && q.started then [|q.history|] else [])
    && (!op.PumpAt? ==> StillClosing(q, r, op, ceiling)) && Does(q, r, op)
  }

  predicate NoLater(g: Progress, g': Progress) {
    && g'.observingSince == g.observingSince
    && (g.sessionEnd.Some? ==> g'.sessionEnd.Some? && g'.sessionEnd.value <= g.sessionEnd.value)
  }

  lemma DeadlineSetKept(q: Mission, t: Trace, ends: Option<real>)
    requires Kept(q, t)
    ensures Kept(q.(g := q.g.(sessionEnd := ends)), t)
  {
  }

  /** The slot of a live mission ends at `at`, unless it ends before that. */
  function SlotOver(q: Mission, at: real): Mission {
    if q.started && Live(q.state) && (q.g.sessionEnd.None? || q.g.sessionEnd.value > at)
    then q.(g := q.g.(sessionEnd := Some(at)))
    else q
  }

  lemma SlotOverKept(q: Mission, t: Trace, at: real, ceiling: real)
    requires Kept(q, t)
    ensures Kept(SlotOver(q, at), t) && Undelayed(q, SlotOver(q, at))
    ensures q.started && Live(q.state) ==> PastDeadline(SlotOver(q, at).g, at, q.clock, ceiling)
  {
    DeadlineSetKept(q, t, Some(at));
  }

  /** A live mission is ended, or keeps its state and a deadline no later than it had. */
  predicate Undelayed(q: Mission, r: Mission) {
    if q.started && Live(q.state) then
      && Same(q, r)
      && (Terminal(r.state) || (r.state == q.state && r.g.acquired == q.g.acquired && NoLater(q.g, r.g)))
    else r.offers > q.offers || r.state == q.state
  }

  lemma BackOnTargetUndelayed(q: Mission, mono: real)
    requires q.started && mono >= q.clock
    ensures Undelayed(q, BackOnTarget(q, mono))
  {
  }

  lemma UndelayedCloses(q: Mission, r: Mission, op: Op, ceiling: real)
    requires Undelayed(q, r)
    ensures StillClosing(q, r, op, ceiling)
  {
  }

  // ------------------------------------------------------------------
  // What one pump comes to
  // ------------------------------------------------------------------

  /** What the clock and the devices answered in the course of one pump, and what that had it
      pass through. `moved`: the mount was moving when a frame was read; `done` and `free`: the
      mission once that frame is dealt with, and once the focuser is free as well; `asked`: when
      the watch was asked, or the deadline once more. */
  datatype Answers = Answers(
    mono: real,
    raised: bool,
    slewing: bool,
    finished: bool,
    offset: Option<real>,
    tolerance: real,
    mount: (real, real),
    moved: bool,
    heard: Option<W.Happening>,
    done: Mission,
    focusing: bool,
    free: Mission,
    asked: real)

  function NoAnswers(q: Mission): Answers {
    Answers(q.clock, false, false, true, None, 0.0, (0.0, 0.0), false, None, q, false, q, q.clock)
  }

  /** Whenever they were asked, the slew and the exposure were over. */
  predicate Smooth(a: Answers) { !a.slewing && a.finished }

  /** On its way to its object. */
  predicate Acquiring(m: Mission) {
    m.started && m.state in {Preparing, Slewing, Verifying, Centering}
  }

  const MOST_PUMPS := 33

  /** The most pumps left until it observes or has ended: a slew, a correction, and for each of
      three solves an exposure and a judgement, four times over. */
  function PumpsLeft(m: Mission): int {
    var c: int, s: int := m.g.centeringIterations, m.g.solveAttempts;
    match m.state
    case Preparing => MOST_PUMPS
    case Slewing => 8 * (4 - c)
    case Verifying => 8 * (3 - c) + 1 + 2 * (3 - s) - if m.g.exposureStarted then 1 else 0
    case Centering => 8 * (3 - c) + 1
    case _ => 0
  }

  predicate AllSmooth(log: seq<Answers>) {
    forall i :: 0 <= i < |log| ==> Smooth(log[i])
  }

  lemma SmoothPush(log: seq<Answers>, a: Answers)
    ensures AllSmooth(log + [a]) == (AllSmooth(log) && Smooth(a))
  {
    assert (log + [a])[|log|] == a;
    assert forall i :: 0 <= i < |log| ==> (log + [a])[i] == log[i];
  }

  /** What it takes for one pump to go on along the shortest way. */
  predicate Fine(a: Answers, pumps: nat) {
    Smooth(a) && !a.raised && (pumps == 3 ==> a.offset.Some? && a.offset.value <= a.tolerance)
  }

  predicate AllFine(log: seq<Answers>) {
    forall i :: 0 <= i < |log| ==> Fine(log[i], i)
  }

  lemma FinePush(log: seq<Answers>, a: Answers)
    ensures AllFine(log + [a]) == (AllFine(log) && Fine(a, |log|))
  {
    assert (log + [a])[|log|] == a;
    assert forall i :: 0 <= i < |log| ==> (log + [a])[i] == log[i];
  }

  /** How far the shortest way from PREPARING to OBSERVING has gone: the slew, the wait for it,
      the exposure and the solve. */
  predicate OnShortestWay(m: Mission, pumps: nat) {
    if pumps == 4 then m.state == Observing && m.g.acquired && m.watch.Some? && m.watch.value.p.status == W.Ok
    else
      && m.started && !m.g.suspended && m.g.sessionEnd.None? && m.g.observingSince.None? && m.g.exposureStarted == (pumps == 3)
      && m.state == if pumps == 0 then Preparing else if pumps == 1 then Slewing else Verifying
  }

  /** Once its frame has been solved, or not. */
  function SeenAs(q: Mission, r: Mission): Mission {
    q.(g := q.g.(exposureStarted := false, solveAttempts := q.g.solveAttempts + 1, solved := r.g.solved, disc := r.g.disc))
  }

  /** A live frame that may be stacked. */
  predicate JoinsStack(q: Mission) {
    q.g.job == Some(LiveJob) && q.g.focus.None? && q.g.captureId.None?
  }

  /** A frame is dealt with: left alone when stale, or of a moving mount, or for nobody; or
      else stacked, solved, or taken for the exposure run, and reported as that. */
  ghost predicate FrameDealt(q: Mission, r: Mission, moved: bool, heard: Option<W.Happening>) {
    && WatchHears(q, r, heard) && q.g.job.Some?
    && if q.g.stale || moved then r == FrameLeft(q, r.clock)
       else match q.g.job.value
            case SolveJob => heard.Some? && heard.value.SolvedAt?
            case ExposeJob =>
              if q.g.autoExposure.None? then r == FrameLeft(q, r.clock)
              else heard == if r.g.autoExposure.Some? then None else Some(W.Exposed)
            case LiveJob =>
              if !JoinsStack(q) then r == FrameLeft(q, r.clock)
              else q.stack.Becomes(q.camera, r.stack) && (heard.Some? ==> heard.value.Framed?)
  }

  predicate FocusDealt(q: Mission, r: Mission, focusing: bool) {
    if q.g.focus.None? then r == q && !focusing
    else if focusing then r == q.(camera := r.camera)
    else r == q.(camera := r.camera, g := q.g.(focus := None, stacked := false), stack := EMPTY_STACK)
  }

  /** OBSERVING: an exposure is waited out; then focus, a capture, a hold or a moving mount go
      first, in that order, and else it goes on as the watch asks. */
  ghost predicate ObservingComes(q: Mission, r: Mission, a: Answers) {
    if q.g.job.Some? && !a.finished then r == q
    else (if q.g.job.None? then a.done == q else FrameDealt(q, a.done, a.moved, a.heard))
         && FreeComes(a.done, r, a.free, a.focusing, a.slewing, a.asked)
  }

  /** And so once the camera is free. */
  predicate FreeComes(q: Mission, r: Mission, free: Mission, focusing: bool, slewing: bool, asked: real) {
    FocusDealt(q, free, focusing) && if focusing then r == free else Proceeds(free, r, slewing, asked)
  }

  predicate Proceeds(q: Mission, r: Mission, slewing: bool, asked: real) {
    if q.g.captureId.Some? then r == Enter(q, Capturing, r.clock)
    else if q.g.suspended || slewing then r == q
    else r.state == Observing && GoesOn(q, r, asked)
  }

  /** CAPTURING: one frame after another, and the last one asked for ends the run. */
  ghost predicate CapturingComes(q: Mission, r: Mission, a: Answers) {
    q.g.captureSettings.Some? &&
      var settings := q.g.captureSettings.value;
      if q.g.suspended then r == q
      else if !q.g.exposureStarted then
        r == q.(g := q.g.(exposureStarted := true), camera := Frame(settings.exposure, settings.gain))
      else if !a.finished then r == q
      else
        && r.g.framesCaptured == q.g.framesCaptured + 1 && !r.g.exposureStarted && q.stack.Becomes(q.camera, r.stack)
        && r.state == if r.g.framesCaptured == settings.frames then Processing else Capturing
  }

  /** What the end of the slot makes of each state but PROCESSING and CENTERING, which go on. */
  predicate SlotEnds(q: Mission, r: Mission) {
    if !q.g.acquired then r.state == Cancelled && r.failure == Some(SessionExpired)
    else if q.state == Capturing then r == CutShort(q, r.clock)
    else r.state == Complete && r.failure.None?
  }

  /** An unparked mount is parked again exactly once the idle window is over. */
  predicate Reparks(q: Mission, r: Mission, idle: real) {
    var due := q.g.completedAt.Some? && !q.g.parked && r.clock - q.g.completedAt.value >= idle;
    && r.clock >= q.clock
    && r == q.(g := if due then q.g.(focus := None, job := None, autoExposure := None, correcting := false, parked := r.g.parked)
                    else q.g,
               clock := r.clock)
  }

  // ------------------------------------------------------------------
  // The runner
  // ------------------------------------------------------------------

  datatype Correction = Correct(altitude: real, azimuth: real, ra: real, dec: real) | Refusal(pastPole: bool)

  /** What came of a handler: done, or stopped by a device error. */
  ghost predicate Handled(q: Mission, r: Mission, t: Trace, raised: bool) {
    Same(q, r) && if raised then Interrupted(r, t) else Kept(r, t)
  }

  class MissionRunner {
    /** (ra, dec, at) to (altitude, azimuth). */
    const toHorizontal: (real, real, real) -> (real, real)
    /** (mount altitude, mount azimuth, dx, dy) to the (altitude, azimuth) that centres a disc. */
    const discAim: (real, real, real, real) -> (real, real)
    const idleParkSeconds: real
    const maxObservingSeconds: real

    var envelope: Envelope
    var m: Mission
    ghost var t: Trace

    ghost predicate Valid()
      reads this
    {
      Kept(m, t)
    }

    constructor (toHorizontal: (real, real, real) -> (real, real),
                 discAim: (real, real, real, real) -> (real, real),
                 envelope: Envelope, idleParkSeconds: real, maxObservingSeconds: real, mono: real)
      ensures Valid() && !m.started && t == Trace([], [], [], [], 0, [], [], [], [])
    {
      this.toHorizontal, this.discAim, this.envelope := toHorizontal, discAim, envelope;
      this.idleParkSeconds, this.maxObservingSeconds := idleParkSeconds, maxObservingSeconds;
      var nothing := FirstProgress(Request(0.0, 0.0, 0, 0.0, 0, false, false, false), mono);
      m := Mission(false, 0, Scheduled, None, nothing, EMPTY_STACK, Frame(0.0, 0), None, [], mono);
      t := Trace([], [], [], [], 0, [], [], [], []);
    }

    // ---- What one pump comes to ----

    ghost predicate PreparingComes(q: Mission, slews: seq<Slew>, r: Mission, slews': seq<Slew>, at: real)
      reads this`envelope
    {
      var (altitude, azimuth) := toHorizontal(q.g.request.ra, q.g.request.dec, at);
      if envelope.hasSite && envelope.permitted(at, altitude, azimuth, q.g.request.override) then
        && r == Enter(q.(stack := EMPTY_STACK), Slewing, r.clock)
        && slews' == slews + [Slew(at, altitude, azimuth, q.g.request.override, envelope)]
      else
        && r.state == Failed && slews' == slews
        && r.failure == Some(if envelope.hasSite && !envelope.measured then SafetyUnmeasured else SafetyRefused)
    }

    predicate SlewingComes(q: Mission, r: Mission, slewing: bool)
      reads this`envelope
    {
      if !slewing then r == Enter(q, Verifying, r.clock)
      else if r.clock - q.g.stateEntered > envelope.slewTimeout
      then r.state == HardwareError && r.failure == Some(SlewTimeout)
      else r == q.(clock := r.clock)
    }

    predicate CanCorrect(g: Progress, mount: (real, real), at: real)
      requires Measured(g)
      reads this`envelope
    {
      if g.request.disc then DiscCorrectionPermitted(g, mount, at) else !PastPole(g) && CorrectionPermitted(g, at)
    }

    /** A frame that will not solve is tried again, up to the third. */
    predicate UnsolvedComes(q: Mission, r: Mission) {
      && r.g.solved == q.g.solved && r.g.disc == q.g.disc
      && if q.g.solveAttempts < MAX_SOLVE_ATTEMPTS then r == q
         else if q.g.acquired then r == OnTarget(q, r.clock, true)
         else r.state == Failed && r.failure == Some(PlateSolveFailed)
    }

    /** One that solves is on the object, or off it and to be centred, or given up on. */
    predicate SolvedComes(q: Mission, r: Mission, offset: real, tolerance: real, mount: (real, real), at: real)
      requires Measured(q.g)
      reads this`envelope
    {
      && r.g.solved == q.g.solved && r.g.disc == q.g.disc
      && if offset <= tolerance then r == OnTarget(q, r.clock, false) else OffComes(q, r, mount, at)
    }

    predicate OffComes(q: Mission, r: Mission, mount: (real, real), at: real)
      requires Measured(q.g)
      reads this`envelope
    {
      if !q.g.acquired || (q.g.centeringIterations < MAX_CENTERING_ITERATIONS && CanCorrect(q.g, mount, at))
      then r == Enter(q, Centering, r.clock)
      else r == OnTarget(q, r.clock, true)
    }

    predicate JudgingComes(q: Mission, r: Mission, a: Answers, at: real)
      reads this`envelope
    {
      var seen := SeenAs(q, r);
      && (if q.g.request.disc then r.g.solved == q.g.solved else r.g.disc == q.g.disc)
      && if a.offset.None? then UnsolvedComes(seen, r)
         else Measured(seen.g) && SolvedComes(seen, r, a.offset.value, a.tolerance, a.mount, at)
    }

    lemma Judged(q: Mission, seen: Mission, r: Mission, a: Answers, at: real)
      requires seen == SeenAs(q, seen)
      requires if q.g.request.disc then seen.g.solved == q.g.solved else seen.g.disc == q.g.disc
      requires if a.offset.None? then UnsolvedComes(seen, r)
               else Measured(seen.g) && SolvedComes(seen, r, a.offset.value, a.tolerance, a.mount, at)
      ensures JudgingComes(q, r, a, at)
    {
      assert SeenAs(q, r) == seen;
    }

    predicate VerifyingComes(q: Mission, r: Mission, a: Answers, at: real)
      reads this`envelope
    {
      if q.g.suspended then r == q
      else if !q.g.exposureStarted then r == q.(g := q.g.(exposureStarted := true), camera := SolveFrame(q.g))
      else if !a.finished then r == q
      else JudgingComes(q, r, a, at)
    }

    /** The slew out of the measured offset, and where it leaves the aim. */
    function SlewOutTo(g: Progress, mount: (real, real), at: real): (Slew, (real, real))
      requires Measured(g)
      reads this`envelope
    {
      if g.request.disc then
        var (altitude, azimuth) := discAim(mount.0, mount.1, g.disc.value.0, g.disc.value.1);
        (Slew(at, altitude, azimuth, g.request.override, envelope), (g.aimRa, g.aimDec))
      else
        var (altitude, azimuth) := toHorizontal(CorrectedRa(g), CorrectedDec(g), at);
        (Slew(at, altitude, azimuth, g.request.override, envelope), (CorrectedRa(g), CorrectedDec(g)))
    }

    ghost predicate CenteringComes(q: Mission, slews: seq<Slew>, r: Mission, slews': seq<Slew>, a: Answers, at: real)
      reads this`envelope
    {
      Measured(q.g) &&
        if q.g.centeringIterations >= MAX_CENTERING_ITERATIONS then
          r.state == Failed && r.failure == Some(CenteringExhausted) && slews' == slews
        else IterationComes(q, slews, r, slews', a.mount, at)
    }

    ghost predicate IterationComes(q: Mission, slews: seq<Slew>, r: Mission, slews': seq<Slew>, mount: (real, real), at: real)
      requires Measured(q.g)
      reads this`envelope
    {
      if CanCorrect(q.g, mount, at) then
        var (slew, aim) := SlewOutTo(q.g, mount, at);
        slews' == slews + [slew] && r == Enter(NextIteration(q, aim.0, aim.1).(stack := EMPTY_STACK), Slewing, r.clock)
      else
        && r.state == Failed && slews' == slews
        && r.failure == Some(if !q.g.request.disc && PastPole(q.g) then CenteringExhausted
                             else if envelope.measured then SafetyRefused else SafetyUnmeasured)
    }

    /** Past the deadline CENTERING ends, or slews for the last time. */
    lemma CenteringCloses(q: Mission, slews: seq<Slew>, r: Mission, slews': seq<Slew>, a: Answers, at: real)
      requires CenteringComes(q, slews, r, slews', a, at)
      ensures Terminal(r.state) || (r.state == Slewing && SameDeadline(q.g, r.g) && r.g.acquired == q.g.acquired)
    {
    }

    /** PROCESSING: what there is is delivered, and the mission is over or observes on. */
    ghost predicate ProcessingComes(q: Mission, tq: Trace, r: Mission, tr: Trace, a: Answers, at: real) {
      && q.g.captureId.Some? && q.g.captureSettings.Some? && |tq.accepted| > 0
      && tr.delivered == Delivered(q, tq).delivered && a.asked >= q.clock
      && if PastDeadline(q.g, at, a.asked, maxObservingSeconds) then r.state == Complete && r.failure.None?
         else r == ObservingOn(q, a.asked)
    }

    /** What the state's handler comes to when no device raises. */
    ghost predicate Comes(q: Mission, tq: Trace, r: Mission, tr: Trace, a: Answers, at: real)
      reads this`envelope
    {
      match q.state
      case Preparing => PreparingComes(q, tq.slews, r, tr.slews, at)
      case Slewing => SlewingComes(q, r, a.slewing)
      case Verifying => VerifyingComes(q, r, a, at)
      case Centering => CenteringComes(q, tq.slews, r, tr.slews, a, at)
      case Observing => ObservingComes(q, r, a)
      case Capturing => CapturingComes(q, r, a)
      case Processing => ProcessingComes(q, tq, r, tr, a, at)
      case _ => false
    }

    /** What a pump makes of a live mission: a device error ends it; past its deadline the slot
        ends, but for a delivery and a centring slew; and else it is what its state comes to. */
    ghost predicate Pumped(q: Mission, tq: Trace, r: Mission, tr: Trace, a: Answers, at: real)
      reads this`envelope
    {
      var p := q.(clock := a.mono);
      && a.mono >= q.clock
      && if a.raised then r.state == HardwareError && r.failure == Some(DeviceFault)
         else if PastDeadline(q.g, at, a.mono, maxObservingSeconds) && (!q.g.acquired || q.state !in {Processing, Centering})
         then SlotEnds(p, r)
         else Comes(p, tq, r, tr, a, at)
    }

    lemma PumpedFinishes(q: Mission, tq: Trace, r: Mission, tr: Trace, a: Answers, at: real)
      requires Pumped(q, tq, r, tr, a, at) && !a.raised && r.clock >= a.mono
      requires q.started && Live(q.state) && r.started && (q.state in {Capturing, Processing} ==> q.g.acquired)
      ensures Finishing(q, r, at, maxObservingSeconds)
    {
      var p := q.(clock := a.mono);
      if q.state == Centering && q.g.acquired {
        CenteringCloses(p, tq.slews, r, tr.slews, a, at);
      }
    }

    /** And of any mission: an ended one is left alone, but for a Park that is still due. */
    ghost predicate PumpComes(q: Mission, tq: Trace, r: Mission, tr: Trace, a: Answers, at: real)
      reads this`envelope
    {
      if q.started && Live(q.state) then Pumped(q, tq, r, tr, a, at) && Finishing(q, r, at, maxObservingSeconds)
      else if q.started && q.state == Complete then Reparks(q, r, idleParkSeconds) && tr == tq
      else r == q && tr == tq
    }

    lemma EndedStays(q: Mission, tq: Trace, r: Mission, tr: Trace, a: Answers, at: real)
      requires PumpComes(q, tq, r, tr, a, at) && Terminal(q.state)
      ensures r.state == q.state
    {
    }

    // ---- The clock and the devices ----

    /** A later reading of the monotonic clock. */
    method Later(than: real) returns (mono: real)
      ensures mono >= than
    {
      var passed: real := *;
      mono := if passed > 0.0 then than + passed else than;
    }

    /** Either answer: whether a device call raises, whether something has finished. */
    method Either() returns (answer: bool)
    {
      answer := *;
    }

    // ---- Endings ----

    /** Make a call and note what came of it. The caller goes on either way. */
    method Try(done: seq<Attempt>, call: Call) returns (r: seq<Attempt>)
      ensures |r| == |done| + 1 && r[..|done|] == done && r[|done|].call == call
      ensures Calls(r) == Calls(done) + [call]
    {
      var raised := Either();
      r := done + [Attempt(call, raised)];
    }

    /** Stop the focuser, the exposure and the slew, and Park: each is attempted whichever of
        those before it raised. */
    method ParkMount(g: Progress) returns (attempts: seq<Attempt>, parked: bool)
      ensures Calls(attempts) == ParkingCalls(g) && parked == !attempts[|attempts| - 1].raised
    {
      attempts := [];
      if g.focus.Some? {
        attempts := Try(attempts, StopFocus);
      }
      attempts := Try(attempts, StopExposure);
      attempts := Try(attempts, HaltSlew);
      attempts := Try(attempts, Park);
      parked := !attempts[|attempts| - 1].raised;
    }

    /** Enter a terminal state, then park the mount. */
    method End(q: Mission, ghost tq: Trace, to: State, reason: Option<Reason>)
      returns (r: Mission, ghost tr: Trace)
      requires Interrupted(q, tq) && Terminal(to) && LegalPredecessor(to, q.state)
      requires reason == Some(PlateSolveFailed) ==> !q.g.acquired
      requires reason == Some(CenteringExhausted) && q.g.acquired ==> |q.history| in tq.recentred
      ensures Kept(r, tr) && r.started && r.state == to && r.failure == reason && r.g.acquired == q.g.acquired
      ensures r.g == q.g.(stateEntered := r.g.stateEntered, focus := None, job := None, autoExposure := None,
                          correcting := false, parked := r.g.parked)
      ensures Same(q, r)
      ensures EndedWith(tq, tr, to, ParkingCalls(q.g), r.g.parked)
      ensures Onward(tq, tr)
    {
      var attempts, parked := ParkMount(q.g);
      var mono := Later(q.clock);
      EndedKept(q, tq, to, reason, mono, attempts, parked);
      r := Ended(q, to, reason, mono, parked);
      tr := tq.(endings := tq.endings + [Ending(to, attempts)]);
    }

    // ---- Acquiring ----

    /** Slew to a pointing the envelope permits now. Nothing of the old stack survives. */
    method BeginSlew(q: Mission, ghost tq: Trace, altitude: real, azimuth: real, at: real)
      returns (r: Mission, ghost tr: Trace, raised: bool)
      requires AtRest(q, tq)
      requires envelope.permitted(at, altitude, azimuth, q.g.request.override)
      ensures Handled(q, r, tr, raised)
      ensures raised && q.state == Observing ==> Kept(r, tr)
      ensures raised ==> r == q.(stack := EMPTY_STACK)
      ensures !raised ==> r == Enter(q.(stack := EMPTY_STACK), Slewing, r.clock)
      ensures tr == AfterSlew(q, tq, Slew(at, altitude, azimuth, q.g.request.override, envelope))
      ensures Onward(tq, tr)
    {
      ghost var slew := Slew(at, altitude, azimuth, q.g.request.override, envelope);
      var mono := Later(q.clock);
      SlewKept(q, tq, slew, mono);
      raised := Either();
      r := if raised then q.(stack := EMPTY_STACK) else Enter(q.(stack := EMPTY_STACK), Slewing, mono);
      tr := AfterSlew(q, tq, slew);
    }

    method DoPreparing(q: Mission, ghost tq: Trace, at: real) returns (r: Mission, ghost tr: Trace, raised: bool)
      requires Kept(q, tq) && q.started && q.state == Preparing
      ensures Handled(q, r, tr, raised)
      ensures !raised ==> PreparingComes(q, tq.slews, r, tr.slews, at)
      ensures Onward(tq, tr)
    {
      r, tr, raised := q, tq, false;
      var (altitude, azimuth) := toHorizontal(q.g.request.ra, q.g.request.dec, at);
      if !envelope.hasSite {
        r, tr := End(q, tq, Failed, Some(SafetyRefused));
      } else if !envelope.permitted(at, altitude, azimuth, q.g.request.override) {
        r, tr := End(q, tq, Failed, Some(if envelope.measured then SafetyRefused else SafetyUnmeasured));
      } else {
        raised := Either();  // connecting, unparking and tracking
        if !raised {
          r, tr, raised := BeginSlew(q, tq, altitude, azimuth, at);
        }
      }
    }

    /** The slew is waited out; one that outlasts its timeout is a hardware error. `slewing`
        is what the mount answered. */
    method DoSlewing(q: Mission, ghost tq: Trace) returns (r: Mission, ghost tr: Trace, raised: bool, slewing: bool)
      requires Kept(q, tq) && q.started && q.state == Slewing
      ensures Handled(q, r, tr, raised)
      ensures !raised ==> SlewingComes(q, r, slewing) && (r.state != HardwareError ==> tr == tq)
      ensures raised ==> r.state == Slewing && tr == tq
      ensures Onward(tq, tr)
    {
      var mono := Later(q.clock);
      LaterKept(q, tq, mono);
      r, tr := q.(clock := mono), tq;
      raised := Either();
      slewing := Either();
      if raised {
      } else if !slewing {
        ArrivedKept(q, tq, mono);
        r := Enter(q, Verifying, mono);
      } else if mono - q.g.stateEntered > envelope.slewTimeout {
        raised := Either();  // halting the slew
        if !raised {
          r, tr := End(r, tq, HardwareError, Some(SlewTimeout));
        }
      }
    }

    /** Whether the pointing that takes out a solved offset is permitted now. */
    predicate CorrectionPermitted(g: Progress, at: real)
      requires g.solved.Some?
      reads this`envelope
    {
      var (altitude, azimuth) := toHorizontal(CorrectedRa(g), CorrectedDec(g), at);
      envelope.permitted(at, altitude, azimuth, g.request.override)
    }

    /** Whether the pointing that centres a disc, from where the mount is, is permitted now. */
    predicate DiscCorrectionPermitted(g: Progress, mount: (real, real), at: real)
      requires g.disc.Some?
      reads this`envelope
    {
      var (altitude, azimuth) := discAim(mount.0, mount.1, g.disc.value.0, g.disc.value.1);
      envelope.permitted(at, altitude, azimuth, g.request.override)
    }

    /** The pointing that would undo the measured offset, if it is allowed. `mount` is where
        the mount says it is, which only a disc's correction reads. */
    method Correction(g: Progress, at: real) returns (raised: bool, c: Correction, mount: (real, real))
      requires Measured(g)
      ensures !raised && c.Correct? ==> envelope.permitted(at, c.altitude, c.azimuth, g.request.override)
      ensures !raised && !g.request.disc ==> ((c.Refusal? && c.pastPole) <==> PastPole(g))
      ensures !raised ==> (c.Correct? <==> CanCorrect(g, mount, at))
      ensures !raised && c.Correct? ==>
                SlewOutTo(g, mount, at) == (Slew(at, c.altitude, c.azimuth, g.request.override, envelope), (c.ra, c.dec))
      ensures !raised && g.request.disc ==> c != Refusal(true)
      ensures !g.request.disc ==> !raised && (c.Correct? <==> !PastPole(g) && CorrectionPermitted(g, at))
      ensures !raised && c.Correct? && !g.request.disc ==>
                && (c.ra, c.dec) == (CorrectedRa(g), CorrectedDec(g))
                && (c.altitude, c.azimuth) == toHorizontal(c.ra, c.dec, at)
      ensures !raised && c.Correct? && g.request.disc ==>
                && (c.ra, c.dec) == (g.aimRa, g.aimDec)
                && (c.altitude, c.azimuth) == discAim(mount.0, mount.1, g.disc.value.0, g.disc.value.1)
    {
      mount := *;
      var where: (real, real);
      var ra, dec;
      if g.request.disc {
        raised := Either();
        if raised { return true, Refusal(false), mount; }
        where := discAim(mount.0, mount.1, g.disc.value.0, g.disc.value.1);
        ra, dec := g.aimRa, g.aimDec;
      } else {
        raised := false;
        ra, dec := CorrectedRa(g), CorrectedDec(g);
        if PastPole(g) { return false, Refusal(true), mount; }
        where := toHorizontal(ra, dec, at);
      }
      if envelope.permitted(at, where.0, where.1, g.request.override) {
        c := Correct(where.0, where.1, ra, dec);
      } else {
        c := Refusal(false);
      }
    }

    /** Where the frame says the object is: a solve or a centroid, and how far off. */
    method Measure(g: Progress) returns (g': Progress, offset: Option<real>)
      ensures g' == g.(disc := g'.disc, solved := g'.solved)
      ensures if g.request.disc then g'.solved == g.solved else g'.disc == g.disc
      ensures offset.Some? ==> Measured(g')
    {
      var found: Option<(real, real)> := *;
      var degrees: real := *;
      g' := if g.request.disc then g.(disc := found) else g.(solved := found);
      offset := if found.None? then None else Some(degrees);
    }

    method EnterObserving(q: Mission, ghost tq: Trace, gaveUp: bool) returns (r: Mission)
      requires Verified(q, tq)
      ensures Kept(r, tq) && Same(q, r) && r == OnTarget(q, r.clock, gaveUp)
    {
      var mono := Later(q.clock);
      OnTargetKept(q, tq, mono, gaveUp);
      r := OnTarget(q, mono, gaveUp);
    }

    /** Off the object: centre it, or for a session already under way give up on it when
        the iterations are spent or the correction is refused. `mount` is where the mount says
        it is, which is asked for a disc alone and may raise. */
    method ChooseToCentre(q: Mission, ghost tq: Trace, at: real)
      returns (r: Mission, ghost tr: Trace, raised: bool, mount: (real, real))
      requires Verified(q, tq) && Measured(q.g)
      ensures Handled(q, r, tr, raised)
      ensures raised ==> q.g.acquired && q.g.request.disc && q.g.centeringIterations < MAX_CENTERING_ITERATIONS
      ensures !raised ==> OffComes(q, r, mount, at)
      ensures Onward(tq, tr)
    {
      r, tr, raised, mount := q, tq, false, (0.0, 0.0);
      var c := Refusal(false);
      if q.g.acquired && q.g.centeringIterations < MAX_CENTERING_ITERATIONS {
        raised, c, mount := Correction(q.g, at);
        if raised { return; }
      }
      if q.g.acquired && c.Refusal? {
        r := EnterObserving(q, tq, true);
        return;
      }
      var mono := Later(q.clock);
      CentringKept(q, tq, mono);
      r := Enter(q, Centering, mono);
    }

    /** A frame is started at the solve's settings, waited for, then judged. */
    method DoVerifying(q: Mission, ghost tq: Trace, at: real)
      returns (r: Mission, ghost tr: Trace, raised: bool, ghost a: Answers)
      requires Kept(q, tq) && q.started && q.state == Verifying
      ensures Handled(q, r, tr, raised)
      ensures !raised ==> VerifyingComes(q, r, a, at)
      ensures !raised && (q.g.suspended || !q.g.exposureStarted || !a.finished) ==> tr == tq
      ensures Onward(tq, tr)
    {
      r, tr, raised, a := q, tq, false, NoAnswers(q);
      if q.g.suspended { return; }
      raised := Either();
      if raised { return; }
      if !q.g.exposureStarted {
        r := q.(g := q.g.(exposureStarted := true), camera := SolveFrame(q.g));
        return;
      }
      var finished := Either();
      a := a.(finished := finished);
      if !finished { return; }
      raised := Either();  // reading the frame
      if raised { return; }
      r, tr, raised, a := JudgeFrame(q, tq, at);
    }

    /** A frame that will not solve is tried again, up to the third; then a mission that
        has never been on its object fails, and one that has observes on. */
    method JudgeFrame(q: Mission, ghost tq: Trace, at: real)
      returns (r: Mission, ghost tr: Trace, raised: bool, ghost a: Answers)
      requires Kept(q, tq) && q.started && q.state == Verifying
      ensures Handled(q, r, tr, raised) && Onward(tq, tr) && a.finished
      ensures !raised ==> JudgingComes(q, r, a, at)
    {
      var seen, offset, mount;
      ghost var ts;
      var tolerance: real := *;
      seen, ts, offset := CountFrame(q, tq);
      r, tr, raised, mount := Decide(seen, ts, offset, tolerance, at);
      a := NoAnswers(q).(finished := true, offset := offset, tolerance := tolerance, mount := mount);
      if !raised {
        Judged(q, seen, r, a, at);
      }
    }

    method Decide(q: Mission, ghost tq: Trace, offset: Option<real>, tolerance: real, at: real)
      returns (r: Mission, ghost tr: Trace, raised: bool, mount: (real, real))
      requires Verified(q, tq) && (offset.Some? ==> Measured(q.g))
      ensures Handled(q, r, tr, raised) && Onward(tq, tr)
      ensures !raised ==>
                if offset.None? then UnsolvedComes(q, r) else SolvedComes(q, r, offset.value, tolerance, mount, at)
    {
      raised, mount := false, (0.0, 0.0);
      if offset.None? {
        r, tr := Unsolved(q, tq);
      } else {
        r, tr, raised, mount := Solved(q, tq, offset.value, tolerance, at);
      }
    }

    /** The frame is measured, and counted as one more solve. */
    method CountFrame(q: Mission, ghost tq: Trace) returns (r: Mission, ghost tr: Trace, offset: Option<real>)
      requires Kept(q, tq) && q.started && q.state == Verifying
      ensures Verified(r, tr) && (offset.Some? ==> Measured(r.g))
      ensures r == SeenAs(q, r) && (if q.g.request.disc then r.g.solved == q.g.solved else r.g.disc == q.g.disc)
      ensures tr == WithSolve(q, tq)
    {
      var g;
      g, offset := Measure(q.g.(exposureStarted := false, solveAttempts := q.g.solveAttempts + 1));
      r, tr := q.(g := g), WithSolve(q, tq);
      MeasuredFrame(q, tq, r);
    }

    method Solved(q: Mission, ghost tq: Trace, offset: real, tolerance: real, at: real)
      returns (r: Mission, ghost tr: Trace, raised: bool, mount: (real, real))
      requires Verified(q, tq) && Measured(q.g)
      ensures Handled(q, r, tr, raised) && Onward(tq, tr)
      ensures !raised ==> SolvedComes(q, r, offset, tolerance, mount, at)
    {
      mount := (0.0, 0.0);
      if offset <= tolerance {
        r := EnterObserving(q, tq, false);
        tr, raised := tq, false;
      } else {
        r, tr, raised, mount := ChooseToCentre(q, tq, at);
      }
    }

    method Unsolved(q: Mission, ghost tq: Trace) returns (r: Mission, ghost tr: Trace)
      requires Verified(q, tq)
      ensures Kept(r, tr) && Same(q, r) && UnsolvedComes(q, r)
      ensures Onward(tq, tr)
    {
      r, tr := q, tq;
      if q.g.solveAttempts < MAX_SOLVE_ATTEMPTS {
        VerifiedKept(q, tq);
      } else if q.g.acquired {
        r := EnterObserving(q, tq, true);
      } else {
        r, tr := End(q, tq, Failed, Some(PlateSolveFailed));
      }
    }

    /** The fourth iteration fails the mission; each one before it slews once, or fails it. */
    method DoCentering(q: Mission, ghost tq: Trace, at: real)
      returns (r: Mission, ghost tr: Trace, raised: bool, ghost a: Answers)
      requires Kept(q, tq) && q.started && q.state == Centering
      ensures Handled(q, r, tr, raised)
      ensures !raised ==> CenteringComes(q, tq.slews, r, tr.slews, a, at)
      ensures raised ==> q.g.centeringIterations < MAX_CENTERING_ITERATIONS && (q.g.request.disc || !PastPole(q.g))
      ensures Onward(tq, tr)
    {
      a := NoAnswers(q);
      if q.g.centeringIterations >= MAX_CENTERING_ITERATIONS {
        r, tr := End(q, tq, Failed, Some(CenteringExhausted));
        raised := false;
      } else {
        var mount;
        r, tr, raised, mount := Iterate(q, tq, at);
        a := a.(mount := mount);
      }
    }

    /** One centring iteration: slew the measured offset out, or end if that is refused. */
    method Iterate(q: Mission, ghost tq: Trace, at: real)
      returns (r: Mission, ghost tr: Trace, raised: bool, mount: (real, real))
      requires Kept(q, tq) && q.started && q.state == Centering && q.g.centeringIterations < MAX_CENTERING_ITERATIONS
      ensures Handled(q, r, tr, raised)
      ensures !raised ==> IterationComes(q, tq.slews, r, tr.slews, mount, at)
      ensures raised ==> q.g.request.disc || !PastPole(q.g)
      ensures Onward(tq, tr)
    {
      var c;
      raised, c, mount := Correction(q.g, at);
      if raised {
        CentringAtRest(q, tq, q.g.aimRa, q.g.aimDec);
        r, tr := NextIteration(q, q.g.aimRa, q.g.aimDec), tq;
      } else if c.Refusal? {
        r, tr := RefuseIteration(q, tq, c.pastPole);
      } else {
        r, tr, raised := SlewOut(q, tq, c, at);
      }
    }

    method SlewOut(q: Mission, ghost tq: Trace, c: Correction, at: real) returns (r: Mission, ghost tr: Trace, raised: bool)
      requires Kept(q, tq) && q.started && q.state == Centering && q.g.centeringIterations < MAX_CENTERING_ITERATIONS
      requires c.Correct? && envelope.permitted(at, c.altitude, c.azimuth, q.g.request.override)
      ensures Handled(q, r, tr, raised)
      ensures !raised ==> r == Enter(NextIteration(q, c.ra, c.dec).(stack := EMPTY_STACK), Slewing, r.clock)
      ensures tr.slews == tq.slews + [Slew(at, c.altitude, c.azimuth, q.g.request.override, envelope)]
      ensures Onward(tq, tr)
    {
      CentringAtRest(q, tq, c.ra, c.dec);
      r, tr, raised := BeginSlew(NextIteration(q, c.ra, c.dec), tq, c.altitude, c.azimuth, at);
    }

    method RefuseIteration(q: Mission, ghost tq: Trace, pastPole: bool) returns (r: Mission, ghost tr: Trace)
      requires Kept(q, tq) && q.started && q.state == Centering && q.g.centeringIterations < MAX_CENTERING_ITERATIONS
      requires pastPole ==> !q.g.request.disc && PastPole(q.g)
      ensures Kept(r, tr) && Same(q, r) && r.state == Failed && tr.slews == tq.slews
      ensures r.failure == Some(if pastPole then CenteringExhausted else if envelope.measured then SafetyRefused else SafetyUnmeasured)
      ensures Onward(tq, tr)
    {
      CentringAtRest(q, tq, q.g.aimRa, q.g.aimDec);
      var reason := if pastPole then CenteringExhausted
                    else if envelope.measured then SafetyRefused else SafetyUnmeasured;
      r, tr := End(NextIteration(q, q.g.aimRa, q.g.aimDec), tq, Failed, Some(reason));
    }

    // ---- Observing ----

    /** A finished exposure goes to the stack, the exposure run or the solve, unless it is stale
        or the mount is moving. `heard` is what the watch makes of it. */
    method FinishJob(q: Mission, ghost tq: Trace)
      returns (r: Mission, raised: bool, slewing: bool, ghost heard: Option<W.Happening>)
      requires Kept(q, tq) && q.started && q.state == Observing && q.g.job.Some?
      ensures raised ==> Interrupted(r, tq) && Same(q, r)
      ensures !raised ==> JobFinished(q, r, tq) && FrameDealt(q, r, slewing, heard)
    {
      r, heard := q, None;
      raised := Either();  // reading the frame, then the mount's status
      slewing := Either();
      if raised { return; }
      var stale := q.g.stale || slewing;
      var mono := Later(q.clock);
      if !stale && q.g.job == Some(LiveJob) && q.g.focus.None? && q.g.captureId.None? {
        r, heard := FinishLive(q, tq, mono);
      } else if !stale && q.g.job == Some(ExposeJob) && q.g.autoExposure.Some? {
        r, heard := FinishExposure(q, tq, mono);
      } else if !stale && q.g.job == Some(SolveJob) {
        r, heard := FinishSolve(q, tq, mono);
      } else {
        r, heard := LeaveFrame(q, tq, mono);
      }
    }

    /** A frame that is stale, or that nobody wants any more, is not looked at. If it was a
        solve's, the step is dropped. */
    method LeaveFrame(q: Mission, ghost tq: Trace, mono: real) returns (r: Mission, ghost heard: Option<W.Happening>)
      requires Kept(q, tq) && q.started && q.state == Observing && mono >= q.clock && q.g.job.Some?
      ensures JobFinished(q, r, tq) && r == FrameLeft(q, mono)
      ensures heard == (if q.g.job == Some(SolveJob) then Some(W.StepDropped(W.Solve)) else None) && WatchHears(q, r, heard)
    {
      heard := if q.g.job == Some(SolveJob) then Some(W.StepDropped(W.Solve)) else None;
      FrameLeftKept(q, tq, mono);
      r := FrameLeft(q, mono);
    }

    /** A live frame joins the stack, and its health goes to the watch. */
    method FinishLive(q: Mission, ghost tq: Trace, mono: real) returns (r: Mission, ghost heard: Option<W.Happening>)
      requires Kept(q, tq) && q.started && q.state == Observing && mono >= q.clock
      requires q.g.job == Some(LiveJob) && q.g.captureId.None?
      ensures JobFinished(q, r, tq) && WatchHears(q, r, heard) && (heard.Some? ==> heard.value.Framed?)
      ensures q.stack.Becomes(q.camera, r.stack)
    {
      var verdict: StackVerdict, judgeable: bool := *, *;
      var health: Option<W.Reason>, drift: bool := *, *;
      var v := q.watch.value;
      W.ReachedAfter(v, W.Framed(health, mono, drift));
      heard := if judgeable then Some(W.Framed(health, mono, drift)) else None;
      r := q.(g := q.g.(job := None, stale := false, stacked := true), clock := mono,
              stack := q.stack.Add(q.camera, verdict),
              watch := Some(if judgeable then W.OnFrame(v, health, mono, drift) else v));
      ObservingKept(q, tq, r);
    }

    /** An auto-exposure frame: try again at other settings, or finish the run. */
    method FinishExposure(q: Mission, ghost tq: Trace, mono: real) returns (r: Mission, ghost heard: Option<W.Happening>)
      requires Kept(q, tq) && q.started && q.state == Observing && mono >= q.clock
      requires q.g.job == Some(ExposeJob) && q.g.autoExposure.Some?
      ensures JobFinished(q, r, tq) && WatchHears(q, r, heard)
      ensures heard == if r.g.autoExposure.Some? then None else Some(W.Exposed)
    {
      var exposure: real, gain: int, finished: bool := *, *, *;
      var v := q.watch.value;
      heard := if finished then Some(W.Exposed) else None;
      if !finished {
        r := q.(g := q.g.(job := None, stale := false, autoExposure := Some((exposure, gain))), clock := mono);
      } else {
        W.ReachedAfter(v, W.Exposed);
        r := q.(g := q.g.(job := None, stale := false, autoExposure := None, liveExposure := exposure,
                          liveGain := gain, stacked := false),
                clock := mono, stack := EMPTY_STACK, watch := Some(W.OnAutoExposed(v)));
      }
      ObservingKept(q, tq, r);
    }

    /** A solve or a centroid: its offset goes to the watch. */
    method FinishSolve(q: Mission, ghost tq: Trace, mono: real) returns (r: Mission, ghost heard: Option<W.Happening>)
      requires Kept(q, tq) && q.started && q.state == Observing && mono >= q.clock
      requires q.g.job == Some(SolveJob) && !q.g.stale
      ensures JobFinished(q, r, tq) && WatchHears(q, r, heard) && heard.Some? && heard.value.SolvedAt?
    {
      var g, offset := Measure(q.g.(job := None, stale := false));
      var limit: real, backgroundRaised: bool := *, *;
      var v := q.watch.value;
      W.ReachedAfter(v, W.SolvedAt(offset, limit, mono, backgroundRaised));
      heard := Some(W.SolvedAt(offset, limit, mono, backgroundRaised));
      r := q.(g := g, clock := mono, watch := Some(W.OnSolved(v, offset, limit, mono, backgroundRaised)));
      ObservingKept(q, tq, r);
    }

    /** One job on the camera at a time. */
    method StartJob(q: Mission, ghost tq: Trace, job: Job, frame: Frame) returns (r: Mission, raised: bool)
      requires Asked(q, tq) && !q.g.correcting
      requires job == ExposeJob || q.g.autoExposure.None?
      requires job == SolveJob ==> WatchFollowed(q.g.(job := Some(SolveJob)), q.watch.value)
      requires InHand(q.g.(job := Some(job)), q.watch.value)
      ensures Handled(q, r, tq, raised) && r.state == Observing
      ensures !raised ==> r == q.(g := q.g.(job := Some(job)), camera := frame)
    {
      r := q;
      raised := Either();
      if !raised {
        r := q.(g := q.g.(job := Some(job)), camera := frame);
        ObservingKept(q, tq, r);
      }
    }

    /** The step the watch asks for when it is `asked`, or else the next live frame. */
    method NextJob(q: Mission, ghost tq: Trace, at: real)
      returns (r: Mission, ghost tr: Trace, raised: bool, ghost asked: real)
      requires Idle(q, tq) && !q.g.correcting
      ensures Handled(q, r, tr, raised) && r.state == Observing && asked >= q.clock
      ensures !raised ==> if q.g.autoExposure.Some? then r.g.job == Some(ExposeJob)
                          else Began(W.OnDue(q.watch.value, asked).0, q.g.request.autoExposes, r.g)
      ensures Onward(tq, tr)
    {
      tr, asked := tq, q.clock;
      if q.g.autoExposure.Some? {
        r, raised := StartJob(q, tq, ExposeJob, Frame(q.g.autoExposure.value.0, q.g.autoExposure.value.1));
        return;
      }
      r, tr, raised, asked := JobAsked(q, tq, at);
    }

    method JobAsked(q: Mission, ghost tq: Trace, at: real)
      returns (r: Mission, ghost tr: Trace, raised: bool, ghost asked: real)
      requires Idle(q, tq) && !q.g.correcting && q.g.autoExposure.None?
      ensures Handled(q, r, tr, raised) && r.state == Observing && asked >= q.clock
      ensures !raised ==> Began(W.OnDue(q.watch.value, asked).0, q.g.request.autoExposes, r.g)
      ensures Onward(tq, tr)
    {
      var told, need;
      told, tr, need := AskWatch(q, tq);
      asked := told.clock;
      if need.None? {
        r, raised := StartJob(told, tr, LiveJob, Frame(q.g.liveExposure, q.g.liveGain));
      } else {
        r, tr, raised := Take(told, tr, need.value, at);
      }
    }

    /** What the watch wants now; a slew it grants, it has charged. */
    method AskWatch(q: Mission, ghost tq: Trace) returns (r: Mission, ghost tr: Trace, need: Option<W.Need>)
      requires Idle(q, tq) && !q.g.correcting && q.g.autoExposure.None?
      ensures Asked(r, tr) && Same(q, r) && r.g == q.g && (need, r.watch.value) == W.OnDue(q.watch.value, r.clock)
      ensures need.None? ==> InHand(r.g, r.watch.value)
      ensures need.Some? ==> r.watch.value.stay.outstanding == need && r.watch.value.p.pending.None?
      ensures need == Some(W.Recentre) ==> Granted(r.watch.value, tr.corrective)
      ensures tr == tq.(discs := tq.discs + if need == Some(W.Recentre) && q.watch.value.p.disc then [r.clock] else [])
      ensures Onward(tq, tr)
    {
      var mono := Later(q.clock);
      AskedKept(q, tq, mono);
      var (step, v) := W.OnDue(q.watch.value, mono);
      need, r := step, q.(watch := Some(v), clock := mono);
      tr := AfterAsking(q, tq, mono);
    }

    method Take(q: Mission, ghost tq: Trace, need: W.Need, at: real) returns (r: Mission, ghost tr: Trace, raised: bool)
      requires Asked(q, tq) && !q.g.correcting && q.g.autoExposure.None?
      requires q.watch.value.stay.outstanding == Some(need) && q.watch.value.p.pending.None?
      requires need == W.Recentre ==> Granted(q.watch.value, tq.corrective)
      ensures Handled(q, r, tr, raised) && r.state == Observing
      ensures !raised ==> Began(Some(need), q.g.request.autoExposes, r.g)
      ensures Onward(tq, tr)
    {
      tr := tq;
      match need {
        case AutoExpose =>
          r, raised := TakeAutoExpose(q, tq);
        case Solve =>
          r, raised := StartJob(q, tq, SolveJob, SolveFrame(q.g));
        case Recentre =>
          r, tr, raised := Recentre(q, tq, at);
      }
    }

    method TakeAutoExpose(q: Mission, ghost tq: Trace) returns (r: Mission, raised: bool)
      requires Asked(q, tq) && !q.g.correcting && q.g.autoExposure.None?
      requires q.watch.value.stay.outstanding == Some(W.AutoExpose)
      ensures Handled(q, r, tq, raised) && r.state == Observing
      ensures !raised ==> r.g.job == Some(if q.g.request.autoExposes then ExposeJob else LiveJob)
    {
      if q.g.request.autoExposes {
        var exposure: real, gain: int := *, *;
        r := q.(g := q.g.(autoExposure := Some((exposure, gain))));
        ObservingKept(q, tq, r);
        r, raised := StartJob(r, tq, ExposeJob, Frame(exposure, gain));
      } else {
        // Nothing to tune the exposure to: reported done without a frame.
        W.ReachedAfter(q.watch.value, W.Exposed);
        r := q.(watch := Some(W.OnAutoExposed(q.watch.value)));
        ObservingKept(q, tq, r);
        r, raised := StartJob(r, tq, LiveJob, Frame(q.g.liveExposure, q.g.liveGain));
      }
    }

    /** The slew the watch was granted, if something was measured and the envelope allows it;
        if not, the watch hears of the refusal and a live frame is taken. */
    method Recentre(q: Mission, ghost tq: Trace, at: real) returns (r: Mission, ghost tr: Trace, raised: bool)
      requires Asked(q, tq) && !q.g.correcting && q.g.autoExposure.None?
      requires q.watch.value.stay.outstanding == Some(W.Recentre) && q.watch.value.p.pending.None?
      requires Granted(q.watch.value, tq.corrective)
      ensures Handled(q, r, tr, raised) && r.state == Observing
      ensures tr != tq ==> Measured(q.g) && |tr.slews| == |tq.slews| + 1 && |tr.corrective| == |tq.corrective| + 1
      ensures !raised && tr == tq ==>
                r.watch == Some(W.OnRefused(q.watch.value, r.clock)) && r.g.job == Some(LiveJob) && !r.g.correcting
      ensures !raised && tr != tq ==> r.g.correcting && r.g.job.None?
      ensures Onward(tq, tr)
    {
      r, tr, raised := q, tq, false;
      var mono := Later(q.clock);
      var c := Refusal(false);
      if Measured(q.g) {
        var mount;
        raised, c, mount := Correction(q.g, at);
        if raised { return; }
      }
      if c.Refusal? {
        r, raised := RefuseRecentre(q, tq, mono);
        return;
      }
      ghost var slew := Slew(at, c.altitude, c.azimuth, q.g.request.override, envelope);
      CorrectiveSlewKept(q, tq, slew, c.ra, c.dec, mono);
      tr := AfterCorrectiveSlew(q, tq, slew);
      raised := Either();
      if !raised {
        r := Recentring(q, c.ra, c.dec, mono);
      }
    }

    method RefuseRecentre(q: Mission, ghost tq: Trace, mono: real) returns (r: Mission, raised: bool)
      requires Asked(q, tq) && !q.g.correcting && q.g.autoExposure.None? && mono >= q.clock
      requires q.watch.value.stay.outstanding == Some(W.Recentre) && q.watch.value.p.pending.None?
      requires Granted(q.watch.value, tq.corrective)
      ensures Handled(q, r, tq, raised) && r.state == Observing
      ensures !raised ==>
                r.watch == Some(W.OnRefused(q.watch.value, r.clock)) && r.g.job == Some(LiveJob) && !r.g.correcting
    {
      W.RefusedAlive(q.watch.value, mono, mono);
      r := q.(watch := Some(W.OnRefused(q.watch.value, mono)), clock := mono);
      ObservingKept(q, tq, r);
      r, raised := StartJob(r, tq, LiveJob, Frame(q.g.liveExposure, q.g.liveGain));
    }

    /** Finish the job in hand if it is ready, then focus, capture or begin the next job.
        `free` is the mission once the camera and the focuser are free, `asked` the time at
        which its watch is asked. */
    method DoObserving(q: Mission, ghost tq: Trace, at: real)
      returns (r: Mission, ghost tr: Trace, raised: bool, ghost a: Answers)
      requires Kept(q, tq) && q.started && q.state == Observing
      ensures Handled(q, r, tr, raised)
      ensures !raised ==> r.state in {Observing, Capturing} && ObservingComes(q, r, a)
      ensures !raised && r.state == Capturing ==> r.g.captureId == q.g.captureId && r.g.captureId.Some? && r.g.focus.None?
      ensures raised ==> q.g.job.Some? || q.g.focus.Some? || (q.g.captureId.None? && !q.g.suspended)
      ensures Onward(tq, tr)
    {
      r, tr, raised, a := q, tq, false, NoAnswers(q);
      if q.g.job.Some? {
        raised := Either();
        if raised { return; }
        var finished := Either();
        a := a.(finished := finished);
        if !finished { return; }
        var moved;
        ghost var heard;
        r, raised, moved, heard := FinishJob(q, tq);
        a := a.(moved := moved, heard := heard, done := r);
        if raised { return; }
      }
      ghost var asked;
      var free, focusing, slewing;
      r, tr, raised, free, focusing, slewing, asked := FocusThenProceed(r, tq, at);
      a := a.(free := free, focusing := focusing, slewing := slewing, asked := asked);
    }

    method FocusThenProceed(q: Mission, ghost tq: Trace, at: real)
      returns (r: Mission, ghost tr: Trace, raised: bool, free: Mission, focusing: bool, slewing: bool, ghost asked: real)
      requires Idle(q, tq)
      ensures Handled(q, r, tr, raised) && Onward(tq, tr)
      ensures !raised ==> r.state in {Observing, Capturing} && FreeComes(q, r, free, focusing, slewing, asked)
      ensures !raised && r.state == Capturing ==> r.g.captureId == q.g.captureId && r.g.captureId.Some? && r.g.focus.None?
      ensures raised ==> q.g.focus.Some? || (q.g.captureId.None? && !q.g.suspended)
    {
      tr, raised, free, focusing, slewing, asked := tq, false, q, false, false, q.clock;
      if q.g.focus.None? {
        r, tr, raised, slewing, asked := Proceed(q, tq, at);
        return;
      }
      free, raised, focusing := RunFocus(q, tq);
      r := free;
      if !raised && !focusing {
        r, tr, raised, slewing, asked := FocusedProceed(q, free, tq, at);
      }
    }

    method FocusedProceed(q: Mission, free: Mission, ghost tq: Trace, at: real)
      returns (r: Mission, ghost tr: Trace, raised: bool, slewing: bool, ghost asked: real)
      requires Idle(free, tq) && FocusDealt(q, free, false) && q.started && q.g.focus.Some?
      ensures Handled(q, r, tr, raised) && Onward(tq, tr)
      ensures !raised ==> r.state in {Observing, Capturing} && Proceeds(free, r, slewing, asked)
      ensures !raised && r.state == Capturing ==> r.g.captureId == q.g.captureId && r.g.captureId.Some? && r.g.focus.None?
    {
      r, tr, raised, slewing, asked := Proceed(free, tq, at);
    }

    /** The camera is free: a requested capture starts, a moving mount is left to stop. */
    method Proceed(q: Mission, ghost tq: Trace, at: real)
      returns (r: Mission, ghost tr: Trace, raised: bool, slewing: bool, ghost asked: real)
      requires Idle(q, tq) && q.g.focus.None?
      ensures Handled(q, r, tr, raised)
      ensures raised ==> q.g.captureId.None? && !q.g.suspended
      ensures !raised ==> Proceeds(q, r, slewing, asked) && r.state in {Observing, Capturing}
      ensures !raised && r.state == Capturing ==> r.g.captureId == q.g.captureId && r.g.captureId.Some? && r.g.focus.None?
      ensures Onward(tq, tr)
    {
      r, tr, raised, slewing, asked := q, tq, false, false, q.clock;
      if q.g.captureId.Some? {
        var mono := Later(q.clock);
        CapturingKept(q, tq, mono);
        r := Enter(q, Capturing, mono);
        return;
      }
      if q.g.suspended { return; }
      raised := Either();  // the mount's status
      if raised { return; }
      slewing := Either();
      if slewing { return; }
      if q.g.correcting {
        r := Settle(q, tq);
      }
      r, tr, raised, asked := NextJob(r, tq, at);
    }

    /** A focus run goes on, or ends with the stack of the old focus dropped. It may expose. */
    method RunFocus(q: Mission, ghost tq: Trace) returns (r: Mission, raised: bool, still: bool)
      requires Idle(q, tq)
      ensures Same(q, r)
      ensures raised ==> Interrupted(r, tq)
      ensures !raised ==> Idle(r, tq) && (q.g.focus.Some? ==> FocusDealt(q, r, still))
    {
      var camera: Frame := *;
      raised, still := *, *;
      r := q.(camera := camera);
      if !raised && !still {
        r := r.(g := r.g.(focus := None, stacked := false), stack := EMPTY_STACK);
      }
      ObservingKept(q, tq, r);
    }

    /** The corrective slew has finished: the old field's stack goes, and the watch is told. */
    method Settle(q: Mission, ghost tq: Trace) returns (r: Mission)
      requires Idle(q, tq) && q.g.correcting
      ensures Idle(r, tq) && !r.g.correcting && Same(q, r) && r.g == q.g.(correcting := false, stacked := false)
      ensures r.watch == Some(W.OnRecentred(q.watch.value))
    {
      W.ReachedAfter(q.watch.value, W.Slewed);
      r := q.(g := q.g.(correcting := false, stacked := false), stack := EMPTY_STACK,
              watch := Some(W.OnRecentred(q.watch.value)));
      ObservingKept(q, tq, r);
    }

    // ---- Capturing and finishing ----

    /** A run waits while suspended; otherwise a frame is started, or taken into the stack,
        and the last one asked for ends the run. */
    method DoCapturing(q: Mission, ghost tq: Trace) returns (r: Mission, raised: bool, ghost a: Answers)
      requires Kept(q, tq) && q.started && q.state == Capturing
      ensures Handled(q, r, tq, raised)
      ensures !raised ==> CapturingComes(q, r, a)
      ensures raised ==> !q.g.suspended
    {
      r, raised, a := q, false, NoAnswers(q);
      if q.g.suspended { return; }
      raised := Either();
      if raised { return; }
      var settings := q.g.captureSettings.value;
      if !q.g.exposureStarted {
        r := q.(g := q.g.(exposureStarted := true), camera := Frame(settings.exposure, settings.gain));
        return;
      }
      var finished := Either();
      a := a.(finished := finished);
      if !finished { return; }
      raised := Either();  // reading the frame
      if raised { return; }
      r := TakeFrame(q, tq);
    }

    method TakeFrame(q: Mission, ghost tq: Trace) returns (r: Mission)
      requires Kept(q, tq) && q.started && q.state == Capturing && q.g.exposureStarted
      ensures Kept(r, tq) && Same(q, r)
      ensures r.g.framesCaptured == q.g.framesCaptured + 1 && !r.g.exposureStarted && q.stack.Becomes(q.camera, r.stack)
      ensures r.state == if r.g.framesCaptured == q.g.captureSettings.value.frames then Processing else Capturing
    {
      var verdict: StackVerdict := *;
      var mono := Later(q.clock);
      FrameTaken(q, tq, verdict, mono);
      r := WithFrame(q, verdict);
      if r.g.framesCaptured >= q.g.captureSettings.value.frames {
        r := Enter(r, Processing, mono);
      }
    }

    /** Delivers what the run stacked, and either completes or goes back to OBSERVING. */
    method DoProcessing(q: Mission, ghost tq: Trace, at: real) returns (r: Mission, ghost tr: Trace, ghost a: Answers)
      requires Kept(q, tq) && q.started && q.state == Processing
      ensures Kept(r, tr) && Same(q, r)
      ensures ProcessingComes(q, tq, r, tr, a, at)
      ensures r.g.captureId.None? && (r.state == Observing ==> tr.endings == tq.endings)
      ensures Onward(tq, tr)
    {
      var mono := Later(q.clock);
      a := NoAnswers(q).(asked := mono);
      tr := Delivered(q, tq);
      r := q.(g := q.g.(captureId := None), clock := mono);
      DeliveredKept(q, tq, mono);
      if PastDeadline(r.g, at, mono, maxObservingSeconds) {
        r, tr := Completed(r, tr);
      } else {
        r := ObservingOn(q, mono);
      }
    }

    /** The mission is over and did what it was for. */
    method Completed(q: Mission, ghost tq: Trace) returns (r: Mission, ghost tr: Trace)
      requires Interrupted(q, tq) && q.state in {Processing, Observing}
      ensures Kept(r, tr) && r.state == Complete && r.failure.None? && Same(q, r) && r.g.captureId == q.g.captureId
      ensures EndedWith(tq, tr, Complete, ParkingCalls(q.g), r.g.parked)
      ensures Onward(tq, tr)
    {
      r, tr := End(q, tq, Complete, None);
      var mono := Later(r.clock);
      r := r.(g := r.g.(completedAt := Some(mono)), clock := mono);
    }

    // ---- The end of the slot ----

    /** What the end of the slot makes of each state. `done`: there is no handler to run. */
    method FinishSession(q: Mission, ghost tq: Trace)
      returns (r: Mission, ghost tr: Trace, raised: bool, done: bool)
      requires Kept(q, tq) && q.started && Live(q.state)
      ensures Handled(q, r, tr, raised)
      ensures done <==> !q.g.acquired || q.state !in {Processing, Centering}
      ensures !raised ==> if done then SlotEnds(q, r) else r == q && tr == tq
      ensures !raised && done && !Terminal(r.state) ==> r.state == Processing && r.g.acquired && SameDeadline(q.g, r.g)
      ensures Onward(tq, tr)
    {
      r, tr, raised, done := q, tq, false, true;
      if !q.g.acquired {
        r, tr := End(q, tq, Cancelled, Some(SessionExpired));
      } else if q.state in {Processing, Centering} {
        done := false;
      } else if q.state == Capturing {
        r, raised := StopRun(q, tq);
      } else {
        r, tr, raised := StopAndComplete(q, tq);
      }
    }

    method StopRun(q: Mission, ghost tq: Trace) returns (r: Mission, raised: bool)
      requires Kept(q, tq) && q.started && q.state == Capturing
      ensures Handled(q, r, tq, raised)
      ensures !raised ==> r == CutShort(q, r.clock)
    {
      r := q;
      raised := Either();  // stopping the exposure
      if !raised {
        var mono := Later(q.clock);
        CutShortKept(q, tq, mono);
        r := CutShort(q, mono);
      }
    }

    method StopAndComplete(q: Mission, ghost tq: Trace) returns (r: Mission, ghost tr: Trace, raised: bool)
      requires Kept(q, tq) && q.started && q.g.acquired && q.state in {Slewing, Verifying, Observing}
      ensures Handled(q, r, tr, raised) && (!raised ==> r.state == Complete && r.failure.None?)
      ensures Onward(tq, tr)
    {
      tr := tq;
      r, raised := BackToObserving(q, tq);
      if raised { return; }
      if r.g.job.Some? {
        raised := Either();  // stopping the exposure
        if raised { return; }
        r := r.(g := r.g.(job := None));
      }
      r, tr := Completed(r, tq);
    }

    /** From SLEWING by way of VERIFYING, since there is no shorter legal path. */
    method BackToObserving(q: Mission, ghost tq: Trace) returns (r: Mission, raised: bool)
      requires Kept(q, tq) && q.started && q.g.acquired && q.state in {Slewing, Verifying, Observing}
      ensures Interrupted(r, tq) && Same(q, r)
      ensures !raised ==> r.state == Observing
    {
      r, raised := q, false;
      if r.state == Slewing {
        raised := Either();  // halting the slew
        if raised { return; }
        var mono := Later(r.clock);
        EnterInterrupted(r, tq, Verifying, mono);
        r := Enter(r, Verifying, mono);
      }
      if r.state == Verifying {
        r, raised := StopVerifying(r, tq);
      }
    }

    method StopVerifying(q: Mission, ghost tq: Trace) returns (r: Mission, raised: bool)
      requires Interrupted(q, tq) && q.g.acquired && q.state == Verifying
      ensures Interrupted(r, tq) && Same(q, r)
      ensures !raised ==> r.state == Observing
    {
      r := q;
      raised := Either();  // stopping the exposure
      if !raised {
        var mono := Later(q.clock);
        EnterInterrupted(q.(g := q.g.(exposureStarted := false)), tq, Observing, mono);
        r := Enter(q.(g := q.g.(exposureStarted := false)), Observing, mono);
      }
    }

    // ---- The pump ----

    method Handle(q: Mission, ghost tq: Trace, at: real)
      returns (r: Mission, ghost tr: Trace, raised: bool, ghost a: Answers)
      requires Kept(q, tq) && q.started && Live(q.state)
      ensures Handled(q, r, tr, raised)
      ensures !raised ==> Comes(q, tq, r, tr, a, at)
      ensures Onward(tq, tr)
    {
      if q.state in {Preparing, Slewing, Verifying, Centering} {
        r, tr, raised, a := HandleAcquiring(q, tq, at);
        return;
      }
      match q.state {
        case Observing => r, tr, raised, a := DoObserving(q, tq, at);
        case Capturing => r, raised, a := DoCapturing(q, tq); tr := tq;
        case Processing => r, tr, a := DoProcessing(q, tq, at); raised := false;
      }
    }

    method HandleAcquiring(q: Mission, ghost tq: Trace, at: real)
      returns (r: Mission, ghost tr: Trace, raised: bool, ghost a: Answers)
      requires Kept(q, tq) && q.started && q.state in {Preparing, Slewing, Verifying, Centering}
      ensures Handled(q, r, tr, raised)
      ensures !raised ==> Comes(q, tq, r, tr, a, at)
      ensures Onward(tq, tr)
    {
      a := NoAnswers(q);
      match q.state {
        case Preparing => r, tr, raised := DoPreparing(q, tq, at);
        case Slewing => var slewing; r, tr, raised, slewing := DoSlewing(q, tq); a := a.(slewing := slewing);
        case Verifying => r, tr, raised, a := DoVerifying(q, tq, at);
        case Centering => r, tr, raised, a := DoCentering(q, tq, at);
      }
    }

    method Advance(q: Mission, ghost tq: Trace, at: real)
      returns (r: Mission, ghost tr: Trace, raised: bool, ghost a: Answers)
      requires Kept(q, tq) && q.started && Live(q.state)
      ensures Handled(q, r, tr, raised)
      ensures !raised ==> Pumped(q, tq, r, tr, a.(raised := false), at)
      ensures a.mono >= q.clock && r.clock >= a.mono
      ensures Onward(tq, tr)
    {
      var mono := Later(q.clock);
      LaterKept(q, tq, mono);
      r, tr, raised, a := AdvanceAt(q.(clock := mono), tq, at);
      a := a.(mono := mono);
    }

    method AdvanceAt(q: Mission, ghost tq: Trace, at: real)
      returns (r: Mission, ghost tr: Trace, raised: bool, ghost a: Answers)
      requires Kept(q, tq) && q.started && Live(q.state)
      ensures Handled(q, r, tr, raised)
      ensures !raised ==>
                if PastDeadline(q.g, at, q.clock, maxObservingSeconds) && (!q.g.acquired || q.state !in {Processing, Centering})
                then SlotEnds(q, r)
                else Comes(q, tq, r, tr, a, at)
      ensures Onward(tq, tr)
    {
      a := NoAnswers(q);
      if PastDeadline(q.g, at, q.clock, maxObservingSeconds) {
        var done;
        r, tr, raised, done := FinishSession(q, tq);
        if raised || done { return; }
      }
      r, tr, raised, a := Handle(q, tq, at);
    }

    /** One pump of a live mission. A device error ends it. */
    method PumpLive(q: Mission, ghost tq: Trace, at: real) returns (r: Mission, ghost tr: Trace, ghost a: Answers)
      requires Kept(q, tq) && q.started && Live(q.state)
      ensures Kept(r, tr) && Same(q, r) && PumpComes(q, tq, r, tr, a, at)
      ensures Onward(tq, tr)
    {
      var raised;
      r, tr, raised, a := Advance(q, tq, at);
      a := a.(raised := raised);
      if !raised {
        PumpedFinishes(q, tq, r, tr, a, at);
      } else {
        r, tr := End(r, tr, HardwareError, Some(DeviceFault));
      }
    }

    /** A mount left unparked at COMPLETE is parked again once the idle window is over, and
        not before: `tried` says whether it was. */
    method ParkWhenIdle(q: Mission, ghost tq: Trace) returns (r: Mission, tried: bool)
      requires Kept(q, tq) && q.started && q.state == Complete
      ensures Kept(r, tq) && Same(q, r) && Reparks(q, r, idleParkSeconds)
      ensures tried <==> q.g.completedAt.Some? && !q.g.parked && r.clock - q.g.completedAt.value >= idleParkSeconds
    {
      var mono := Later(q.clock);
      r := q.(clock := mono);
      tried := q.g.completedAt.Some? && !q.g.parked && mono - q.g.completedAt.value >= idleParkSeconds;
      if tried {
        var _, parked := ParkMount(q.g);
        r := q.(g := q.g.(focus := None, job := None, autoExposure := None, correcting := false, parked := parked),
                clock := mono);
      }
    }

    method Pump(at: real) returns (ghost a: Answers)
      requires Valid()
      modifies this`m, this`t
      ensures Valid() && m.offers == old(m.offers) && m.clock >= old(m.clock) && m.started == old(m.started)
      ensures PumpComes(old(m), old(t), m, t, a, at)
      ensures Onward(old(t), t) && old(m.history) <= m.history
    {
      a := NoAnswers(m);
      if m.started && Live(m.state) {
        a := PumpOnce(at);
      } else if m.started && m.state == Complete {
        Repark();
      }
    }

    method PumpOnce(at: real) returns (ghost a: Answers)
      requires Valid() && m.started && Live(m.state)
      modifies this`m, this`t
      ensures Valid() && Same(old(m), m) && PumpComes(old(m), old(t), m, t, a, at) && Onward(old(t), t)
    {
      var r;
      ghost var tr;
      r, tr, a := PumpLive(m, t, at);
      m, t := r, tr;
    }

    method Repark()
      requires Valid() && m.started && m.state == Complete
      modifies this`m
      ensures Valid() && Same(old(m), m) && Reparks(old(m), m, idleParkSeconds)
    {
      var r, _ := ParkWhenIdle(m, t);
      m := r;
    }

    // ---- What others ask ----

    /** A mission starts if none is live; one turned away is forgotten. */
    method Offer(request: Request) returns (taken: bool)
      requires Valid()
      modifies this`m, this`t
      ensures Valid() && taken == !old(m.started && Live(m.state))
      ensures !taken ==> m == old(m) && t == old(t)
      ensures taken ==> m == Begin(old(m), request, m.clock) && m.clock >= old(m.clock)
      ensures taken ==> t == old(t).(centringSlews := 0, corrective := [], discs := [])
      ensures Undelayed(old(m), m) && m.offers >= old(m.offers) && (old(m.started) ==> m.started)
    {
      taken := !(m.started && Live(m.state));
      if taken {
        var mono := Later(m.clock);
        BeginKept(m, t, request, mono);
        m, t := Begin(m, request, mono), t.(centringSlews := 0, corrective := [], discs := []);
      }
    }

    /** A live mission ends as CANCELLED for the reason given. */
    method Cancel(reason: Reason)
      requires Valid() && !RunnersOwn(reason)
      modifies this`m, this`t
      ensures Valid() && Undelayed(old(m), m) && m.offers == old(m.offers) && m.started == old(m.started)
      ensures old(m.started && Live(m.state)) ==> m.state == Cancelled && m.failure == Some(reason)
      ensures m.g.suspended == old(m.g.suspended) && Onward(old(t), t) && old(m.history) <= m.history
      ensures !old(m.started && Live(m.state)) ==> m == old(m) && t == old(t)
    {
      if m.started && Live(m.state) {
        var r;
        ghost var tr;
        r, tr := End(m, t, Cancelled, Some(reason));
        m, t := r, tr;
      }
    }

    /** The exposure was aborted from outside: forget it, and start none until resumed. */
    method SuspendCapture()
      requires Valid()
      modifies this`m
      ensures Valid() && Undelayed(old(m), m)
      ensures m == if old(m.started) then Suspended(old(m)) else old(m)
    {
      if m.started {
        SuspendedKept(m, t);
        m := Suspended(m);
      }
    }

    method ResumeCapture()
      requires Valid()
      modifies this`m
      ensures Valid() && Undelayed(old(m), m)
      ensures m == if old(m.started) then old(m).(g := old(m.g).(suspended := false)) else old(m)
    {
      if m.started {
        m := m.(g := m.g.(suspended := false));
      }
    }

    /** The session's end, set or replaced; no end given leaves the one known. */
    method SetSessionEnd(ends: Option<real>)
      requires Valid()
      modifies this`m
      ensures Valid()
      ensures m == if old(m.started) && ends.Some? then old(m).(g := old(m.g).(sessionEnd := ends)) else old(m)
    {
      if m.started && ends.Some? {
        DeadlineSetKept(m, t, ends);
        m := m.(g := m.g.(sessionEnd := ends));
      }
    }

    /** The deadline is now at the latest. */
    method EndSession(at: real)
      requires Valid()
      modifies this`m
      ensures Valid() && Undelayed(old(m), m) && m == SlotOver(old(m), at)
      ensures m.started && Live(m.state) ==> PastDeadline(m.g, at, m.clock, maxObservingSeconds)
    {
      SlotOverKept(m, t, at, maxObservingSeconds);
      m := SlotOver(m, at);
    }

    method SetEnvelope(next: Envelope)
      requires Valid()
      modifies this`envelope
      ensures Valid() && envelope == next
    {
      envelope := next;
    }

    /** The next run is to be kept, under this command. A run under way is not changed. */
    method RequestCapture(id: nat, settings: Settings) returns (taken: bool)
      requires Valid() && SettingsOk(settings)
      modifies this`m, this`t
      ensures Valid() && Undelayed(old(m), m)
      ensures taken == CanCapture(old(m))
      ensures !taken ==> m == old(m) && t == old(t)
      ensures taken ==> m == WithCapture(old(m), id, settings) && t == old(t).(accepted := old(t.accepted) + [(id, settings)])
    {
      taken := CanCapture(m);
      if taken {
        WithCaptureKept(m, t, id, settings);
        m, t := WithCapture(m, id, settings), t.(accepted := t.accepted + [(id, settings)]);
      }
    }

    /** One focus change at a time, and in OBSERVING alone. */
    method RequestFocus(what: Focus) returns (taken: bool)
      requires Valid()
      modifies this`m
      ensures Valid() && Undelayed(old(m), m)
      ensures taken == old(m.started && m.state == Observing && m.g.focus.None?)
      ensures m == if taken then old(m).(g := old(m.g).(focus := Some(what))) else old(m)
    {
      taken := m.started && m.state == Observing && m.g.focus.None?;
      if taken {
        ghost var q := m;
        m := m.(g := m.g.(focus := Some(what)));
        ObservingKept(q, t, m);
      }
    }

    /** A nudge or a recentring slew has moved the field. */
    method PointingChanged(nudged: bool)
      requires Valid()
      modifies this`m
      ensures Valid() && Undelayed(old(m), m)
      ensures old(m.started && m.state == Observing) ==> old(m).watch.Some? && m == Moved(old(m), nudged)
      ensures !old(m.started && m.state == Observing) ==> m == old(m)
    {
      if m.started && m.state == Observing {
        NudgedKept(m, t, nudged);
        m := Moved(m, nudged);
      }
    }

    /** A RECENTER has been carried out. */
    method ReturnedToTarget()
      requires Valid()
      modifies this`m, this`t
      ensures Valid() && Undelayed(old(m), m)
      ensures old(m.started) ==> m.clock >= old(m.clock) && m == BackOnTarget(old(m), m.clock) && t == WithRecenter(old(m), old(t))
      ensures !old(m.started) ==> m == old(m) && t == old(t)
    {
      if m.started {
        var mono := Later(m.clock);
        BackOnTargetKept(m, t, mono);
        BackOnTargetUndelayed(m, mono);
        m, t := BackOnTarget(m, mono), WithRecenter(m, t);
      }
    }

    /** A new acquisition begins from OBSERVING, unless a capture, a focus change or a slew is
        in the way or the envelope forbids it. A device error leaves it OBSERVING. */
    method Retarget(ra: real, dec: real, exposure: real, gain: int, disc: bool, at: real)
      returns (taken: bool, raised: bool, slewing: bool)
      requires Valid()
      modifies this`m, this`t
      ensures Valid() && m.offers == old(m.offers) && m.started == old(m.started)
      ensures !raised ==>
                (taken <==> old(CanRetarget(m)) && !slewing && envelope.hasSite
                            && var (altitude, azimuth) := toHorizontal(ra, dec, at);
                               envelope.permitted(at, altitude, azimuth, old(m.g.request.override)))
      ensures taken ==>
                && !raised && m.history == old(m.history) + [Event(m.offers, Slewing)] && m.stack == EMPTY_STACK
                && m.g == Retargeted(old(m.g).(job := None, stateEntered := m.g.stateEntered), ra, dec, exposure, gain, disc)
                && |t.slews| == old(|t.slews|) + 1
                && t.slews[|t.slews| - 1].at == at
                && toHorizontal(ra, dec, at) == (t.slews[|t.slews| - 1].altitude, t.slews[|t.slews| - 1].azimuth)
      ensures !taken ==> m.state == old(m.state) && m.history == old(m.history)
      ensures !taken && !raised ==> m == old(m) && t == old(t)
      ensures old(!CanRetarget(m)) ==> m == old(m) && t == old(t)
      ensures Onward(old(t), t) && old(m.history) <= m.history
      ensures taken ==> m.state == Slewing && old(m.state) == Observing
    {
      taken, raised, slewing := false, false, false;
      if !CanRetarget(m) { return; }
      var open, altitude, azimuth;
      open, raised, slewing, altitude, azimuth := WayOpen(ra, dec, m.g.request.override, at);
      if !open { return; }
      raised := LeaveFor(Retargeted(m.g.(job := None), ra, dec, exposure, gain, disc), altitude, azimuth, at);
      taken := !raised;
    }

    /** Whether the mount is still, and the pointing permitted now. */
    method WayOpen(ra: real, dec: real, override: bool, at: real)
      returns (open: bool, raised: bool, slewing: bool, altitude: real, azimuth: real)
      ensures (altitude, azimuth) == toHorizontal(ra, dec, at)
      ensures open <==> !raised && !slewing && envelope.hasSite && envelope.permitted(at, altitude, azimuth, override)
    {
      raised := Either();  // the mount's status
      slewing := Either();
      var direction := toHorizontal(ra, dec, at);
      altitude, azimuth := direction.0, direction.1;
      open := !raised && !slewing && envelope.hasSite && envelope.permitted(at, altitude, azimuth, override);
    }

    method LeaveFor(g: Progress, altitude: real, azimuth: real, at: real) returns (raised: bool)
      requires Valid() && CanRetarget(m) && envelope.permitted(at, altitude, azimuth, m.g.request.override)
      requires g == Retargeted(m.g.(job := None), g.aimRa, g.aimDec, g.liveExposure, g.liveGain, g.request.disc)
      modifies this`m, this`t
      ensures Valid() && m.offers == old(m.offers) && m.started && Onward(old(t), t) && old(m.history) <= m.history
      ensures if raised then m.state == Observing && m.history == old(m.history)
              else && m.state == Slewing && m.g == g.(stateEntered := m.g.stateEntered) && m.stack == EMPTY_STACK
                   && m.history == old(m.history) + [Event(m.offers, Slewing)]
                   && t.slews == old(t.slews) + [Slew(at, altitude, azimuth, old(m.g.request.override), envelope)]
    {
      var r;
      ghost var tr;
      r, tr, raised := SlewAway(m, t, g, altitude, azimuth, at);
      m, t := r, tr;
    }

    method SlewAway(q: Mission, ghost tq: Trace, g: Progress, altitude: real, azimuth: real, at: real)
      returns (r: Mission, ghost tr: Trace, raised: bool)
      requires Kept(q, tq) && q.started && q.state == Observing && q.g.captureId.None? && q.g.focus.None?
      requires g == Retargeted(q.g.(job := None), g.aimRa, g.aimDec, g.liveExposure, g.liveGain, g.request.disc)
      requires envelope.permitted(at, altitude, azimuth, q.g.request.override)
      ensures Kept(r, tr) && Same(q, r)
      ensures if raised then r.state == Observing && r.history == q.history
              else && r.state == Slewing && r.g == g.(stateEntered := r.g.stateEntered) && r.stack == EMPTY_STACK
                   && r.history == q.history + [Event(q.offers, Slewing)]
                   && tr.slews == tq.slews + [Slew(at, altitude, azimuth, q.g.request.override, envelope)]
      ensures Onward(tq, tr)
    {
      r, tr := q, tq;
      if q.g.job.Some? {
        raised := Either();  // stopping the exposure
        if raised { return; }
        r := StopJob(q, tq);
      }
      RetargetedAtRest(r, tq, g);
      r, tr, raised := BeginSlew(Leaving(r, g), tq.(centringSlews := 0), altitude, azimuth, at);
    }

    method StopJob(q: Mission, ghost tq: Trace) returns (r: Mission)
      requires Kept(q, tq) && q.started && q.state == Observing
      ensures Idle(r, tq) && Same(q, r) && r.g == q.g.(job := None) && r.history == q.history
    {
      W.DroppedAlive(q.watch.value, W.Solve, q.clock);
      r := q.(g := q.g.(job := None),
              watch := if q.g.job == Some(SolveJob) then Dropping(q.watch, W.Solve) else q.watch);
      ObservingKept(q, tq, r);
    }

    // ---- Whole runs ----

    method Do(op: Op) returns (ghost a: Answers)
      requires Valid() && OpOk(op)
      modifies this
      ensures Valid() && Heeded(old(m), old(t), m, t, op, maxObservingSeconds)
      ensures op.PumpAt? ==> PumpComes(old(m), old(t), m, t, a, op.at) && envelope == old(envelope)
      ensures op.Adopt? ==> envelope == op.envelope
    {
      a := NoAnswers(m);
      if op.PumpAt? {
        a := Turn(op);
      } else if op.OfferOf? || op.CancelFor? || op.RetargetTo? {
        Steer(op);
      } else if op.CaptureOf? || op.FocusOn? || op.MovedBy? || op.Recentered? {
        Ask(op);
      } else {
        Note(op);
      }
    }

    method Turn(op: Op) returns (ghost a: Answers)
      requires Valid() && op.PumpAt?
      modifies this`m, this`t
      ensures Valid() && Heeded(old(m), old(t), m, t, op, maxObservingSeconds)
      ensures PumpComes(old(m), old(t), m, t, a, op.at)
    {
      a := Pump(op.at);
    }

    method Steer(op: Op)
      requires Valid() && OpOk(op) && (op.OfferOf? || op.CancelFor? || op.RetargetTo?)
      modifies this`m, this`t
      ensures Valid() && Heeded(old(m), old(t), m, t, op, maxObservingSeconds)
    {
      if op.RetargetTo? {
        Redirect(op);
      } else {
        Assign(op);
      }
    }

    method Redirect(op: Op)
      requires Valid() && op.RetargetTo?
      modifies this`m, this`t
      ensures Valid() && Heeded(old(m), old(t), m, t, op, maxObservingSeconds)
    {
      var _, _, _ := Retarget(op.ra, op.dec, op.exposure, op.gain, op.disc, op.at);
    }

    /** Which mission it is to fly. */
    method Assign(op: Op)
      requires Valid() && OpOk(op) && (op.OfferOf? || op.CancelFor?)
      modifies this`m, this`t
      ensures Valid() && Heeded(old(m), old(t), m, t, op, maxObservingSeconds)
    {
      if op.OfferOf? {
        var _ := Offer(op.request);
      } else {
        Cancel(op.reason);
      }
      UndelayedCloses(old(m), m, op, maxObservingSeconds);
    }

    /** What the link and the session tell it. */
    method Hold(op: Op)
      requires Valid() && OpOk(op) && op.Suspend?
      modifies this`m
      ensures Valid() && Heeded(old(m), old(t), m, t, op, maxObservingSeconds)
    {
      SuspendCapture();
      UndelayedCloses(old(m), m, op, maxObservingSeconds);
    }

    method Release(op: Op)
      requires Valid() && OpOk(op) && op.Resume?
      modifies this`m
      ensures Valid() && Heeded(old(m), old(t), m, t, op, maxObservingSeconds)
    {
      ResumeCapture();
      UndelayedCloses(old(m), m, op, maxObservingSeconds);
    }

    method CloseSlot(op: Op)
      requires Valid() && OpOk(op) && op.SlotEnded?
      modifies this`m
      ensures Valid() && Heeded(old(m), old(t), m, t, op, maxObservingSeconds)
    {
      EndSession(op.at);
      UndelayedCloses(old(m), m, op, maxObservingSeconds);
    }

    method MoveDeadline(op: Op)
      requires Valid() && OpOk(op) && op.SetEnd?
      modifies this`m
      ensures Valid() && Heeded(old(m), old(t), m, t, op, maxObservingSeconds)
    {
      SetSessionEnd(op.ends);
    }

    method Adopt(op: Op)
      requires Valid() && OpOk(op) && op.Adopt?
      modifies this`envelope
      ensures Valid() && Heeded(old(m), old(t), m, t, op, maxObservingSeconds)
      ensures envelope == op.envelope
    {
      SetEnvelope(op.envelope);
    }

    method Note(op: Op)
      requires Valid() && OpOk(op) && (op.Suspend? || op.Resume? || op.SlotEnded? || op.SetEnd? || op.Adopt?)
      modifies this`m, this`envelope
      ensures Valid() && Heeded(old(m), old(t), m, t, op, maxObservingSeconds)
      ensures op.Adopt? ==> envelope == op.envelope
    {
      match op {
        case Suspend => Hold(op);
        case Resume => Release(op);
        case SlotEnded(_) => CloseSlot(op);
        case SetEnd(_) => MoveDeadline(op);
        case Adopt(_) => Adopt(op);
      }
    }

    /** What a customer's command asks. */
    method Keep(op: Op)
      requires Valid() && OpOk(op) && op.CaptureOf?
      modifies this`m, this`t
      ensures Valid() && Heeded(old(m), old(t), m, t, op, maxObservingSeconds)
    {
      var _ := RequestCapture(op.id, op.settings);
      UndelayedCloses(old(m), m, op, maxObservingSeconds);
    }

    method Refocus(op: Op)
      requires Valid() && OpOk(op) && op.FocusOn?
      modifies this`m
      ensures Valid() && Heeded(old(m), old(t), m, t, op, maxObservingSeconds)
    {
      var _ := RequestFocus(op.what);
      UndelayedCloses(old(m), m, op, maxObservingSeconds);
    }

    method Reframe(op: Op)
      requires Valid() && OpOk(op) && op.MovedBy?
      modifies this`m
      ensures Valid() && Heeded(old(m), old(t), m, t, op, maxObservingSeconds)
    {
      PointingChanged(op.nudged);
      UndelayedCloses(old(m), m, op, maxObservingSeconds);
    }

    method Rearm(op: Op)
      requires Valid() && OpOk(op) && op.Recentered?
      modifies this`m, this`t
      ensures Valid() && Heeded(old(m), old(t), m, t, op, maxObservingSeconds)
    {
      ReturnedToTarget();
      UndelayedCloses(old(m), m, op, maxObservingSeconds);
    }

    method Ask(op: Op)
      requires Valid() && OpOk(op) && (op.CaptureOf? || op.FocusOn? || op.MovedBy? || op.Recentered?)
      modifies this`m, this`t
      ensures Valid() && Heeded(old(m), old(t), m, t, op, maxObservingSeconds)
    {
      match op {
        case CaptureOf(_, _) => Keep(op);
        case FocusOn(_) => Refocus(op);
        case MovedBy(_) => Reframe(op);
        case Recentered => Rearm(op);
      }
    }

    /** Whatever is asked, in whatever order, everything promised holds afterwards. Only a
        RECENTER is recorded as one. */
    method Run(ops: seq<Op>)
      requires Valid() && forall op :: op in ops ==> OpOk(op)
      modifies this
      ensures Valid() && Promised(m, t)
      ensures old(m.history) <= m.history && Longer(old(t), t)
      ensures Recentered !in ops ==> t.recentred == old(t.recentred)
    {
      for i := 0 to |ops|
        invariant Valid() && old(m.history) <= m.history && Longer(old(t), t)
        invariant Recentered !in ops ==> t.recentred == old(t.recentred)
      {
        var _ := Do(ops[i]);
      }
      RunnerPromises(m, t);
    }

    /** Once the deadline has passed, two pumps end a live mission, whatever raises and
        whatever else is asked between them, retargets too, but a session end after it. */
    method TwoPumpsEnd(first: real, between: seq<Op>, second: real)
      requires Valid() && m.started && Live(m.state) && first <= second
      requires PastDeadline(m.g, first, m.clock, maxObservingSeconds)
      requires forall op :: op in between ==> OpOk(op) && !op.PumpAt? && !PutsOff(op, first)
      modifies this
      ensures Valid() && m.started
      ensures m.offers > old(m.offers) || (m.offers == old(m.offers) && Terminal(m.state))
    {
      var _ := Pump(first);
      Undisturbed(between, first);
      PumpLast(first, second);
    }

    method PumpLast(first: real, second: real)
      requires Valid() && m.started && first <= second
      modifies this`m, this`t
      ensures Valid() && m.started && m.offers == old(m.offers)
      ensures old(Closing(m, first, maxObservingSeconds)) ==> Terminal(m.state)
    {
      if LastPump(m, first, maxObservingSeconds) {
        LastPumpLater(m, first, second, maxObservingSeconds);
      }
      var _ := Pump(second);
    }

    /** Each pump of a mission on its way brings it nearer, or there, or ends it. */
    lemma Nearer(q: Mission, tq: Trace, r: Mission, tr: Trace, a: Answers, at: real)
      requires Kept(q, tq) && Acquiring(q) && !q.g.suspended && Smooth(a)
      requires Pumped(q, tq, r, tr, a, at)
      ensures || Terminal(r.state) || r.state == Observing
              || (r.state in {Preparing, Slewing, Verifying, Centering} && !r.g.suspended && 0 < PumpsLeft(r) < PumpsLeft(q))
    {
      var p := q.(clock := a.mono);
      if q.state == Verifying {
        NearerFromVerifying(p, r, a, at);
      } else {
        NearerFromElsewhere(q, tq, r, tr, a, at);
      }
    }

    lemma NearerFromElsewhere(q: Mission, tq: Trace, r: Mission, tr: Trace, a: Answers, at: real)
      requires q.started && q.state in {Preparing, Slewing, Centering} && !q.g.suspended && Smooth(a)
      requires q.g.centeringIterations <= MAX_CENTERING_ITERATIONS
      requires q.state in {Preparing, Slewing} ==> q.g.solveAttempts == 0
      requires Pumped(q, tq, r, tr, a, at)
      ensures Terminal(r.state) || (r.state in {Slewing, Verifying} && !r.g.suspended && 0 < PumpsLeft(r) < PumpsLeft(q))
    {
    }

    lemma NearerFromVerifying(q: Mission, r: Mission, a: Answers, at: real)
      requires q.state == Verifying && !q.g.suspended && a.finished
      requires q.g.centeringIterations <= MAX_CENTERING_ITERATIONS && q.g.solveAttempts < MAX_SOLVE_ATTEMPTS
      requires VerifyingComes(q, r, a, at) || Terminal(r.state)
      ensures || Terminal(r.state) || r.state == Observing
              || (r.state in {Verifying, Centering} && !r.g.suspended && 0 < PumpsLeft(r) < PumpsLeft(q))
    {
      if q.g.exposureStarted && VerifyingComes(q, r, a, at) {
        NearerOnceSeen(SeenAs(q, r), r, a, at);
      }
    }

    lemma NearerOnceSeen(seen: Mission, r: Mission, a: Answers, at: real)
      requires seen.state == Verifying && !seen.g.suspended && !seen.g.exposureStarted
      requires seen.g.centeringIterations <= MAX_CENTERING_ITERATIONS && seen.g.solveAttempts <= MAX_SOLVE_ATTEMPTS
      requires if a.offset.None? then UnsolvedComes(seen, r)
               else Measured(seen.g) && SolvedComes(seen, r, a.offset.value, a.tolerance, a.mount, at)
      ensures || Terminal(r.state) || r.state == Observing
              || (r.state in {Verifying, Centering} && !r.g.suspended && 0 < PumpsLeft(r) <= PumpsLeft(seen))
    {
    }

    /** Whatever frames show, whatever raises and however often the clock is read: a mission on
        its way that is not held observes or has ended within thirty-three pumps, when no slew
        and no exposure is still running where a pump asks. */
    method Acquire(ats: seq<real>) returns (ghost log: seq<Answers>)
      requires Valid() && Acquiring(m) && !m.g.suspended
      modifies this`m, this`t
      ensures Valid() && |log| == |ats| && m.offers == old(m.offers)
      ensures |ats| >= old(PumpsLeft(m)) && AllSmooth(log) ==> HasObserved(m) || Terminal(m.state)
      ensures old(PumpsLeft(m)) <= MOST_PUMPS
    {
      log := [];
      for i := 0 to |ats|
        invariant Valid() && |log| == i && m.offers == old(m.offers) && m.started
        invariant old(PumpsLeft(m)) <= MOST_PUMPS
        invariant AllSmooth(log) ==> Arriving(m, old(PumpsLeft(m)) - i)
      {
        ghost var a := PumpOn(ats[i], old(PumpsLeft(m)) - i);
        SmoothPush(log, a);
        log := log + [a];
      }
    }

    method PumpOn(at: real, ghost left: int) returns (ghost a: Answers)
      requires Valid() && m.started
      modifies this`m, this`t
      ensures Valid() && m.started && m.offers == old(m.offers)
      ensures old(Arriving(m, left)) && Smooth(a) ==> Arriving(m, left - 1)
    {
      a := Pump(at);
      if old(Arriving(m, left)) && Smooth(a) {
        StillArriving(old(m), old(t), m, t, a, at, left);
      }
    }

    lemma StillArriving(q: Mission, tq: Trace, r: Mission, tr: Trace, a: Answers, at: real, left: int)
      requires Kept(q, tq) && Kept(r, tr) && q.started && r.started && q.offers == r.offers && q.history <= r.history
      requires PumpComes(q, tq, r, tr, a, at) && Arriving(q, left) && Smooth(a)
      ensures Arriving(r, left - 1)
    {
      if HasObserved(q) {
        StillObserved(q, r);
      } else if !Terminal(q.state) {
        Nearer(q, tq, r, tr, a, at);
        NowObserved(r, tr);
      }
    }

    lemma NowObserved(r: Mission, tr: Trace)
      requires Recorded(r, tr) && r.started
      ensures r.state == Observing ==> HasObserved(r)
    {
      assert r.history[|r.history| - 1] == Event(r.offers, r.state);
    }

    /** From PREPARING to OBSERVING in four pumps: nothing raises, the pointing is permitted, the
        slew and the exposure are over when asked, and the solve lands on the object. */
    method AcquireAtOnce(ats: seq<real>) returns (ghost log: seq<Answers>)
      requires Valid() && |ats| == 4 && OnShortestWay(m, 0) && PermittedAt(m.g.request, ats[0])
      modifies this`m, this`t
      ensures Valid() && |log| == 4
      ensures AllFine(log) ==> OnShortestWay(m, 4)
    {
      log := [];
      for i := 0 to 4
        invariant Valid() && |log| == i
        invariant AllFine(log) ==> OnShortestWay(m, i)
        invariant i == 0 ==> PermittedAt(m.g.request, ats[0])
      {
        ghost var a := PumpOnward(ats[i], i);
        FinePush(log, a);
        log := log + [a];
      }
    }

    predicate PermittedAt(request: Request, at: real)
      reads this`envelope
    {
      var (altitude, azimuth) := toHorizontal(request.ra, request.dec, at);
      envelope.hasSite && envelope.permitted(at, altitude, azimuth, request.override)
    }

    method PumpOnward(at: real, ghost pumps: nat) returns (ghost a: Answers)
      requires Valid() && pumps < 4
      modifies this`m, this`t
      ensures Valid()
      requires pumps == 0 ==> PermittedAt(m.g.request, at)
      ensures old(OnShortestWay(m, pumps)) && Fine(a, pumps) ==> OnShortestWay(m, pumps + 1)
    {
      a := Pump(at);
      if old(OnShortestWay(m, pumps)) && Fine(a, pumps) {
        Furthered(old(m), old(t), m, t, a, pumps, at);
      }
    }

    lemma Furthered(q: Mission, tq: Trace, r: Mission, tr: Trace, a: Answers, pumps: nat, at: real)
      requires Kept(q, tq) && PumpComes(q, tq, r, tr, a, at) && pumps < 4
      requires OnShortestWay(q, pumps) && Fine(a, pumps) && (pumps == 0 ==> PermittedAt(q.g.request, at))
      ensures OnShortestWay(r, pumps + 1)
    {
    }

    /** Between the two pumps: whatever is asked, the mission has ended or the next pump
        will end it. */
    method Undisturbed(between: seq<Op>, at: real)
      requires Valid() && m.started && Closing(m, at, maxObservingSeconds)
      requires forall op :: op in between ==> OpOk(op) && !op.PumpAt? && !PutsOff(op, at)
      modifies this
      ensures Valid() && m.started && m.offers >= old(m.offers)
      ensures m.offers > old(m.offers) || Closing(m, at, maxObservingSeconds)
    {
      for i := 0 to |between|
        invariant Valid() && m.started && m.offers >= old(m.offers)
        invariant m.offers > old(m.offers) || Closing(m, at, maxObservingSeconds)
      {
        var _ := Do(between[i]);
      }
    }
  }

  /** An ended mission attempted to stop the exposure, halt the slew and Park, in that order. */
  lemma EndedParked(m: Mission, t: Trace)
    requires Kept(m, t) && m.started && Terminal(m.state)
    ensures t.endings != [] && t.endings[|t.endings| - 1].state == m.state && EndingParks(t.endings[|t.endings| - 1])
  {
    assert TerminalStates(m.history)[|TerminalStates(m.history)| - 1] == m.state;
  }

  // ------------------------------------------------------------------
  // How a RECENTER can end an acquired mission
  // ------------------------------------------------------------------

  /** A solve off the object, which centring can take out. */
  lemma SolveCentre(q: Mission, t: Trace, solved: (real, real)) returns (r: Mission, tr: Trace)
    requires Kept(q, t) && q.started && q.state == Verifying && q.g.acquired && !q.g.request.disc && q.g.solveAttempts == 0
    requires q.g.centeringIterations < MAX_CENTERING_ITERATIONS && !PastPole(q.g.(solved := Some(solved)))
    ensures Kept(r, tr) && r.started && r.state == Centering && tr.recentred == t.recentred && r.offers == q.offers
    ensures r.g == q.g.(solved := Some(solved), exposureStarted := false, solveAttempts := 1, stateEntered := r.g.stateEntered)
    ensures r.history == q.history + [Event(q.offers, Centering)]
  {
    var g := q.g.(exposureStarted := false, solveAttempts := 1, solved := Some(solved));
    MeasuredFrame(q, t, q.(g := g));
    CentringKept(q.(g := g), WithSolve(q, t), q.clock);
    r, tr := Enter(q.(g := g), Centering, q.clock), WithSolve(q, t);
  }

  /** A slew from rest, then such a solve. */
  lemma SlewSolveCentre(q: Mission, t: Trace, slew: Slew, solved: (real, real)) returns (r: Mission, tr: Trace)
    requires AtRest(q, t) && Permitted(slew) && q.g.acquired && !q.g.request.disc
    requires q.g.centeringIterations < MAX_CENTERING_ITERATIONS && !PastPole(q.g.(solved := Some(solved)))
    ensures Kept(r, tr) && r.started && r.state == Centering && tr.recentred == t.recentred && r.offers == q.offers
    ensures r.g == q.g.(solved := Some(solved), exposureStarted := false, solveAttempts := 1, stateEntered := r.g.stateEntered)
    ensures r.history == q.history + [Event(q.offers, Slewing)] + [Event(q.offers, Verifying)] + [Event(q.offers, Centering)]
  {
    SlewKept(q, t, slew, q.clock);
    var slewing := Enter(q.(stack := EMPTY_STACK), Slewing, q.clock);
    ArrivedKept(slewing, AfterSlew(q, t, slew), q.clock);
    r, tr := SolveCentre(Enter(slewing, Verifying, q.clock), AfterSlew(q, t, slew), solved);
  }

  /** Take any mission OBSERVING, with no job, capture or focus change: it is retargeted to declination 80,
      the first solve lands at 90 and the second, from the aim of 70 that corrects it, at 65.
      The next correction, to 85, is good; after a RECENTER in that moment it is to 95, past
      the pole, which is when `DoCentering` ends an acquired mission as exhausted. */
  lemma RecenterCanExhaust(q: Mission, t: Trace, slew: Slew) returns (r: Mission, tr: Trace)
    requires Idle(q, t) && q.g.captureId.None? && q.g.focus.None? && Permitted(slew)
    ensures Kept(r, tr) && r.started && r.state == Centering && r.g.acquired && !r.g.request.disc && tr.recentred == t.recentred
    ensures !PastPole(r.g)
    ensures var recentred := BackOnTarget(r, r.clock);
            Kept(recentred, WithRecenter(r, tr)) && recentred.state == Centering && PastPole(recentred.g)
    ensures r.offers == q.offers && q.history <= r.history
  {
    r, tr := RetargetedOff(q, t, slew);
    r, tr := SolvedAgain(r, tr, slew);
    BackOnTargetKept(r, tr, r.clock);
  }

  lemma SolvedAgain(q: Mission, t: Trace, slew: Slew) returns (r: Mission, tr: Trace)
    requires Kept(q, t) && q.started && q.state == Centering && q.g.acquired && !q.g.request.disc && Permitted(slew)
    requires q.g.centeringIterations == 0 && q.g.request.dec == 80.0
    ensures Kept(r, tr) && r.started && r.state == Centering && tr.recentred == t.recentred
    ensures r.offers == q.offers && q.history <= r.history
    ensures r.g.acquired && !r.g.request.disc && r.g.request.dec == 80.0 && r.g.aimDec == 70.0 && r.g.solved == Some((0.0, 65.0))
  {
    CentringAtRest(q, t, 0.0, 70.0);
    r, tr := SlewSolveCentre(NextIteration(q, 0.0, 70.0), t, slew, (0.0, 65.0));
  }

  lemma RetargetedOff(q: Mission, t: Trace, slew: Slew) returns (r: Mission, tr: Trace)
    requires Idle(q, t) && q.g.captureId.None? && q.g.focus.None? && Permitted(slew)
    ensures Kept(r, tr) && r.started && r.state == Centering && tr.recentred == t.recentred
    ensures r.offers == q.offers && q.history <= r.history
    ensures r.g.acquired && !r.g.request.disc && r.g.centeringIterations == 0 && r.g.aimDec == r.g.request.dec == 80.0
  {
    var g := Retargeted(q.g, 0.0, 80.0, 1.0, 0, false);
    RetargetedAtRest(q, t, g);
    r, tr := SlewSolveCentre(Leaving(q, g), t.(centringSlews := 0), slew, (0.0, 90.0));
  }

  // ------------------------------------------------------------------
  // How a stay in RECOVERING is lost
  // ------------------------------------------------------------------

  /** In RECOVERING with nothing under way, and no step however long it waits. */
  ghost predicate Lost(r: Mission) {
    && r.watch.Some? && r.watch.value.p.status == W.Recovering && r.watch.value.p.reason.Some?
    && !UnderWay(r.g) && forall at :: W.OnDue(r.watch.value, at).0.None?
  }

  /** A live mission is lost in this way exactly when the stay is recorded so, or else has a
      step it wants, one under way or a frame it waits for. */
  lemma LostExactly(r: Mission, t: Trace)
    requires Kept(r, t) && r.started && Live(r.state) && r.watch.Some? && r.watch.value.p.status == W.Recovering
    ensures var (p, stay) := (r.watch.value.p, r.watch.value.stay);
            && (p.pending.None? && !p.awaitingFrame && !UnderWay(r.g) <==> stay.lost.Some?)
            && (stay.lost.Some? ==> Lost(r))
  {
    W.ReachedOk(r.watch.value);
  }

  /** A nudge while a solve exposes: its frame is stale, and the stay is lost. */
  lemma NudgeLoses(q: Mission, t: Trace, mono: real)
    requires Kept(q, t) && q.started && q.state == Observing && q.g.job == Some(SolveJob) && mono >= q.clock
    requires q.watch.value.p.status == W.Recovering
    ensures var r := FrameLeft(Moved(q, true), mono);
            Kept(r, t) && Lost(r) && r.state == Observing && r.watch.value.stay.clean == q.watch.value.stay.clean
  {
    NudgedKept(q, t, true);
    FrameLeftKept(Moved(q, true), t, mono);
    LostExactly(FrameLeft(Moved(q, true), mono), t);
  }

  /** So does a capture stopped from outside while a solve exposes, and lifting the hold does
      not help. */
  lemma SuspensionLoses(q: Mission, t: Trace)
    requires Kept(q, t) && q.started && q.state == Observing && q.g.job == Some(SolveJob)
    requires q.watch.value.p.status == W.Recovering
    ensures var r := Suspended(q);
            Kept(r, t) && Lost(r) && Lost(r.(g := r.g.(suspended := false)))
            && r.watch.value.stay.clean == q.watch.value.stay.clean
  {
    SuspendedKept(q, t);
    LostExactly(Suspended(q), t);
  }

  /** And a CAPTURE accepted during a run of auto exposure. */
  lemma CaptureLoses(q: Mission, t: Trace, id: nat, settings: Settings)
    requires Kept(q, t) && q.started && q.state == Observing && q.g.autoExposure.Some? && SettingsOk(settings)
    requires q.watch.value.p.status == W.Recovering
    ensures var r := WithCapture(q, id, settings);
            Kept(r, t.(accepted := t.accepted + [(id, settings)])) && Lost(r)
            && r.watch.value.stay.clean == q.watch.value.stay.clean
  {
    WithCaptureKept(q, t, id, settings);
    LostExactly(WithCapture(q, id, settings), t.(accepted := t.accepted + [(id, settings)]));
  }

  /** And a retarget that drops a step and then cannot slew. */
  lemma RetargetLoses(q: Mission, t: Trace, g: Progress, slew: Slew)
    requires Idle(q, t) && q.g.captureId.None? && q.g.focus.None? && Permitted(slew)
    requires g == Retargeted(q.g, g.aimRa, g.aimDec, g.liveExposure, g.liveGain, g.request.disc)
    requires q.watch.value.p.status == W.Recovering && UnderWay(q.g)
    ensures var r := Leaving(q, g).(stack := EMPTY_STACK);
            Kept(r, AfterSlew(Leaving(q, g), t.(centringSlews := 0), slew)) && Lost(r)
            && r.watch.value.stay.clean == q.watch.value.stay.clean
  {
    RetargetedAtRest(q, t, g);
    SlewKept(Leaving(q, g), t.(centringSlews := 0), slew, q.clock);
    LostExactly(Leaving(q, g).(stack := EMPTY_STACK), AfterSlew(Leaving(q, g), t.(centringSlews := 0), slew));
  }

  /** At most six of a mission's corrective slews fall in any ten minutes. */
  lemma CorrectiveSlewsBudgeted(watch: Option<W.View>, corrective: seq<real>, start: real)
    requires SlewsCharged(watch, corrective) && (watch.Some? ==> W.Reached(watch.value))
    ensures W.InWindow(corrective, start) <= W.MAX_CORRECTIVE_SLEWS
  {
    if watch.Some? {
      W.ReachedOk(watch.value);
      W.WatchPromises(watch.value, start);
    }
  }

  /** The mission in hand has been OBSERVING. */
  ghost predicate HasObserved(m: Mission) {
    exists i :: 0 <= i < |m.history| && m.history[i] == Event(m.offers, Observing)
  }

  /** There, or ended, or with so many pumps left at most. */
  ghost predicate Arriving(m: Mission, left: int) {
    HasObserved(m) || Terminal(m.state) || (Acquiring(m) && !m.g.suspended && 0 < PumpsLeft(m) <= left)
  }

  lemma StillObserved(q: Mission, r: Mission)
    requires HasObserved(q) && q.offers == r.offers && q.history <= r.history
    ensures HasObserved(r)
  {
    var i :| 0 <= i < |q.history| && q.history[i] == Event(q.offers, Observing);
    assert r.history[i] == Event(r.offers, Observing);
  }

  /** What may be relied on: of the history and its endings, of every slew and every capture
      delivered, of how often the mount is corrected and how often a solve is tried, of when the
      ladder has no step to come, and of why a mission that has been OBSERVING ends: as
      exhausted, only when a RECENTER came after the last event before its ending. */
  ghost predicate Promised(m: Mission, t: Trace) {
    && LegalHistory(m.history) && EndingsPark(m.history, t.endings)
    && AllPermitted(t.slews)
    && (forall i :: 0 <= i < |t.delivered| ==> DeliveryOk(t.delivered[i], t.accepted))
    && (forall i, j :: 0 <= i < j < |t.delivered| ==> t.delivered[i].request != t.delivered[j].request)
    && (forall start :: W.InWindow(t.corrective, start) <= W.MAX_CORRECTIVE_SLEWS)
    && W.Spaced(t.discs)
    && (m.watch.Some? ==>
          var (p, stay) := (m.watch.value.p, m.watch.value.stay);
          && W.Reached(m.watch.value)
          && (p.status == W.Recovering && stay.clean ==> stay.issued <= 16 && stay.lost != Some(W.Fruitless))
          && (p.status == W.Recovering && m.started && Live(m.state) ==>
                (p.pending.None? && !p.awaitingFrame && !UnderWay(m.g) <==> stay.lost.Some?))
          && (p.pending == Some(W.Recentre) ==> stay.solveFoundOffset))
    && Centred(m.history) && t.centringSlews <= MAX_CENTERING_ITERATIONS
    && (forall n :: Times(t.solvedAt, n) <= MAX_SOLVE_ATTEMPTS)
    && (HasObserved(m) ==> m.failure != Some(PlateSolveFailed))
    && (HasObserved(m) && m.failure == Some(CenteringExhausted) ==> |m.history| - 1 in t.recentred)
  }

  lemma RunnerPromises(m: Mission, t: Trace)
    requires Kept(m, t)
    ensures Promised(m, t)
  {
    forall start ensures W.InWindow(t.corrective, start) <= W.MAX_CORRECTIVE_SLEWS {
      CorrectiveSlewsBudgeted(m.watch, t.corrective, start);
    }
    if m.watch.Some? {
      W.ReachedOk(m.watch.value);
      W.WatchPromises(m.watch.value, 0.0);
    }
  }
}
