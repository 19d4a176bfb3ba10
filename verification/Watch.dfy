/**
 The image watch of a live session: it judges nothing and moves nothing, it only
 decides which recovery step comes next (`agent/darkview_agent/mission/watch.py`).

 Times are the runner's monotonic seconds, as reals. The wall-clock fields that are
 only reported to clients (`since`, `nextRetryAt`) are not part of this model.
 */
module Watch {
  import opened Common

  datatype Status = Ok | Recovering | Waiting | Unrecovered
  datatype Reason = BlankFrame | Overexposed | Clouds | NoStars | OffCentre
  datatype Rung = ReExpose | ReSolve | ReCentre | WaitForSky
  datatype Need = AutoExpose | Solve | Recentre

  const HEALTH_DEBOUNCE_FRAMES := 3
  const HEALTH_DEBOUNCE_SECONDS := 10.0
  const GOOD_FRAMES_TO_CLEAR := 2
  const CLOUD_RETRY_SECONDS := 120.0
  const LADDER_PASSES := 2
  const UNRECOVERED_RECHECK_SECONDS := 300.0
  const PERIODIC_RESOLVE_SECONDS := 300.0
  const CENTROID_CORRECTION_MIN_INTERVAL_SECONDS := 30.0
  const MAX_CORRECTIVE_SLEWS := 6
  const CORRECTIVE_SLEW_WINDOW_SECONDS := 600.0
  const MAX_RECENTRE_ITERATIONS := 3
  const AUTO_EXPOSE_DRIFT_CHECKS := 2
  const SOLVE_FAILURES_MEANING_CLOUD := 2

  /** The most steps one pass of the ladder can ask for: expose, solve, then three
      re-centre and solve pairs. */
  const PASS_STEPS := 2 + 2 * MAX_RECENTRE_ITERATIONS

  // ------------------------------------------------------------------
  // The slew budget, as a property of a history of slew times
  // ------------------------------------------------------------------

  ghost predicate Nondecreasing(times: seq<real>) {
    forall i, j :: 0 <= i < j < |times| ==> times[i] <= times[j]
  }

  /** Every slew is at least the window later than the one `MAX_CORRECTIVE_SLEWS` before it. */
  ghost predicate Budgeted(times: seq<real>) {
    forall i, j :: 0 <= i && i + MAX_CORRECTIVE_SLEWS == j < |times| ==>
      times[j] - times[i] >= CORRECTIVE_SLEW_WINDOW_SECONDS
  }

  /** Each is at least thirty seconds after the one before it. */
  ghost predicate Spaced(times: seq<real>) {
    forall i, j :: 0 <= i && i + 1 == j < |times| ==>
      times[j] - times[i] >= CENTROID_CORRECTION_MIN_INTERVAL_SECONDS
  }

  /** How many of `times` fall in the half-open window of 600 seconds starting at `start`. */
  ghost function InWindow(times: seq<real>, start: real): nat {
    if times == [] then 0
    else InWindow(times[..|times| - 1], start)
         + (if start <= times[|times| - 1] < start + CORRECTIVE_SLEW_WINDOW_SECONDS then 1 else 0)
  }

  /** So spaced, no ten minutes hold more than six. */
  lemma {:induction false} AtMostSixInAnyWindow(times: seq<real>, start: real)
    requires Nondecreasing(times) && Budgeted(times)
    ensures InWindow(times, start) <= MAX_CORRECTIVE_SLEWS
  {
    if |times| == 0 {
      return;
    }
    var n := |times|;
    AtMostSixInAnyWindow(times[..n - 1], start);
    if start <= times[n - 1] < start + CORRECTIVE_SLEW_WINDOW_SECONDS {
      var older := times[..n - 1];
      if n <= MAX_CORRECTIVE_SLEWS {
        WindowAtMostLength(older, start);
      } else {
        // The seventh newest is already outside the window, so the window holds only
        // what came after it.
        var cut := n - MAX_CORRECTIVE_SLEWS;
        assert times[n - 1] - times[cut - 1] >= CORRECTIVE_SLEW_WINDOW_SECONDS;
        forall i | 0 <= i < cut
          ensures older[i] < start
        {
          assert times[i] <= times[cut - 1];
        }
        WindowSkipsOlder(older, cut, start);
      }
    }
  }

  lemma {:induction false} WindowAtMostLength(times: seq<real>, start: real)
    ensures InWindow(times, start) <= |times|
  {
    if times != [] {
      WindowAtMostLength(times[..|times| - 1], start);
    }
  }

  lemma {:induction false} WindowSkipsOlder(times: seq<real>, cut: nat, start: real)
    requires cut <= |times|
    requires forall i :: 0 <= i < cut ==> times[i] < start
    ensures InWindow(times, start) <= |times| - cut
  {
    if |times| == cut {
      if cut > 0 {
        WindowSkipsOlder(times[..cut - 1], cut - 1, start);
      }
    } else {
      WindowSkipsOlder(times[..|times| - 1], cut, start);
    }
  }

  /** No window holds more of `some` than of `all`. */
  ghost predicate Covered(some: seq<real>, all: seq<real>) {
    forall start :: InWindow(some, start) <= InWindow(all, start)
  }

  lemma CoveredAppend(some: seq<real>, all: seq<real>, time: real)
    requires Covered(some, all)
    ensures Covered(some, all + [time]) && Covered(some + [time], all + [time])
  {
    assert (some + [time])[..|some|] == some && (all + [time])[..|all|] == all;
  }

  // ------------------------------------------------------------------
  // The state of the watch
  // ------------------------------------------------------------------

  /** The picture's verdict and the ladder: everything `reset` starts again. */
  datatype Picture = Picture(
    disc: bool,
    status: Status,
    reason: Option<Reason>,
    step: Option<Rung>,
    attempt: nat,
    nextRetry: Option<real>,
    streak: nat,
    streakSince: real,
    good: nat,
    driftChecks: nat,
    pending: Option<Need>,
    awaitingFrame: bool,
    recheck: bool,
    recentreIterations: nat,
    solveFailures: nat,
    lastSolve: real,
    latestReason: Option<Reason>,
    framingHeld: bool)

  /** What the mount has been put through, which a reset does not forgive. */
  datatype Budget = Budget(slews: seq<real>, lastDiscCorrection: Option<real>)

  /** Every slew charged and not refused, every disc correction issued, and the latest
      time a step was asked for. */
  datatype Wear = Wear(charged: seq<real>, discCharged: seq<real>, clock: real)

  /** How a stay in RECOVERING can be left with no step to come: its last step was dropped
      before there was an outcome, or was the solve of a re-check that led to nothing. */
  datatype Loss = Dropped | Fruitless

  /** The step last issued until its outcome is reported or it is dropped, whether this stay in
      RECOVERING began with no re-check outstanding, the steps it has issued, whether the last
      reported solve found an offset beyond its limit, and how the stay was lost, if it was. */
  datatype Stay = Stay(outstanding: Option<Need>, clean: bool, issued: nat, solveFoundOffset: bool,
                       lost: Option<Loss>)

  /** The deque is the recent end of the history of charged slews, and what has left it
      is more than a window old. */
  ghost predicate SlewsOk(slews: seq<real>, charged: seq<real>, clock: real) {
    && |slews| <= MAX_CORRECTIVE_SLEWS
    && |slews| <= |charged|
    && slews == charged[|charged| - |slews|..]
    && Nondecreasing(charged)
    && Budgeted(charged)
    && (forall i :: 0 <= i < |charged| ==> charged[i] <= clock)
    && (forall i :: 0 <= i < |charged| - |slews| ==>
          clock - charged[i] >= CORRECTIVE_SLEW_WINDOW_SECONDS)
  }

  ghost predicate DiscOk(last: Option<real>, issued: seq<real>) {
    && Spaced(issued)
    && last == if issued == [] then None else Some(issued[|issued| - 1])
  }

  ghost predicate BudgetOk(b: Budget, w: Wear) {
    SlewsOk(b.slews, w.charged, w.clock) && DiscOk(b.lastDiscCorrection, w.discCharged)
  }

  /** How many more steps a stay in RECOVERING can still ask for: what is left of this
      pass, and the whole of the second pass if this is the first. */
  ghost function StepsLeft(p: Picture, outstanding: Option<Need>): (left: nat)
    ensures left <= LADDER_PASSES * PASS_STEPS
  {
    var recentres := if p.recentreIterations >= MAX_RECENTRE_ITERATIONS then 0
                     else 2 * (MAX_RECENTRE_ITERATIONS - p.recentreIterations);
    var inPass :=
      if p.pending == Some(AutoExpose) then 2 + recentres
      else if p.pending == Some(Solve) then 1 + recentres
      else if p.pending == Some(Recentre) then recentres
      else if p.awaitingFrame then (if p.step == Some(ReExpose) then 1 + recentres else 0)
      else if outstanding == Some(Solve) then recentres
      else if outstanding.Some? then 1 + recentres
      else 0;
    inPass + (if p.attempt == 1 then PASS_STEPS else 0)
  }

  /** What holds through every stay in RECOVERING that began with no re-check outstanding. */
  ghost predicate ClimbOk(p: Picture, g: Stay) {
    && !p.recheck && g.lost != Some(Fruitless)
    && (p.pending == Some(Recentre) ==> p.recentreIterations < MAX_RECENTRE_ITERATIONS)
    && (p.pending == Some(Solve) ==> p.step == Some(ReSolve))
    && (g.outstanding == Some(Solve) ==> p.step == Some(ReSolve))
    && g.issued + StepsLeft(p, g.outstanding) <= LADDER_PASSES * PASS_STEPS
  }

  /** In RECOVERING with no step to come: none wanted, none under way, no frame awaited. */
  predicate Stalled(p: Picture, g: Stay) {
    p.status == Recovering && p.pending.None? && g.outstanding.None? && !p.awaitingFrame
  }

  /** One thing at a time is to come, and nothing exactly when the stay was lost. */
  ghost predicate OneToCome(p: Picture, g: Stay) {
    && (p.pending.Some? ==> g.outstanding.None? && !p.awaitingFrame)
    && (p.awaitingFrame ==> g.outstanding.None?)
    && (p.pending == Some(AutoExpose) || g.outstanding == Some(AutoExpose) ==> p.step == Some(ReExpose))
    && (Stalled(p, g) <==> g.lost.Some?)
  }

  ghost predicate LadderOk(p: Picture, g: Stay) {
    && (p.status != Ok ==> p.reason.Some? && 1 <= p.attempt <= LADDER_PASSES)
    && (p.status == Recovering ==> OneToCome(p, g))
    && (p.status == Recovering && g.clean ==> ClimbOk(p, g))
    && (p.pending == Some(Recentre) ==> g.solveFoundOffset)
  }

  // ------------------------------------------------------------------
  // The ladder's moves
  // ------------------------------------------------------------------

  function FirstRung(reason: Reason): Rung {
    if reason == OffCentre then ReSolve else ReExpose
  }

  function NeedFor(rung: Rung): Need
    requires rung != WaitForSky
  {
    match rung
    case ReExpose => AutoExpose
    case ReSolve => Solve
    case ReCentre => Recentre
  }

  function Fresh(mono: real, disc: bool): Picture {
    Picture(disc, Ok, None, None, 0, None, 0, 0.0, 0, 0, None, false, false, 0, 0, mono, None, false)
  }

  function TakeRung(p: Picture, rung: Rung): Picture
    requires rung != WaitForSky
  {
    p.(step := Some(rung), awaitingFrame := false, pending := Some(NeedFor(rung)))
  }

  function WaitOut(p: Picture, mono: real): Picture {
    p.(reason := Some(Clouds), attempt := if p.attempt == 0 then 1 else p.attempt,
       step := Some(WaitForSky), pending := None, awaitingFrame := false,
       status := Waiting, nextRetry := Some(mono + CLOUD_RETRY_SECONDS))
  }

  /** A pass of the ladder failed: climb it once more, or stop moving the mount. */
  function PassFailed(p: Picture, mono: real): (q: Picture)
    requires p.reason.Some?
    ensures q.disc == p.disc && q.framingHeld == p.framingHeld && q.recheck == p.recheck
    ensures q.pending != Some(Recentre)
  {
    if p.attempt >= LADDER_PASSES then
      p.(step := None, pending := None, awaitingFrame := false, status := Unrecovered,
         nextRetry := Some(mono + UNRECOVERED_RECHECK_SECONDS))
    else
      TakeRung(p.(attempt := p.attempt + 1, recentreIterations := 0), FirstRung(p.reason.value))
  }

  function Cleared(p: Picture): Picture {
    p.(status := Ok, reason := None, step := None, attempt := 0, nextRetry := None, pending := None,
       awaitingFrame := false, recheck := false, streak := 0, good := 0)
  }

  function Started(p: Picture, why: Reason, mono: real, rung: Option<Rung>): Picture
    requires rung != Some(WaitForSky)
  {
    var q := p.(reason := Some(why), attempt := 1, solveFailures := 0, recentreIterations := 0, good := 0);
    if why == Clouds then WaitOut(q, mono)
    else TakeRung(q.(status := Recovering), if rung.Some? then rung.value else FirstRung(why))
  }

  /** Two good frames in a row clear most verdicts, but not an offset that only a solve can see. */
  function AfterGoodFrame(p: Picture, drift: bool): (r: Picture)
    ensures r.disc == p.disc && r.framingHeld == p.framingHeld
    ensures r.status == p.status || r.status == Ok
  {
    var q := p.(latestReason := None, streak := 0, good := p.good + 1);
    if q.status == Ok then
      var checks := if drift then q.driftChecks + 1 else 0;
      if checks >= AUTO_EXPOSE_DRIFT_CHECKS && q.pending.None? then
        q.(driftChecks := 0, pending := Some(AutoExpose))
      else q.(driftChecks := checks)
    else if q.good >= GOOD_FRAMES_TO_CLEAR && !(q.reason == Some(OffCentre) && !q.disc) then Cleared(q)
    else q
  }

  function AfterBadFrame(p: Picture, why: Reason, mono: real): (r: Picture)
    requires p.status != Ok ==> p.reason.Some?
    ensures r.disc == p.disc && r.framingHeld == p.framingHeld
    ensures r.pending == Some(Recentre) ==> p.pending == Some(Recentre)
    ensures r.status == Recovering && p.status != Recovering ==> p.status == Ok
  {
    var q := p.(latestReason := Some(why), good := 0);
    if q.status == Ok then
      var since := if q.streak == 0 then mono else q.streakSince;
      var streak := q.streak + 1;
      if streak >= HEALTH_DEBOUNCE_FRAMES && mono - since >= HEALTH_DEBOUNCE_SECONDS then
        Started(q.(streak := 0, streakSince := since), why, mono, None)
      else q.(streak := streak, streakSince := since)
    else if q.status == Recovering && why == Clouds then WaitOut(q, mono)
    else if q.status == Recovering && q.awaitingFrame then
      if q.step == Some(ReExpose) then TakeRung(q.(awaitingFrame := false), ReSolve)
      else PassFailed(q.(awaitingFrame := false), mono)
    else q
  }

  function AfterSolve(p: Picture, offset: Option<real>, limit: real, mono: real, raised: bool): (r: Picture)
    requires p.status != Ok ==> p.reason.Some?
    ensures r.disc == p.disc && r.framingHeld == p.framingHeld
    ensures r.pending == Some(Recentre) && p.pending != Some(Recentre) ==> offset.Some? && offset.value > limit
  {
    var q := p.(lastSolve := mono);
    var centred := offset.Some? && offset.value <= limit;
    if q.status == Ok then
      if offset.Some? && !centred && !q.framingHeld then Started(q, OffCentre, mono, Some(ReCentre)) else q
    else if q.recheck then
      var r := q.(recheck := false);
      if offset.None? then r
      else if !centred then r.(pending := Some(Recentre))
      else if r.reason == Some(OffCentre) then Cleared(r)
      else r
    else if q.status != Recovering then q
    else if offset.None? then
      var r := q.(solveFailures := q.solveFailures + 1);
      if r.solveFailures >= SOLVE_FAILURES_MEANING_CLOUD && raised then WaitOut(r, mono) else PassFailed(r, mono)
    else if centred then
      if q.reason == Some(OffCentre) then Cleared(q) else q.(awaitingFrame := true)
    else if q.recentreIterations >= MAX_RECENTRE_ITERATIONS then PassFailed(q, mono)
    else TakeRung(q, ReCentre)
  }

  /** What `due` decides when no re-centre is wanted: the step to issue, and the picture after. */
  function NextStep(p: Picture, mono: real): (r: (Option<Need>, Picture))
    requires p.pending != Some(Recentre)
    ensures r.0 != Some(Recentre) && (r.0.Some? ==> r.1.pending.None?)
    ensures r.1.disc == p.disc && r.1.framingHeld == p.framingHeld
  {
    if p.pending.Some? then (p.pending, p.(pending := None))
    else if p.status == Ok && !p.disc && !p.framingHeld && mono - p.lastSolve >= PERIODIC_RESOLVE_SECONDS then
      (Some(Solve), p.(lastSolve := mono))
    else if p.nextRetry.None? || mono < p.nextRetry.value then (None, p)
    else if p.status == Waiting then
      if p.latestReason.None? || p.latestReason == Some(Clouds) then
        (None, p.(nextRetry := Some(mono + CLOUD_RETRY_SECONDS)))
      else
        // The source takes the rung and asks itself again; the rung is what it finds.
        var q := TakeRung(p.(reason := p.latestReason, attempt := 1, status := Recovering), ReExpose);
        (q.pending, q.(pending := None))
    else if p.status == Unrecovered then
      (Some(AutoExpose), p.(recheck := true, nextRetry := Some(mono + UNRECOVERED_RECHECK_SECONDS)))
    else (None, p)
  }

  // ------------------------------------------------------------------
  // Each move keeps the ladder within its measure
  // ------------------------------------------------------------------

  /** A failed pass is followed by the second pass, or by no more slews at all. */
  lemma FailingKeeps(p: Picture, g: Stay, mono: real)
    requires p.status == Recovering && p.reason.Some? && 1 <= p.attempt <= LADDER_PASSES
    requires g.outstanding.None? && g.lost.None?
    requires g.clean ==> !p.recheck
    requires g.clean ==> g.issued + (if p.attempt == 1 then PASS_STEPS else 0) <= LADDER_PASSES * PASS_STEPS
    ensures LadderOk(PassFailed(p, mono), g)
  {
    var q := PassFailed(p, mono);
    if p.attempt == 1 {
      assert q.pending in {Some(AutoExpose), Some(Solve)} && q.recentreIterations == 0;
      assert StepsLeft(q, g.outstanding) <= PASS_STEPS;
    }
  }

  /** A step's outcome, once reported, spends the part of the measure kept for it. */
  lemma OutcomeKeeps(p: Picture, g: Stay, q: Picture)
    requires LadderOk(p, g) && p.status == Recovering && g.clean && g.outstanding.Some?
    requires q.status == Recovering && q.attempt == p.attempt && q.recentreIterations == p.recentreIterations
    requires q.reason == p.reason && q.recheck == p.recheck
    requires match g.outstanding.value
             case AutoExpose => q.pending.None? && q.awaitingFrame && q.step == Some(ReExpose)
             case Recentre => q.pending == Some(Solve) && !q.awaitingFrame && q.step == Some(ReSolve)
             case Solve =>
               || (q.pending.None? && q.awaitingFrame && q.step != Some(ReExpose))
               || (q.pending == Some(Recentre) && !q.awaitingFrame && q.recentreIterations < MAX_RECENTRE_ITERATIONS)
    ensures ClimbOk(q, g.(outstanding := None))
  {
    assert p.pending.None? && !p.awaitingFrame;
    assert StepsLeft(q, None) <= StepsLeft(p, g.outstanding);
  }

  /** Issuing a step moves one from the measure to the count. */
  lemma IssueKeeps(p: Picture, g: Stay)
    requires LadderOk(p, g) && p.status == Recovering && g.clean && p.pending.Some?
    ensures var q := p.(pending := None,
                        recentreIterations := p.recentreIterations + if p.pending == Some(Recentre) then 1 else 0);
            ClimbOk(q, g.(outstanding := p.pending, issued := g.issued + 1))
  {
    var q := p.(pending := None,
                recentreIterations := p.recentreIterations + if p.pending == Some(Recentre) then 1 else 0);
    assert !q.awaitingFrame && !p.awaitingFrame;
    match p.pending.value {
      case AutoExpose => assert StepsLeft(q, p.pending) + 1 == StepsLeft(p, g.outstanding);
      case Solve => assert StepsLeft(q, p.pending) + 1 == StepsLeft(p, g.outstanding);
      case Recentre => assert StepsLeft(q, p.pending) + 1 == StepsLeft(p, g.outstanding);
    }
  }

  /** A stay begins with the whole ladder, or less, ahead of it. */
  lemma StartKeeps(q: Picture, found: bool)
    requires q.status == Recovering && q.reason.Some? && q.attempt == 1 && q.pending.Some? && !q.awaitingFrame
    requires q.pending == Some(AutoExpose) ==> q.step == Some(ReExpose)
    requires q.pending == Some(Solve) ==> q.step == Some(ReSolve)
    requires q.pending == Some(Recentre) ==> found && q.recentreIterations < MAX_RECENTRE_ITERATIONS
    ensures LadderOk(q, Stay(None, !q.recheck, 0, found, None))
  {
    assert StepsLeft(q, None) <= LADDER_PASSES * PASS_STEPS;
  }

  /** The frame after a re-exposure is still bad: solve. */
  lemma ResolveKeeps(p: Picture, g: Stay)
    requires LadderOk(p, g) && p.status == Recovering && p.awaitingFrame && p.step == Some(ReExpose)
    ensures LadderOk(TakeRung(p.(awaitingFrame := false), ReSolve), g)
  {
    var q := TakeRung(p.(awaitingFrame := false), ReSolve);
    if g.clean {
      assert p.pending.None?;
      assert StepsLeft(q, g.outstanding) <= StepsLeft(p, g.outstanding);
    }
  }

  /** The solve of a re-check leads to nothing when it fails, or finds the object centred
      although that was not what was wrong. */
  predicate LeadsNowhere(p: Picture, offset: Option<real>, limit: real) {
    p.status == Recovering && p.recheck && (offset.None? || (offset.value <= limit && p.reason != Some(OffCentre)))
  }

  function StayAfterSolve(p: Picture, g: Stay, q: Picture, offset: Option<real>, limit: real): Stay {
    var found := offset.Some? && offset.value > limit;
    if p.status != Recovering && q.status == Recovering then Stay(None, !q.recheck, 0, found, None)
    else g.(outstanding := None, solveFoundOffset := found,
            lost := if LeadsNowhere(p, offset, limit) then Some(Fruitless) else g.lost)
  }

  /** A solve's verdict keeps the ladder, and only an offset beyond the limit asks for a slew. */
  lemma SolveKeeps(p: Picture, g: Stay, offset: Option<real>, limit: real, mono: real, raised: bool)
    requires LadderOk(p, g) && p.pending != Some(Recentre)
    requires p.status == Recovering ==> g.outstanding == Some(Solve)
    ensures var q := AfterSolve(p, offset, limit, mono, raised);
            LadderOk(q, StayAfterSolve(p, g, q, offset, limit))
  {
    var q := AfterSolve(p, offset, limit, mono, raised);
    var g' := StayAfterSolve(p, g, q, offset, limit);
    if p.status == Ok {
      if q.status == Recovering { StartKeeps(q, g'.solveFoundOffset); }
    } else if p.status == Recovering && !p.recheck {
      SolveKeepsClimb(p, g, offset, limit, mono, raised);
    }
  }

  lemma SolveKeepsClimb(p: Picture, g: Stay, offset: Option<real>, limit: real, mono: real, raised: bool)
    requires LadderOk(p, g) && p.pending != Some(Recentre)
    requires p.status == Recovering && !p.recheck && g.outstanding == Some(Solve)
    ensures var q := AfterSolve(p, offset, limit, mono, raised);
            LadderOk(q, g.(outstanding := None, solveFoundOffset := offset.Some? && offset.value > limit))
  {
    var q := AfterSolve(p, offset, limit, mono, raised);
    var g' := g.(outstanding := None, solveFoundOffset := offset.Some? && offset.value > limit);
    if offset.None? {
      FailingKeeps(p.(lastSolve := mono, solveFailures := p.solveFailures + 1), g', mono);
    } else if offset.value > limit && p.recentreIterations >= MAX_RECENTRE_ITERATIONS {
      FailingKeeps(p.(lastSolve := mono), g', mono);
    } else if g.clean && q.status == Recovering {
      OutcomeKeeps(p, g, q);
    }
  }

  function StayAfterStep(p: Picture, g: Stay, need: Option<Need>, q: Picture): Stay {
    if need.None? then g
    else if p.status != Recovering && q.status == Recovering then Stay(need, !q.recheck, 1, g.solveFoundOffset, None)
    else g.(outstanding := need, issued := g.issued + 1)
  }

  lemma NextStepKeeps(p: Picture, g: Stay, mono: real)
    requires LadderOk(p, g) && p.pending != Some(Recentre)
    ensures var (need, q) := NextStep(p, mono); LadderOk(q, StayAfterStep(p, g, need, q))
  {
    if p.status == Recovering {
      if g.clean && p.pending.Some? { IssueKeeps(p, g); }
    } else if NextStep(p, mono).1.status == Recovering {
      var q := TakeRung(p.(reason := p.latestReason, attempt := 1, status := Recovering), ReExpose);
      StartKeeps(q, g.solveFoundOffset);
      if !q.recheck { IssueKeeps(q, Stay(None, true, 0, g.solveFoundOffset, None)); }
    }
  }

  lemma GoodFrameKeeps(p: Picture, g: Stay, drift: bool)
    requires LadderOk(p, g)
    ensures LadderOk(AfterGoodFrame(p, drift), g)
  {
    var q := AfterGoodFrame(p, drift);
    if q.status == Recovering && g.clean {
      assert StepsLeft(q, g.outstanding) == StepsLeft(p, g.outstanding);
    }
  }

  lemma AwaitedFrameKeeps(p: Picture, g: Stay, why: Reason, mono: real)
    requires LadderOk(p, g) && p.status == Recovering && why != Clouds && p.awaitingFrame
    ensures LadderOk(AfterBadFrame(p, why, mono), g)
  {
    var r := p.(latestReason := Some(why), good := 0);
    if g.clean { assert StepsLeft(r, g.outstanding) == StepsLeft(p, g.outstanding); }
    if p.step == Some(ReExpose) {
      ResolveKeeps(r, g);
    } else {
      FailingKeeps(r.(awaitingFrame := false), g, mono);
    }
  }

  lemma BadFrameKeeps(p: Picture, g: Stay, why: Reason, mono: real)
    requires LadderOk(p, g)
    ensures var q := AfterBadFrame(p, why, mono);
            if p.status == Ok && q.status == Recovering
            then LadderOk(q, Stay(None, !q.recheck, 0, g.solveFoundOffset, None))
            else LadderOk(q, g)
  {
    var q := AfterBadFrame(p, why, mono);
    if p.status == Ok {
      if q.status == Recovering { StartKeeps(q, g.solveFoundOffset); }
    } else if p.status == Recovering && why != Clouds && p.awaitingFrame {
      AwaitedFrameKeeps(p, g, why, mono);
    } else if p.status == Recovering && why != Clouds {
      UnawaitedFrameKeeps(p, g, why, mono);
    }
  }

  lemma UnawaitedFrameKeeps(p: Picture, g: Stay, why: Reason, mono: real)
    requires LadderOk(p, g) && p.status == Recovering && why != Clouds && !p.awaitingFrame
    ensures LadderOk(AfterBadFrame(p, why, mono), g)
  {
    if g.clean {
      assert StepsLeft(AfterBadFrame(p, why, mono), g.outstanding) == StepsLeft(p, g.outstanding);
    }
  }

  /** A stay in RECOVERING that goes on keeps its count, plus what was just issued; one
      that begins starts from nothing. */
  ghost predicate SameStay(v: View, w: View, issued: nat) {
    w.p.status == Recovering ==>
      if v.p.status == Recovering then w.stay.clean == v.stay.clean && w.stay.issued == v.stay.issued + issued
      else w.stay.issued == issued && w.stay.clean == !w.p.recheck
  }

  // ------------------------------------------------------------------
  // The budget is kept by each thing that happens to it
  // ------------------------------------------------------------------

  lemma DropOldest(slews: seq<real>, charged: seq<real>, clock: real)
    requires SlewsOk(slews, charged, clock) && slews != []
    requires clock - slews[0] >= CORRECTIVE_SLEW_WINDOW_SECONDS
    ensures SlewsOk(slews[1..], charged, clock)
  {
    assert slews[1..] == charged[|charged| - |slews| + 1..];
  }

  lemma {:induction false} StillRecentKeeps(slews: seq<real>, charged: seq<real>, clock: real)
    requires SlewsOk(slews, charged, clock)
    ensures SlewsOk(StillRecent(slews, clock), charged, clock)
  {
    if slews != [] && clock - slews[0] >= CORRECTIVE_SLEW_WINDOW_SECONDS {
      DropOldest(slews, charged, clock);
      StillRecentKeeps(slews[1..], charged, clock);
    }
  }

  lemma ReturnCharge(slews: seq<real>, charged: seq<real>, clock: real)
    requires SlewsOk(slews, charged, clock) && slews != []
    ensures charged[|charged| - 1] == slews[|slews| - 1]
    ensures SlewsOk(slews[..|slews| - 1], charged[..|charged| - 1], clock)
  {
    assert slews[..|slews| - 1] == charged[..|charged| - 1][|charged| - |slews|..];
  }

  /** A slew taken with fewer than six in the deque keeps every window within budget. */
  lemma Charge(slews: seq<real>, charged: seq<real>, clock: real)
    requires SlewsOk(slews, charged, clock) && |slews| < MAX_CORRECTIVE_SLEWS
    ensures SlewsOk(slews + [clock], charged + [clock], clock)
  {
    assert slews + [clock] == (charged + [clock])[|charged| - |slews|..];
  }

  // ------------------------------------------------------------------
  // The watch as a value, and what each report does to it
  // ------------------------------------------------------------------

  datatype View = View(p: Picture, budget: Budget, wear: Wear, stay: Stay)

  ghost predicate ViewOk(v: View) {
    BudgetOk(v.budget, v.wear) && LadderOk(v.p, v.stay)
  }

  function Begun(mono: real, disc: bool): View {
    View(Fresh(mono, disc), Budget([], None), Wear([], [], mono), Stay(None, true, 0, false, None))
  }

  /** Everything about the picture starts again; what was charged to the mount does not. */
  function OnReset(v: View, mono: real, disc: bool): View {
    v.(p := Fresh(mono, disc), stay := Stay(None, true, 0, false, None))
  }

  function OnFrame(v: View, verdict: Option<Reason>, mono: real, drift: bool): View
    requires v.p.status != Ok ==> v.p.reason.Some?
  {
    if verdict.None? then v.(p := AfterGoodFrame(v.p, drift))
    else
      var q := AfterBadFrame(v.p, verdict.value, mono);
      v.(p := q, stay := if v.p.status == Ok && q.status == Recovering
                         then Stay(None, !q.recheck, 0, v.stay.solveFoundOffset, None) else v.stay)
  }

  function OnAutoExposed(v: View): View {
    var p := v.p;
    v.(stay := v.stay.(outstanding := None),
       p := if p.recheck then p.(pending := Some(Solve))
            else if p.status == Recovering && p.step == Some(ReExpose) then p.(awaitingFrame := true)
            else p)
  }

  function OnSolved(v: View, offset: Option<real>, limit: real, mono: real, raised: bool): View
    requires v.p.status != Ok ==> v.p.reason.Some?
  {
    var q := AfterSolve(v.p, offset, limit, mono, raised);
    v.(p := q, stay := StayAfterSolve(v.p, v.stay, q, offset, limit))
  }

  function OnRecentred(v: View): View {
    v.(stay := v.stay.(outstanding := None),
       p := if v.p.status == Recovering then TakeRung(v.p, ReSolve)
            else v.p.(recheck := true, pending := Some(Solve)))
  }

  /** The slew was not made. The charge is returned when the refusal is reported at the
      instant the step was issued. */
  function OnRefused(v: View, mono: real): View
    requires v.p.status != Ok ==> v.p.reason.Some?
  {
    var n := |v.budget.slews|;
    var w := v.(stay := v.stay.(outstanding := None),
                p := if v.p.status == Recovering then PassFailed(v.p, mono) else v.p);
    if n > 0 && v.budget.slews[n - 1] == mono && v.wear.charged != [] then
      w.(budget := v.budget.(slews := v.budget.slews[..n - 1]),
         wear := v.wear.(charged := v.wear.charged[..|v.wear.charged| - 1]))
    else w
  }

  /** The step is given up before it has an outcome, and the watch is not told. */
  function OnDropped(v: View, need: Need): View {
    if v.stay.outstanding != Some(need) then v
    else v.(stay := v.stay.(outstanding := None,
                            lost := if v.p.status == Recovering then Some(Dropped) else v.stay.lost))
  }

  function OnMoved(v: View): View {
    v.(p := v.p.(framingHeld := true))
  }

  /** Straight to UNRECOVERED, with no pass of the ladder left. */
  function OnGaveUp(v: View, why: Reason, mono: real): View {
    v.(p := v.p.(reason := Some(why), attempt := LADDER_PASSES, step := None, pending := None,
                 status := Unrecovered, nextRetry := Some(mono + UNRECOVERED_RECHECK_SECONDS)))
  }

  /** The slews still within the window. */
  function StillRecent(slews: seq<real>, mono: real): seq<real> {
    if slews != [] && mono - slews[0] >= CORRECTIVE_SLEW_WINDOW_SECONDS then StillRecent(slews[1..], mono)
    else slews
  }

  predicate TooSoon(b: Budget, disc: bool, mono: real) {
    disc && b.lastDiscCorrection.Some?
    && mono - b.lastDiscCorrection.value < CENTROID_CORRECTION_MIN_INTERVAL_SECONDS
  }

  /** The budget and the disc interval decide whether a wanted slew may be made. */
  function TakeRecentre(v: View, mono: real): (r: (Option<Need>, View))
    requires v.p.status != Ok ==> v.p.reason.Some?
  {
    var slews := StillRecent(v.budget.slews, mono);
    var w := v.(budget := v.budget.(slews := slews), wear := v.wear.(clock := mono));
    if |slews| >= MAX_CORRECTIVE_SLEWS then
      var q := v.p.(pending := None);
      (None, w.(p := if q.status == Recovering then PassFailed(q, mono) else q))
    else if TooSoon(v.budget, v.p.disc, mono) then (None, w)  // it stays pending
    else
      (Some(Recentre),
       View(v.p.(pending := None, recentreIterations := v.p.recentreIterations + 1),
            Budget(slews + [mono], if v.p.disc then Some(mono) else v.budget.lastDiscCorrection),
            Wear(v.wear.charged + [mono],
                 if v.p.disc then v.wear.discCharged + [mono] else v.wear.discCharged, mono),
            v.stay.(outstanding := Some(Recentre), issued := v.stay.issued + 1)))
  }

  /** What the runner is to do next, and the watch once it has been told. */
  function OnDue(v: View, mono: real): (r: (Option<Need>, View))
    requires v.p.status != Ok ==> v.p.reason.Some?
  {
    if v.p.pending == Some(Recentre) then TakeRecentre(v, mono)
    else
      var (need, q) := NextStep(v.p, mono);
      (need, v.(p := q, wear := v.wear.(clock := mono), stay := StayAfterStep(v.p, v.stay, need, q)))
  }

  // ------------------------------------------------------------------
  // Every report and every question keeps the promises
  // ------------------------------------------------------------------

  lemma FrameKeeps(v: View, verdict: Option<Reason>, mono: real, drift: bool)
    requires ViewOk(v)
    ensures ViewOk(OnFrame(v, verdict, mono, drift)) && SameStay(v, OnFrame(v, verdict, mono, drift), 0)
  {
    if verdict.None? {
      GoodFrameKeeps(v.p, v.stay, drift);
    } else {
      BadFrameKeeps(v.p, v.stay, verdict.value, mono);
    }
  }

  lemma AutoExposedKeeps(v: View)
    requires ViewOk(v)
    requires v.p.status == Recovering ==> v.stay.outstanding == Some(AutoExpose)
    ensures ViewOk(OnAutoExposed(v)) && SameStay(v, OnAutoExposed(v), 0)
  {
    if v.p.status == Recovering && v.stay.clean {
      OutcomeKeeps(v.p, v.stay, v.p.(awaitingFrame := true));
    }
  }

  lemma SolvedKeeps(v: View, offset: Option<real>, limit: real, mono: real, raised: bool)
    requires ViewOk(v) && v.p.pending != Some(Recentre)
    requires v.p.status == Recovering ==> v.stay.outstanding == Some(Solve)
    ensures ViewOk(OnSolved(v, offset, limit, mono, raised))
    ensures SameStay(v, OnSolved(v, offset, limit, mono, raised), 0)
  {
    SolveKeeps(v.p, v.stay, offset, limit, mono, raised);
  }

  lemma RecentredKeeps(v: View)
    requires ViewOk(v)
    requires v.p.status == Recovering ==> v.stay.outstanding == Some(Recentre)
    ensures ViewOk(OnRecentred(v)) && SameStay(v, OnRecentred(v), 0)
  {
    if v.p.status == Recovering && v.stay.clean {
      OutcomeKeeps(v.p, v.stay, TakeRung(v.p, ReSolve));
    }
  }

  lemma RefusedKeeps(v: View, mono: real)
    requires ViewOk(v) && v.stay.outstanding == Some(Recentre) && v.p.pending.None?
    ensures ViewOk(OnRefused(v, mono)) && SameStay(v, OnRefused(v, mono), 0)
  {
    RefusedKeepsBudget(v, mono);
    RefusedKeepsLadder(v, mono);
  }

  lemma RefusedKeepsBudget(v: View, mono: real)
    requires ViewOk(v)
    ensures BudgetOk(OnRefused(v, mono).budget, OnRefused(v, mono).wear)
  {
    if v.budget.slews != [] {
      ReturnCharge(v.budget.slews, v.wear.charged, v.wear.clock);
    }
  }

  lemma RefusedKeepsLadder(v: View, mono: real)
    requires LadderOk(v.p, v.stay) && v.stay.outstanding == Some(Recentre) && v.p.pending.None?
    ensures LadderOk(OnRefused(v, mono).p, OnRefused(v, mono).stay) && SameStay(v, OnRefused(v, mono), 0)
  {
    if v.p.status == Recovering {
      FailingKeeps(v.p, v.stay.(outstanding := None), mono);
    }
  }

  lemma DroppedKeeps(v: View, need: Need)
    requires ViewOk(v)
    ensures ViewOk(OnDropped(v, need)) && SameStay(v, OnDropped(v, need), 0)
  {
    if v.p.status == Recovering && v.stay.clean && v.stay.outstanding == Some(need) {
      assert StepsLeft(v.p, None) <= StepsLeft(v.p, v.stay.outstanding);
    }
  }

  lemma TakeRecentreKeeps(v: View, mono: real)
    requires ViewOk(v) && v.p.pending == Some(Recentre) && v.wear.clock <= mono
    ensures var (need, w) := TakeRecentre(v, mono);
            ViewOk(w) && SameStay(v, w, if need.Some? then 1 else 0)
  {
    var slews := StillRecent(v.budget.slews, mono);
    StillRecentKeeps(v.budget.slews, v.wear.charged, mono);
    if |slews| >= MAX_CORRECTIVE_SLEWS {
      if v.p.status == Recovering { FailingKeeps(v.p.(pending := None), v.stay, mono); }
    } else if !TooSoon(v.budget, v.p.disc, mono) {
      Charge(slews, v.wear.charged, mono);
      if v.p.status == Recovering && v.stay.clean { IssueKeeps(v.p, v.stay); }
    }
  }

  lemma DueKeeps(v: View, mono: real)
    requires ViewOk(v) && v.wear.clock <= mono
    ensures var (need, w) := OnDue(v, mono);
            ViewOk(w) && SameStay(v, w, if need.Some? then 1 else 0)
  {
    if v.p.pending == Some(Recentre) {
      TakeRecentreKeeps(v, mono);
    } else {
      NextStepKeeps(v.p, v.stay, mono);
    }
  }

  /** A corrective slew is charged exactly when it is issued. */
  lemma DueCharges(v: View, mono: real)
    requires v.p.status != Ok ==> v.p.reason.Some?
    ensures var (need, w) := OnDue(v, mono);
            && w.wear.charged == (if need == Some(Recentre) then v.wear.charged + [mono] else v.wear.charged)
            && w.wear.discCharged == v.wear.discCharged + (if need == Some(Recentre) && v.p.disc then [mono] else [])
  {
  }

  /** What the invariant of the watch comes to. */
  lemma WatchPromises(v: View, start: real)
    requires ViewOk(v)
    ensures InWindow(v.wear.charged, start) <= MAX_CORRECTIVE_SLEWS
    ensures Spaced(v.wear.discCharged)
    ensures v.p.status == Recovering && v.stay.clean ==>
              v.stay.issued <= LADDER_PASSES * PASS_STEPS == 16 && v.stay.lost != Some(Fruitless)
    ensures v.p.status == Recovering ==> (Stalled(v.p, v.stay) <==> v.stay.lost.Some?)
    ensures v.p.pending == Some(Recentre) ==> v.stay.solveFoundOffset
  {
    AtMostSixInAnyWindow(v.wear.charged, start);
  }

  // ------------------------------------------------------------------
  // Any run of the watch
  // ------------------------------------------------------------------

  datatype Happening =
    | Framed(verdict: Option<Reason>, mono: real, drift: bool)
    | Exposed
    | SolvedAt(offset: Option<real>, limit: real, mono: real, raised: bool)
    | Slewed
    | SlewRefused(mono: real)
    | StepDropped(need: Need)
    | Nudged
    | GivenUp(why: Reason, mono: real)
    | Renewed(mono: real, disc: bool)
    | Asked(mono: real)

  /** Outcomes are reported of the step last issued, which alone can be dropped or refused, and it is asked at times that do not go
      back. */
  predicate Heard(v: View, h: Happening) {
    && (v.p.status != Ok ==> v.p.reason.Some?)
    && match h
       case Exposed => v.p.status == Recovering ==> v.stay.outstanding == Some(AutoExpose)
       case SolvedAt(_, _, _, _) =>
         v.p.pending != Some(Recentre) && (v.p.status == Recovering ==> v.stay.outstanding == Some(Solve))
       case Slewed => v.p.status == Recovering ==> v.stay.outstanding == Some(Recentre)
       case SlewRefused(mono) => v.stay.outstanding == Some(Recentre) && v.p.pending.None? && v.wear.clock <= mono
       case StepDropped(need) => v.stay.outstanding == Some(need)
       case Asked(mono) => v.wear.clock <= mono
       case _ => true
  }

  /** What a happening makes of the watch; one that cannot be is as if it had not been. */
  function After(v: View, h: Happening): View {
    if !Heard(v, h) then v
    else match h
      case Framed(verdict, mono, drift) => OnFrame(v, verdict, mono, drift)
      case Exposed => OnAutoExposed(v)
      case SolvedAt(offset, limit, mono, raised) => OnSolved(v, offset, limit, mono, raised)
      case Slewed => OnRecentred(v)
      case SlewRefused(mono) => OnRefused(v, mono)
      case StepDropped(need) => OnDropped(v, need)
      case Nudged => OnMoved(v)
      case GivenUp(why, mono) => OnGaveUp(v, why, mono)
      case Renewed(mono, disc) => OnReset(v, mono, disc)
      case Asked(mono) => OnDue(v, mono).1
  }

  /** The step a happening makes the watch issue. */
  function Issues(v: View, h: Happening): Option<Need> {
    if h.Asked? && Heard(v, h) then OnDue(v, h.mono).0 else None
  }

  function RunOf(v: View, hs: seq<Happening>): View {
    if hs == [] then v else After(RunOf(v, hs[..|hs| - 1]), hs[|hs| - 1])
  }

  /** How many steps have been issued in the stay in RECOVERING the run is in. */
  function StepsInStay(v: View, hs: seq<Happening>): nat {
    if hs == [] || RunOf(v, hs).p.status != Recovering then 0
    else
      var (before, h) := (hs[..|hs| - 1], hs[|hs| - 1]);
      (if RunOf(v, before).p.status == Recovering then StepsInStay(v, before) else 0)
      + if Issues(RunOf(v, before), h).Some? then 1 else 0
  }

  /** Whether that stay began with no re-check outstanding. */
  predicate CleanStay(v: View, hs: seq<Happening>) {
    hs != [] && RunOf(v, hs).p.status == Recovering &&
      var before := hs[..|hs| - 1];
      if RunOf(v, before).p.status == Recovering then CleanStay(v, before) else !RunOf(v, hs).p.recheck
  }

  /** Whether the last solve of the run found an offset beyond its limit. */
  predicate LastSolveBeyond(v: View, hs: seq<Happening>) {
    hs != [] &&
      var (before, h) := (hs[..|hs| - 1], hs[|hs| - 1]);
      if h.SolvedAt? && Heard(RunOf(v, before), h) then h.offset.Some? && h.offset.value > h.limit
      else LastSolveBeyond(v, before)
  }

  /** When the corrections of a disc were granted. */
  function DiscGrants(v: View, hs: seq<Happening>): seq<real> {
    if hs == [] then []
    else
      var (before, h) := (hs[..|hs| - 1], hs[|hs| - 1]);
      DiscGrants(v, before)
      + if Issues(RunOf(v, before), h) == Some(Recentre) && RunOf(v, before).p.disc then [h.mono] else []
  }

  /** When slews were granted, but for those refused at the instant they were granted. */
  function Charges(v: View, hs: seq<Happening>): seq<real> {
    if hs == [] then []
    else
      var (before, h) := (hs[..|hs| - 1], hs[|hs| - 1]);
      var (u, charges) := (RunOf(v, before), Charges(v, before));
      if Issues(u, h) == Some(Recentre) then charges + [h.mono]
      else if h.SlewRefused? && Heard(u, h) && charges != [] && charges[|charges| - 1] == h.mono then charges[..|charges| - 1]
      else charges
  }

  /** How the stay in RECOVERING the run is in was lost, if it was. */
  function LostBy(v: View, hs: seq<Happening>): Option<Loss> {
    if hs == [] || RunOf(v, hs).p.status != Recovering || RunOf(v, hs[..|hs| - 1]).p.status != Recovering then None
    else
      var (before, h) := (hs[..|hs| - 1], hs[|hs| - 1]);
      if !Heard(RunOf(v, before), h) then LostBy(v, before)
      else if h.StepDropped? then Some(Dropped)
      else if h.SolvedAt? && LeadsNowhere(RunOf(v, before).p, h.offset, h.limit) then Some(Fruitless)
      else LostBy(v, before)
  }

  /** What the invariant's own counters say is what happened. */
  ghost predicate Counted(v: View, hs: seq<Happening>) {
    ViewOk(RunOf(v, hs)) && LogsCounted(v, hs) && StayCounted(v, hs)
  }

  ghost predicate LogsCounted(v: View, hs: seq<Happening>) {
    var r := RunOf(v, hs);
    && r.wear.discCharged == DiscGrants(v, hs) && r.wear.charged == Charges(v, hs)
    && (r.stay.solveFoundOffset ==> LastSolveBeyond(v, hs))
  }

  ghost predicate StayCounted(v: View, hs: seq<Happening>) {
    var r := RunOf(v, hs);
    r.p.status == Recovering ==>
      && r.stay.issued == StepsInStay(v, hs) && r.stay.clean == CleanStay(v, hs)
      && r.stay.lost == LostBy(v, hs)
  }

  lemma AfterKeeps(v: View, h: Happening)
    requires ViewOk(v)
    ensures ViewOk(After(v, h)) && SameStay(v, After(v, h), if Issues(v, h).Some? then 1 else 0)
  {
    if Heard(v, h) {
      match h
      case Framed(verdict, mono, drift) => FrameKeeps(v, verdict, mono, drift);
      case Exposed => AutoExposedKeeps(v);
      case SolvedAt(offset, limit, mono, raised) => SolvedKeeps(v, offset, limit, mono, raised);
      case Slewed => RecentredKeeps(v);
      case SlewRefused(mono) => RefusedKeeps(v, mono);
      case StepDropped(need) => DroppedKeeps(v, need);
      case Nudged => NudgedKeeps(v);
      case GivenUp(why, mono) =>
      case Renewed(mono, disc) =>
      case Asked(mono) => DueKeeps(v, mono);
    }
  }

  lemma NudgedKeeps(v: View)
    requires ViewOk(v)
    ensures ViewOk(OnMoved(v)) && SameStay(v, OnMoved(v), 0)
  {
    assert StepsLeft(OnMoved(v).p, v.stay.outstanding) == StepsLeft(v.p, v.stay.outstanding);
  }

  lemma AfterLoses(v: View, h: Happening)
    requires ViewOk(v)
    ensures var w := After(v, h);
            w.p.status == Recovering ==>
              w.stay.lost == if v.p.status != Recovering then None
                             else if !Heard(v, h) then v.stay.lost
                             else if h.StepDropped? then Some(Dropped)
                             else if h.SolvedAt? && LeadsNowhere(v.p, h.offset, h.limit) then Some(Fruitless)
                             else v.stay.lost
  {
  }

  lemma AfterCharges(v: View, h: Happening)
    requires ViewOk(v)
    ensures var (charged, n) := (v.wear.charged, |v.wear.charged|);
            After(v, h).wear.charged ==
              if Issues(v, h) == Some(Recentre) then charged + [h.mono]
              else if h.SlewRefused? && Heard(v, h) && n > 0 && charged[n - 1] == h.mono then charged[..n - 1]
              else charged
  {
    if v.budget.slews != [] {
      assert v.wear.charged[|v.wear.charged| - 1] == v.budget.slews[|v.budget.slews| - 1];
    }
  }

  lemma AfterRecords(v: View, h: Happening)
    ensures var w := After(v, h);
            && w.wear.discCharged == v.wear.discCharged + (if Issues(v, h) == Some(Recentre) && v.p.disc then [h.mono] else [])
            && (w.stay.solveFoundOffset && !(h.SolvedAt? && Heard(v, h)) ==> v.stay.solveFoundOffset)
            && (w.stay.solveFoundOffset && h.SolvedAt? && Heard(v, h) ==> h.offset.Some? && h.offset.value > h.limit)
  {
  }

  lemma {:induction false} RunCounted(mono: real, disc: bool, hs: seq<Happening>)
    ensures Counted(Begun(mono, disc), hs)
  {
    if hs != [] {
      var (v, before, h) := (Begun(mono, disc), hs[..|hs| - 1], hs[|hs| - 1]);
      RunCounted(mono, disc, before);
      AfterKeeps(RunOf(v, before), h);
      LogsGoOn(v, hs);
      StayGoesOn(v, hs);
    }
  }

  lemma LogsGoOn(v: View, hs: seq<Happening>)
    requires hs != [] && ViewOk(RunOf(v, hs[..|hs| - 1])) && LogsCounted(v, hs[..|hs| - 1])
    ensures LogsCounted(v, hs)
  {
    AfterRecords(RunOf(v, hs[..|hs| - 1]), hs[|hs| - 1]);
    AfterCharges(RunOf(v, hs[..|hs| - 1]), hs[|hs| - 1]);
  }

  lemma StayGoesOn(v: View, hs: seq<Happening>)
    requires hs != [] && ViewOk(RunOf(v, hs[..|hs| - 1])) && StayCounted(v, hs[..|hs| - 1])
    ensures StayCounted(v, hs)
  {
    AfterKeeps(RunOf(v, hs[..|hs| - 1]), hs[|hs| - 1]);
    AfterLoses(RunOf(v, hs[..|hs| - 1]), hs[|hs| - 1]);
  }

  /** From its beginning, whatever happens to it: a stay in RECOVERING has no step to come
      exactly when its last step was dropped or was a fruitless re-check; one that began clean
      issues at most sixteen steps and is lost in the first way alone; the corrections of a
      disc are granted thirty seconds apart through every renewal; and a corrective slew is
      issued only when the last solve found an offset beyond its limit. */
  lemma LadderLaw(mono: real, disc: bool, hs: seq<Happening>, h: Happening)
    ensures var (v, w) := (Begun(mono, disc), RunOf(Begun(mono, disc), hs));
            && (w.p.status == Recovering ==> (Stalled(w.p, w.stay) <==> LostBy(v, hs).Some?))
            && (CleanStay(v, hs) ==> StepsInStay(v, hs) <= 16 && LostBy(v, hs) != Some(Fruitless))
            && Spaced(DiscGrants(v, hs))
            && (Issues(w, h) == Some(Recentre) ==> LastSolveBeyond(v, hs))
  {
    RunCounted(mono, disc, hs);
  }

  /** `views` is what the watch is at each point of a run from a beginning. */
  ghost predicate Course(mono: real, disc: bool, hs: seq<Happening>, views: seq<View>) {
    && |views| == |hs| + 1 && views[0] == Begun(mono, disc)
    && forall i {:trigger hs[i]} :: 0 <= i < |hs| ==> views[i + 1] == After(views[i], hs[i])
  }

  lemma {:induction false} CourseIsRun(mono: real, disc: bool, hs: seq<Happening>, views: seq<View>)
    requires Course(mono, disc, hs, views)
    ensures views[|hs|] == RunOf(Begun(mono, disc), hs)
  {
    if hs != [] {
      var n := |hs| - 1;
      CourseIsRun(mono, disc, hs[..n], views[..n + 1]);
      assert views[n + 1] == After(views[n], hs[n]);
    }
  }

  /** A watch that some run from some beginning comes to. */
  ghost predicate Reached(v: View) {
    exists mono, disc, hs, views :: Course(mono, disc, hs, views) && v == views[|hs|]
  }

  lemma ReachedMeans(v: View) returns (mono: real, disc: bool, hs: seq<Happening>)
    requires Reached(v)
    ensures v == RunOf(Begun(mono, disc), hs)
  {
    var views;
    mono, disc, hs, views :| Course(mono, disc, hs, views) && v == views[|hs|];
    CourseIsRun(mono, disc, hs, views);
  }

  lemma ReachedBegun(mono: real, disc: bool)
    ensures Reached(Begun(mono, disc)) && ViewOk(Begun(mono, disc))
  {
    assert Course(mono, disc, [], [Begun(mono, disc)]);
  }

  lemma ReachedAfter(v: View, h: Happening)
    requires Reached(v)
    ensures ViewOk(v) && Reached(After(v, h)) && ViewOk(After(v, h))
  {
    ReachedOk(v);
    AfterKeeps(v, h);
    var mono, disc, hs, views :| Course(mono, disc, hs, views) && v == views[|hs|];
    CourseGoesOn(mono, disc, hs, views, h);
  }

  /** A watch as the runner holds it, at a time of the runner's clock. */
  ghost predicate Alive(v: View, clock: real) {
    Reached(v) && v.wear.clock <= clock && (v.p.status != Ok ==> v.p.reason.Some?)
  }

  lemma DroppedAlive(v: View, need: Need, clock: real)
    requires Alive(v, clock)
    ensures Alive(OnDropped(v, need), clock)
  {
    ReachedAfter(v, StepDropped(need));
  }

  lemma RenewedAlive(v: View, mono: real, disc: bool, clock: real)
    requires Alive(v, clock)
    ensures Alive(OnReset(v, mono, disc), clock)
  {
    ReachedAfter(v, Renewed(mono, disc));
  }

  lemma GaveUpAlive(v: View, why: Reason, mono: real, clock: real)
    requires Alive(v, clock)
    ensures Alive(OnGaveUp(v, why, mono), clock)
  {
    ReachedAfter(v, GivenUp(why, mono));
  }

  lemma RefusedAlive(v: View, mono: real, clock: real)
    requires Alive(v, clock) && v.stay.outstanding == Some(Recentre) && v.p.pending.None? && clock <= mono
    ensures Alive(OnRefused(v, mono), clock)
  {
    ReachedAfter(v, SlewRefused(mono));
  }

  lemma NudgedAlive(v: View, clock: real)
    requires Alive(v, clock)
    ensures Alive(OnMoved(v), clock)
  {
    ReachedAfter(v, Nudged);
  }

  lemma AskedAlive(v: View, mono: real)
    requires Alive(v, mono)
    ensures var (need, w) := OnDue(v, mono);
            && Alive(w, mono)
            && (need.Some? ==> w.stay.outstanding == need && w.p.pending.None?)
            && (need.None? && w.p.status == Recovering ==>
                  v.p.status == Recovering && w.stay.outstanding == v.stay.outstanding)
  {
    ReachedAfter(v, Asked(mono));
  }

  lemma ReachedOk(v: View)
    requires Reached(v)
    ensures ViewOk(v)
  {
    var mono, disc, hs := ReachedMeans(v);
    RunCounted(mono, disc, hs);
  }

  lemma CourseGoesOn(mono: real, disc: bool, hs: seq<Happening>, views: seq<View>, h: Happening)
    requires Course(mono, disc, hs, views)
    ensures Course(mono, disc, hs + [h], views + [After(views[|hs|], h)])
  {
  }

  // ------------------------------------------------------------------
  // When it leaves OK, and when it comes back
  // ------------------------------------------------------------------

  /** When the bad frames came since the last good one, the last renewal or the last coming to
      OK. Out of OK none count. */
  function BadFrames(v: View, hs: seq<Happening>): seq<real> {
    if hs == [] || RunOf(v, hs).p.status != Ok || RunOf(v, hs[..|hs| - 1]).p.status != Ok then []
    else
      match hs[|hs| - 1]
      case Renewed(_, _) => []
      case Framed(verdict, mono, _) => if verdict.None? then [] else BadFrames(v, hs[..|hs| - 1]) + [mono]
      case _ => BadFrames(v, hs[..|hs| - 1])
  }

  /** How many good frames have come since the last bad one, the last renewal, the last coming
      to OK or the last time a frame or a solve took it out of OK. */
  function GoodFrames(v: View, hs: seq<Happening>): nat {
    if hs == [] then 0
    else
      var (before, h) := (hs[..|hs| - 1], hs[|hs| - 1]);
      var (ok, ok') := (RunOf(v, before).p.status == Ok, RunOf(v, hs).p.status == Ok);
      if h.Renewed? || (ok' && !ok) || (ok && !ok' && !h.GivenUp?) then 0
      else if h.Framed? && Heard(RunOf(v, before), h) then
        if h.verdict.None? then GoodFrames(v, before) + 1 else 0
      else GoodFrames(v, before)
  }

  ghost predicate StreakCounted(v: View, hs: seq<Happening>) {
    var (p, bad) := (RunOf(v, hs).p, BadFrames(v, hs));
    && (p.status == Ok ==> p.streak == |bad| && (bad != [] ==> p.streakSince == bad[0]))
    && p.good == GoodFrames(v, hs)
  }

  ghost predicate StreakMoves(v: View, h: Happening) {
    var (p, q) := (v.p, After(v, h).p);
    && (p.status == Ok && q.status == Ok && h.Framed? && h.verdict.Some? ==>
          q.streak == p.streak + 1 && q.streakSince == (if p.streak == 0 then h.mono else p.streakSince))
    && (p.status == Ok && q.status == Ok && !h.Renewed? && !h.Framed? ==>
          q.streak == p.streak && q.streakSince == p.streakSince)
    && (q.status == Ok && (p.status != Ok || h.Renewed? || (h.Framed? && h.verdict.None?)) ==> q.streak == 0)
  }

  lemma StreakStep(v: View, h: Happening)
    requires v.p.status != Ok ==> v.p.reason.Some?
    ensures StreakMoves(v, h)
  {
    match h
    case Framed(_, _, _) => StreakMovesFramed(v, h);
    case SolvedAt(_, _, _, _) => StreakMovesSolved(v, h);
    case Asked(_) => StreakMovesAsked(v, h);
    case _ => StreakMovesOtherwise(v, h);
  }

  lemma StreakMovesFramed(v: View, h: Happening)
    requires (v.p.status != Ok ==> v.p.reason.Some?) && h.Framed?
    ensures StreakMoves(v, h)
  {
  }

  lemma StreakMovesSolved(v: View, h: Happening)
    requires (v.p.status != Ok ==> v.p.reason.Some?) && h.SolvedAt?
    ensures StreakMoves(v, h)
  {
  }

  lemma StreakMovesAsked(v: View, h: Happening)
    requires (v.p.status != Ok ==> v.p.reason.Some?) && h.Asked?
    ensures StreakMoves(v, h)
  {
  }

  lemma StreakMovesOtherwise(v: View, h: Happening)
    requires (v.p.status != Ok ==> v.p.reason.Some?) && !h.Framed? && !h.SolvedAt? && !h.Asked?
    ensures StreakMoves(v, h)
  {
  }

  /** How what counts frames moves with each happening. */
  ghost predicate FramesMove(v: View, h: Happening) {
    var (p, q) := (v.p, After(v, h).p);
    && q.good == (if h.Renewed? || (q.status == Ok && p.status != Ok) || (p.status == Ok && q.status != Ok && !h.GivenUp?) then 0
                  else if h.Framed? && Heard(v, h) then if h.verdict.None? then p.good + 1 else 0
                  else p.good)
    && q.framingHeld == (!h.Renewed? && ((h.Nudged? && Heard(v, h)) || p.framingHeld))
    && q.latestReason == (if h.Renewed? then None else if h.Framed? && Heard(v, h) then h.verdict else p.latestReason)
  }

  /** And what counts solves. */
  ghost predicate SolvesMove(v: View, h: Happening) {
    var (p, q) := (v.p, After(v, h).p);
    && q.solveFailures == (if h.Renewed? || (p.status == Ok && q.status != Ok && !h.GivenUp?) then 0
                           else if h.SolvedAt? && h.offset.None? && Heard(v, h) && p.status == Recovering && !p.recheck
                           then p.solveFailures + 1
                           else p.solveFailures)
    && q.lastSolve == (if h.Renewed? || (h.SolvedAt? && Heard(v, h)) then TimeOf(h)
                       else if h.Asked? && Heard(v, h) && p.status == Ok && p.pending.None? && Issues(v, h) == Some(Solve) then h.mono
                       else p.lastSolve)
  }

  lemma CountsStep(v: View, h: Happening)
    requires v.p.status != Ok ==> v.p.reason.Some?
    ensures FramesMove(v, h) && SolvesMove(v, h)
  {
    FramesStep(v, h);
    SolvesStep(v, h);
  }

  lemma FramesStep(v: View, h: Happening)
    requires v.p.status != Ok ==> v.p.reason.Some?
    ensures FramesMove(v, h)
  {
    match h
    case Framed(_, _, _) => FramesMoveFramed(v, h);
    case SolvedAt(_, _, _, _) => FramesMoveSolved(v, h);
    case Asked(_) => FramesMoveAsked(v, h);
    case _ => FramesMoveOtherwise(v, h);
  }

  lemma FramesMoveFramed(v: View, h: Happening)
    requires (v.p.status != Ok ==> v.p.reason.Some?) && h.Framed?
    ensures FramesMove(v, h)
  {
  }

  lemma FramesMoveSolved(v: View, h: Happening)
    requires (v.p.status != Ok ==> v.p.reason.Some?) && h.SolvedAt?
    ensures FramesMove(v, h)
  {
  }

  lemma FramesMoveAsked(v: View, h: Happening)
    requires (v.p.status != Ok ==> v.p.reason.Some?) && h.Asked?
    ensures FramesMove(v, h)
  {
  }

  lemma FramesMoveOtherwise(v: View, h: Happening)
    requires (v.p.status != Ok ==> v.p.reason.Some?) && !h.Framed? && !h.SolvedAt? && !h.Asked?
    ensures FramesMove(v, h)
  {
  }

  lemma SolvesStep(v: View, h: Happening)
    requires v.p.status != Ok ==> v.p.reason.Some?
    ensures SolvesMove(v, h)
  {
    match h
    case Framed(_, _, _) => SolvesMoveFramed(v, h);
    case SolvedAt(_, _, _, _) => SolvesMoveSolved(v, h);
    case Asked(_) => SolvesMoveAsked(v, h);
    case _ => SolvesMoveOtherwise(v, h);
  }

  lemma SolvesMoveFramed(v: View, h: Happening)
    requires (v.p.status != Ok ==> v.p.reason.Some?) && h.Framed?
    ensures SolvesMove(v, h)
  {
  }

  lemma SolvesMoveSolved(v: View, h: Happening)
    requires (v.p.status != Ok ==> v.p.reason.Some?) && h.SolvedAt?
    ensures SolvesMove(v, h)
  {
  }

  lemma SolvesMoveAsked(v: View, h: Happening)
    requires (v.p.status != Ok ==> v.p.reason.Some?) && h.Asked?
    ensures SolvesMove(v, h)
  {
  }

  lemma SolvesMoveOtherwise(v: View, h: Happening)
    requires (v.p.status != Ok ==> v.p.reason.Some?) && !h.Framed? && !h.SolvedAt? && !h.Asked?
    ensures SolvesMove(v, h)
  {
  }

  lemma {:induction false} StreakIsCounted(mono: real, disc: bool, hs: seq<Happening>)
    ensures StreakCounted(Begun(mono, disc), hs)
  {
    if hs != [] {
      var (v, before, h) := (Begun(mono, disc), hs[..|hs| - 1], hs[|hs| - 1]);
      StreakIsCounted(mono, disc, before);
      RunCounted(mono, disc, before);
      StreakStep(RunOf(v, before), h);
      CountsStep(RunOf(v, before), h);
    }
  }

  /** From OK, a frame leads out exactly when it is bad and, with it, there have been three bad
      frames and the first of them is ten seconds old: into WAITING for clouds, and else into
      RECOVERING for what is wrong with it. */
  lemma DebounceLaw(mono: real, disc: bool, hs: seq<Happening>, h: Happening)
    requires h.Framed? && RunOf(Begun(mono, disc), hs).p.status == Ok
    ensures var (bad, q) := (BadFrames(Begun(mono, disc), hs) + [h.mono], After(RunOf(Begun(mono, disc), hs), h).p);
            && (q.status != Ok <==> h.verdict.Some? && |bad| >= 3 && h.mono - bad[0] >= 10.0)
            && (q.status == Waiting <==> q.status != Ok && h.verdict == Some(Clouds))
            && (q.status == Recovering <==> q.status != Ok && h.verdict != Some(Clouds))
            && (q.status != Ok ==> q.reason == h.verdict)
            && (q.status == Recovering ==> q.pending == Some(if h.verdict == Some(OffCentre) then Solve else AutoExpose))
  {
    StreakIsCounted(mono, disc, hs);
  }

  /** Back to OK, a frame leads exactly when it is the second good one running, unless what is
      wrong is an offset that only a solve can see. In RECOVERING a cloudy one leads to WAITING;
      out of WAITING and UNRECOVERED no bad one leads anywhere. */
  lemma ClearingLaw(mono: real, disc: bool, hs: seq<Happening>, h: Happening)
    requires h.Framed? && RunOf(Begun(mono, disc), hs).p.status != Ok
    ensures var (v, p) := (Begun(mono, disc), RunOf(Begun(mono, disc), hs).p);
            var q := After(RunOf(v, hs), h).p;
            && (q.status == Ok <==>
                  h.verdict.None? && GoodFrames(v, hs) + 1 >= 2 && !(p.reason == Some(OffCentre) && !p.disc))
            && (h.verdict == Some(Clouds) && p.status == Recovering ==> q.status == Waiting && q.reason == Some(Clouds))
            && (h.verdict.Some? && p.status != Recovering ==> q.status == p.status && q.pending == p.pending)
  {
    StreakIsCounted(mono, disc, hs);
    RunCounted(mono, disc, hs);
  }

  // ------------------------------------------------------------------
  // What it asks for on its own
  // ------------------------------------------------------------------

  /** When the next try is due: two minutes after WAITING began or a try found it cloudy still,
      five after UNRECOVERED began or was tried. */
  function RetryAt(v: View, hs: seq<Happening>): real {
    if hs == [] then 0.0
    else
      var (before, h) := (hs[..|hs| - 1], hs[|hs| - 1]);
      var (u, w) := (RunOf(v, before), RunOf(v, hs));
      if w.p.status == Waiting && u.p.status != Waiting then TimeOf(h) + CLOUD_RETRY_SECONDS
      else if w.p.status == Unrecovered && (u.p.status != Unrecovered || h.GivenUp?) then TimeOf(h) + UNRECOVERED_RECHECK_SECONDS
      else if h.Asked? && Heard(u, h) && u.p.pending.None? && u.p.status in {Waiting, Unrecovered} && h.mono >= RetryAt(v, before)
      then h.mono + if u.p.status == Waiting then CLOUD_RETRY_SECONDS else UNRECOVERED_RECHECK_SECONDS
      else RetryAt(v, before)
  }

  function TimeOf(h: Happening): real {
    match h
    case Framed(_, mono, _) => mono
    case SolvedAt(_, _, mono, _) => mono
    case SlewRefused(mono) => mono
    case GivenUp(_, mono) => mono
    case Renewed(mono, _) => mono
    case Asked(mono) => mono
    case _ => 0.0
  }

  /** The last time a solve was reported, one was asked for on the watch's own account, or
      everything began anew. */
  function LastSolve(v: View, hs: seq<Happening>): real {
    if hs == [] then v.p.lastSolve
    else
      var (before, h) := (hs[..|hs| - 1], hs[|hs| - 1]);
      var u := RunOf(v, before);
      if h.Renewed? || (h.SolvedAt? && Heard(u, h)) then TimeOf(h)
      else if h.Asked? && Heard(u, h) && u.p.status == Ok && u.p.pending.None? && Issues(u, h) == Some(Solve) then h.mono
      else LastSolve(v, before)
  }

  /** The customer has framed the object since everything last began. */
  predicate FramedByHand(v: View, hs: seq<Happening>) {
    hs != [] && !hs[|hs| - 1].Renewed? && ((hs[|hs| - 1].Nudged? && Heard(RunOf(v, hs[..|hs| - 1]), hs[|hs| - 1]))
                                           || FramedByHand(v, hs[..|hs| - 1]))
  }

  /** What the last frame showed. */
  function LastVerdict(v: View, hs: seq<Happening>): Option<Reason> {
    if hs == [] || hs[|hs| - 1].Renewed? then None
    else if hs[|hs| - 1].Framed? && Heard(RunOf(v, hs[..|hs| - 1]), hs[|hs| - 1]) then hs[|hs| - 1].verdict
    else LastVerdict(v, hs[..|hs| - 1])
  }

  ghost predicate TimesKept(v: View, hs: seq<Happening>) {
    var p := RunOf(v, hs).p;
    RetryKept(v, hs) && p.lastSolve == LastSolve(v, hs) && p.framingHeld == FramedByHand(v, hs) && p.latestReason == LastVerdict(v, hs)
  }

  ghost predicate RetryKept(v: View, hs: seq<Happening>) {
    var p := RunOf(v, hs).p;
    && (p.status in {Waiting, Unrecovered} ==> p.nextRetry == Some(RetryAt(v, hs)))
    && (p.status == Ok ==> p.nextRetry.None?)
  }

  ghost predicate RetryMoves(v: View, h: Happening) {
    var (p, q) := (v.p, After(v, h).p);
    && (q.status == Waiting && p.status != Waiting ==> q.nextRetry == Some(TimeOf(h) + CLOUD_RETRY_SECONDS))
    && (q.status == Unrecovered && (p.status != Unrecovered || h.GivenUp?) ==>
          q.nextRetry == Some(TimeOf(h) + UNRECOVERED_RECHECK_SECONDS))
    && (q.status == p.status && q.status in {Waiting, Unrecovered} && !(q.status == Unrecovered && h.GivenUp?) ==>
          q.nextRetry == if h.Asked? && Heard(v, h) && p.pending.None? && p.nextRetry.Some? && h.mono >= p.nextRetry.value
                         then Some(h.mono + if p.status == Waiting then CLOUD_RETRY_SECONDS else UNRECOVERED_RECHECK_SECONDS)
                         else p.nextRetry)
    && (q.status == Ok && (p.status == Ok ==> p.nextRetry.None?) ==> q.nextRetry.None?)
  }

  lemma RetryStep(v: View, h: Happening)
    requires v.p.status != Ok ==> v.p.reason.Some?
    ensures RetryMoves(v, h)
  {
    match h
    case Framed(_, _, _) => RetryMovesFramed(v, h);
    case SolvedAt(_, _, _, _) => RetryMovesSolved(v, h);
    case Asked(_) => RetryMovesAsked(v, h);
    case _ => RetryMovesOtherwise(v, h);
  }

  lemma RetryMovesFramed(v: View, h: Happening)
    requires (v.p.status != Ok ==> v.p.reason.Some?) && h.Framed?
    ensures RetryMoves(v, h)
  {
  }

  lemma RetryMovesSolved(v: View, h: Happening)
    requires (v.p.status != Ok ==> v.p.reason.Some?) && h.SolvedAt?
    ensures RetryMoves(v, h)
  {
  }

  lemma RetryMovesAsked(v: View, h: Happening)
    requires (v.p.status != Ok ==> v.p.reason.Some?) && h.Asked?
    ensures RetryMoves(v, h)
  {
  }

  lemma RetryMovesOtherwise(v: View, h: Happening)
    requires (v.p.status != Ok ==> v.p.reason.Some?) && !h.Framed? && !h.SolvedAt? && !h.Asked?
    ensures RetryMoves(v, h)
  {
  }

  lemma {:induction false} TimesAreKept(mono: real, disc: bool, hs: seq<Happening>)
    ensures TimesKept(Begun(mono, disc), hs)
  {
    if hs != [] {
      var (v, before, h) := (Begun(mono, disc), hs[..|hs| - 1], hs[|hs| - 1]);
      TimesAreKept(mono, disc, before);
      RunCounted(mono, disc, before);
      RetryGoesOn(v, hs);
      CountsStep(RunOf(v, before), h);
    }
  }

  lemma RetryGoesOn(v: View, hs: seq<Happening>)
    requires hs != [] && ViewOk(RunOf(v, hs[..|hs| - 1])) && RetryKept(v, hs[..|hs| - 1])
    ensures RetryKept(v, hs)
  {
    RetryStep(RunOf(v, hs[..|hs| - 1]), hs[|hs| - 1]);
  }

  /** A question brings what is pending, but for a slew. With nothing pending it brings a step
      exactly: in OK a solve, five minutes after the last, of a deep-sky object the customer has
      not framed; in WAITING an exposure run, when a try is due and the last frame showed
      something other than clouds, and with it RECOVERING from that; and in UNRECOVERED an
      exposure run that begins a re-check, when a try is due. */
  lemma AskingLaw(mono: real, disc: bool, hs: seq<Happening>, h: Happening)
    requires h.Asked? && Heard(RunOf(Begun(mono, disc), hs), h)
    requires RunOf(Begun(mono, disc), hs).p.pending != Some(Recentre)
    ensures var (v, u) := (Begun(mono, disc), RunOf(Begun(mono, disc), hs));
            && Issues(u, h) == (if u.p.pending.Some? then u.p.pending
                                else match u.p.status
                                     case Ok => if !u.p.disc && !FramedByHand(v, hs) && h.mono - LastSolve(v, hs) >= 300.0
                                                then Some(Solve) else None
                                     case Recovering => None
                                     case Waiting => if h.mono >= RetryAt(v, hs) && LastVerdict(v, hs) !in {None, Some(Clouds)}
                                                     then Some(AutoExpose) else None
                                     case Unrecovered => if h.mono >= RetryAt(v, hs) then Some(AutoExpose) else None)
            && (u.p.pending.None? && Issues(u, h) == Some(AutoExpose) ==>
                  var q := After(u, h).p;
                  if u.p.status == Waiting then q.status == Recovering && q.reason == LastVerdict(v, hs)
                  else q.status == Unrecovered && q.recheck)
  {
    TimesAreKept(mono, disc, hs);
    RunCounted(mono, disc, hs);
  }

  /** How many of the times lie less than the window before `now`. */
  function Recent(times: seq<real>, now: real): nat {
    if times == [] then 0
    else Recent(times[..|times| - 1], now) + if now - times[|times| - 1] < CORRECTIVE_SLEW_WINDOW_SECONDS then 1 else 0
  }

  lemma {:induction false} RecentNone(times: seq<real>, now: real)
    requires forall i :: 0 <= i < |times| ==> now - times[i] >= CORRECTIVE_SLEW_WINDOW_SECONDS
    ensures Recent(times, now) == 0
  {
    if times != [] {
      RecentNone(times[..|times| - 1], now);
    }
  }

  lemma {:induction false} RecentTail(older: seq<real>, newer: seq<real>, now: real)
    requires forall i :: 0 <= i < |older| ==> now - older[i] >= CORRECTIVE_SLEW_WINDOW_SECONDS
    requires forall i :: 0 <= i < |newer| ==> now - newer[i] < CORRECTIVE_SLEW_WINDOW_SECONDS
    ensures Recent(older + newer, now) == |newer|
  {
    if newer == [] {
      assert older + newer == older;
      RecentNone(older, now);
    } else {
      var n := |newer| - 1;
      RecentTail(older, newer[..n], now);
      assert (older + newer)[..|older| + n] == older + newer[..n];
    }
  }

  /** What is left of the deque once the old slews are gone are the recent ones. */
  lemma StillRecentCounts(slews: seq<real>, charged: seq<real>, clock: real, now: real)
    requires SlewsOk(slews, charged, clock) && clock <= now
    ensures |StillRecent(slews, now)| == Recent(charged, now)
  {
    LaterSlews(slews, charged, clock, now);
    StillRecentKeeps(slews, charged, now);
    StillRecentAll(slews, charged, now);
    var left := StillRecent(slews, now);
    RecentTail(charged[..|charged| - |left|], left, now);
    assert charged[..|charged| - |left|] + left == charged;
  }

  lemma LaterSlews(slews: seq<real>, charged: seq<real>, clock: real, now: real)
    requires SlewsOk(slews, charged, clock) && clock <= now
    ensures SlewsOk(slews, charged, now)
  {
  }

  lemma {:induction false} StillRecentAll(slews: seq<real>, charged: seq<real>, now: real)
    requires SlewsOk(slews, charged, now)
    ensures forall i :: 0 <= i < |StillRecent(slews, now)| ==> now - StillRecent(slews, now)[i] < CORRECTIVE_SLEW_WINDOW_SECONDS
  {
    if slews != [] && now - slews[0] >= CORRECTIVE_SLEW_WINDOW_SECONDS {
      DropOldest(slews, charged, now);
      StillRecentAll(slews[1..], charged, now);
    }
  }

  /** A wanted slew is issued exactly when fewer than six have been charged in the last ten
      minutes and, of a disc, none was granted in the last thirty seconds. One too soon stays
      wanted; one beyond the budget does not. */
  lemma GrantLaw(mono: real, disc: bool, hs: seq<Happening>, h: Happening)
    requires h.Asked? && Heard(RunOf(Begun(mono, disc), hs), h) && RunOf(Begun(mono, disc), hs).p.pending == Some(Recentre)
    ensures Grants(RunOf(Begun(mono, disc), hs), h.mono, Charges(Begun(mono, disc), hs), DiscGrants(Begun(mono, disc), hs))
  {
    RunCounted(mono, disc, hs);
    ViewGrants(RunOf(Begun(mono, disc), hs), h.mono);
  }

  predicate Grants(u: View, now: real, charges: seq<real>, grants: seq<real>)
    requires u.p.status != Ok ==> u.p.reason.Some?
  {
    var (need, w) := OnDue(u, now);
    var within := Recent(charges, now) < 6;
    var soon := u.p.disc && grants != [] && now - grants[|grants| - 1] < 30.0;
    && need == (if within && !soon then Some(Recentre) else None)
    && (within && soon ==> w.p == u.p)
    && (!within ==> w.p.pending != Some(Recentre))
  }

  lemma ViewGrants(u: View, now: real)
    requires ViewOk(u) && u.wear.clock <= now && u.p.pending == Some(Recentre)
    ensures Grants(u, now, u.wear.charged, u.wear.discCharged)
  {
    StillRecentCounts(u.budget.slews, u.wear.charged, u.wear.clock, now);
  }

  /** How many good frames in OK have drifted running, since an exposure was last asked for. */
  function Drifts(v: View, hs: seq<Happening>): nat {
    if hs == [] || hs[|hs| - 1].Renewed? then 0
    else
      var (before, h) := (hs[..|hs| - 1], hs[|hs| - 1]);
      var u := RunOf(v, before);
      if h.Framed? && Heard(u, h) && h.verdict.None? && u.p.status == Ok then
        if !h.drift || (Drifts(v, before) + 1 >= 2 && u.p.pending.None?) then 0 else Drifts(v, before) + 1
      else Drifts(v, before)
  }

  ghost predicate DriftMoves(v: View, h: Happening) {
    var (p, q) := (v.p, After(v, h).p);
    q.driftChecks == if h.Renewed? then 0
                     else if h.Framed? && Heard(v, h) && h.verdict.None? && p.status == Ok then
                       if !h.drift || (p.driftChecks + 1 >= 2 && p.pending.None?) then 0 else p.driftChecks + 1
                     else p.driftChecks
  }

  lemma DriftStep(v: View, h: Happening)
    requires v.p.status != Ok ==> v.p.reason.Some?
    ensures DriftMoves(v, h)
  {
    match h
    case Framed(_, _, _) => DriftMovesFramed(v, h);
    case SolvedAt(_, _, _, _) => DriftMovesSolved(v, h);
    case Asked(_) => DriftMovesAsked(v, h);
    case _ => DriftMovesOtherwise(v, h);
  }

  lemma DriftMovesFramed(v: View, h: Happening)
    requires (v.p.status != Ok ==> v.p.reason.Some?) && h.Framed?
    ensures DriftMoves(v, h)
  {
  }

  lemma DriftMovesSolved(v: View, h: Happening)
    requires (v.p.status != Ok ==> v.p.reason.Some?) && h.SolvedAt?
    ensures DriftMoves(v, h)
  {
  }

  lemma DriftMovesAsked(v: View, h: Happening)
    requires (v.p.status != Ok ==> v.p.reason.Some?) && h.Asked?
    ensures DriftMoves(v, h)
  {
  }

  lemma DriftMovesOtherwise(v: View, h: Happening)
    requires (v.p.status != Ok ==> v.p.reason.Some?) && !h.Framed? && !h.SolvedAt? && !h.Asked?
    ensures DriftMoves(v, h)
  {
  }

  lemma {:induction false} DriftsCounted(mono: real, disc: bool, hs: seq<Happening>)
    ensures RunOf(Begun(mono, disc), hs).p.driftChecks == Drifts(Begun(mono, disc), hs)
  {
    if hs != [] {
      var (v, before, h) := (Begun(mono, disc), hs[..|hs| - 1], hs[|hs| - 1]);
      DriftsCounted(mono, disc, before);
      RunCounted(mono, disc, before);
      DriftStep(RunOf(v, before), h);
    }
  }

  /** In OK a good frame asks for an exposure run exactly when it is the second running that
      has drifted and nothing is wanted yet. */
  lemma DriftLaw(mono: real, disc: bool, hs: seq<Happening>, h: Happening)
    requires h.Framed? && h.verdict.None? && RunOf(Begun(mono, disc), hs).p.status == Ok
    ensures var (v, p) := (Begun(mono, disc), RunOf(Begun(mono, disc), hs).p);
            After(RunOf(v, hs), h).p.pending ==
              if h.drift && Drifts(v, hs) + 1 >= 2 && p.pending.None? then Some(AutoExpose) else p.pending
  {
    DriftsCounted(mono, disc, hs);
  }

  // ------------------------------------------------------------------
  // How a stay in RECOVERING goes on
  // ------------------------------------------------------------------

  /** How many solves have failed since a frame or a solve last took it out of OK. */
  function FailedSolves(v: View, hs: seq<Happening>): nat {
    if hs == [] || hs[|hs| - 1].Renewed? then 0
    else
      var (before, h) := (hs[..|hs| - 1], hs[|hs| - 1]);
      var (u, w) := (RunOf(v, before), RunOf(v, hs));
      if u.p.status == Ok && w.p.status != Ok && !h.GivenUp? then 0
      else if h.SolvedAt? && h.offset.None? && Heard(u, h) && u.p.status == Recovering && !u.p.recheck then FailedSolves(v, before) + 1
      else FailedSolves(v, before)
  }

  /** What fails a pass of the ladder: a frame still bad after the solve, a solve that fails or
      is off once too often, a slew refused, or one the budget does not allow. */
  predicate FailsPass(u: View, h: Happening, failed: nat) {
    && u.p.status == Recovering && Heard(u, h)
    && match h
       case Framed(verdict, _, _) =>
         verdict.Some? && verdict.value != Clouds && u.p.awaitingFrame && u.p.step != Some(ReExpose)
       case SolvedAt(offset, limit, _, raised) =>
         !u.p.recheck && if offset.None? then !(failed + 1 >= 2 && raised)
                         else offset.value > limit && u.p.recentreIterations >= 3
       case SlewRefused(_) => true
       case Asked(mono) => u.p.pending == Some(Recentre) && |StillRecent(u.budget.slews, mono)| >= 6
       case _ => false
  }

  function PassesFailed(v: View, hs: seq<Happening>): nat {
    if hs == [] || RunOf(v, hs).p.status != Recovering || RunOf(v, hs[..|hs| - 1]).p.status != Recovering then 0
    else
      var (before, h) := (hs[..|hs| - 1], hs[|hs| - 1]);
      PassesFailed(v, before) + if FailsPass(RunOf(v, before), h, FailedSolves(v, before)) then 1 else 0
  }

  ghost predicate PassesCounted(v: View, hs: seq<Happening>) {
    var p := RunOf(v, hs).p;
    p.solveFailures == FailedSolves(v, hs) && (p.status == Recovering ==> p.attempt == 1 + PassesFailed(v, hs))
  }

  ghost predicate PassMoves(v: View, h: Happening) {
    var (p, q) := (v.p, After(v, h).p);
    && (q.status == Recovering && p.status != Recovering ==> q.attempt == 1)
    && (q.status == Recovering && p.status == Recovering ==>
          q.attempt == p.attempt + if FailsPass(v, h, p.solveFailures) then 1 else 0)
    && (p.status == Recovering && FailsPass(v, h, p.solveFailures) ==>
          if p.attempt == 1
          then q.status == Recovering && q.pending == Some(if p.reason == Some(OffCentre) then Solve else AutoExpose)
          else q.status == Unrecovered && q.pending.None?)
    && (p.status == Recovering && q.status == Unrecovered ==> FailsPass(v, h, p.solveFailures) || h.GivenUp?)
  }

  lemma PassStep(v: View, h: Happening)
    requires ViewOk(v)
    ensures PassMoves(v, h)
  {
    match h
    case Framed(_, _, _) => PassMovesFramed(v, h);
    case SolvedAt(_, _, _, _) => PassMovesSolved(v, h);
    case Asked(_) => PassMovesAsked(v, h);
    case _ => PassMovesOtherwise(v, h);
  }

  lemma PassMovesFramed(v: View, h: Happening)
    requires ViewOk(v) && h.Framed?
    ensures PassMoves(v, h)
  {
  }

  lemma PassMovesSolved(v: View, h: Happening)
    requires ViewOk(v) && h.SolvedAt?
    ensures PassMoves(v, h)
  {
  }

  lemma PassMovesAsked(v: View, h: Happening)
    requires ViewOk(v) && h.Asked?
    ensures PassMoves(v, h)
  {
  }

  lemma PassMovesOtherwise(v: View, h: Happening)
    requires ViewOk(v) && !h.Framed? && !h.SolvedAt? && !h.Asked?
    ensures PassMoves(v, h)
  {
  }

  lemma {:induction false} PassesAreCounted(mono: real, disc: bool, hs: seq<Happening>)
    ensures PassesCounted(Begun(mono, disc), hs)
  {
    if hs != [] {
      var (v, before, h) := (Begun(mono, disc), hs[..|hs| - 1], hs[|hs| - 1]);
      PassesAreCounted(mono, disc, before);
      RunCounted(mono, disc, before);
      CountsStep(RunOf(v, before), h);
      PassStep(RunOf(v, before), h);
    }
  }

  /** A pass that fails is followed by the second from its first step on, and the second by
      UNRECOVERED; nothing else leads there but giving up. */
  lemma TwoPassesLaw(mono: real, disc: bool, hs: seq<Happening>, h: Happening)
    requires RunOf(Begun(mono, disc), hs).p.status == Recovering
    ensures var (v, u) := (Begun(mono, disc), RunOf(Begun(mono, disc), hs));
            var q := After(u, h).p;
            var fails := FailsPass(u, h, FailedSolves(v, hs));
            && PassesFailed(v, hs) <= 1
            && (fails && PassesFailed(v, hs) == 0 ==>
                  q.status == Recovering && q.pending == Some(if u.p.reason == Some(OffCentre) then Solve else AutoExpose))
            && (fails && PassesFailed(v, hs) == 1 ==> q.status == Unrecovered && q.pending.None?)
            && (q.status == Unrecovered ==> (fails && PassesFailed(v, hs) == 1) || h.GivenUp?)
  {
    RunCounted(mono, disc, hs);
    PassesAreCounted(mono, disc, hs);
    PassStep(RunOf(Begun(mono, disc), hs), h);
  }

  /** What a solve leads to. From OK, into RECOVERING with a slew asked for, exactly when it is
      off and the customer has not framed the object. In RECOVERING, once there is no re-check:
      into WAITING exactly when it is the second to fail and the sky has brightened; to OK
      exactly when the object is centred and that was what was wrong; and to another slew
      exactly when it is off and fewer than three have been made in this pass. */
  lemma SolveLaw(mono: real, disc: bool, hs: seq<Happening>, h: Happening)
    requires h.SolvedAt? && Heard(RunOf(Begun(mono, disc), hs), h)
    ensures var (v, u) := (Begun(mono, disc), RunOf(Begun(mono, disc), hs));
            && (u.p.status == Ok ==> SolveFromOk(u, h, FramedByHand(v, hs)))
            && (u.p.status == Recovering && !u.p.recheck ==> SolveOnLadder(u, h, FailedSolves(v, hs)))
            && (u.p.status in {Waiting, Unrecovered} && !u.p.recheck ==> After(u, h).p == u.p.(lastSolve := h.mono))
  {
    TimesAreKept(mono, disc, hs);
    PassesAreCounted(mono, disc, hs);
    var u := RunOf(Begun(mono, disc), hs);
    if u.p.status == Ok {
      FromOkSolved(u, h);
    } else if u.p.status == Recovering && !u.p.recheck {
      LadderSolved(u, h);
    }
  }

  predicate SolveFromOk(u: View, h: Happening, framed: bool)
    requires h.SolvedAt?
  {
    var (off, q) := (h.offset.Some? && h.offset.value > h.limit, After(u, h).p);
    && (q.status != Ok <==> off && !framed)
    && (q.status != Ok ==> q.status == Recovering && q.reason == Some(OffCentre) && q.pending == Some(Recentre))
  }

  predicate SolveOnLadder(u: View, h: Happening, failed: nat)
    requires h.SolvedAt?
  {
    var (off, p, q) := (h.offset.Some? && h.offset.value > h.limit, u.p, After(u, h).p);
    && (q.status == Waiting <==> h.offset.None? && failed + 1 >= 2 && h.raised)
    && (q.status == Ok <==> h.offset.Some? && !off && p.reason == Some(OffCentre))
    && (q.pending == Some(Recentre) <==> off && p.recentreIterations < 3)
    && (h.offset.Some? && !off && p.reason != Some(OffCentre) ==> q.awaitingFrame)
  }

  lemma FromOkSolved(u: View, h: Happening)
    requires h.SolvedAt? && Heard(u, h) && u.p.status == Ok
    ensures SolveFromOk(u, h, u.p.framingHeld)
  {
  }

  lemma LadderSolved(u: View, h: Happening)
    requires h.SolvedAt? && Heard(u, h) && u.p.status == Recovering && !u.p.recheck
    ensures SolveOnLadder(u, h, u.p.solveFailures)
  {
  }

  /** What the other outcomes lead to. An exposure run is followed by a solve when it began a
      re-check and else, in RECOVERING, by waiting for a frame; that frame, if it is bad and not
      cloudy, by a solve; a slew by a solve, which out of RECOVERING is a re-check; and the solve
      of a re-check by a slew when the object is off, and by OK when it is centred and that was
      what was wrong. */
  lemma OutcomeLaw(v: View, h: Happening)
    requires ViewOk(v) && Heard(v, h)
    ensures h.Exposed? ==> ExposedLeads(v.p, After(v, h).p)
    ensures h.SolvedAt? && v.p.recheck && v.p.status != Ok ==> RecheckLeads(v.p, After(v, h).p, h)
    ensures var (p, q) := (v.p, After(v, h).p);
            && (h.Framed? && h.verdict !in {None, Some(Clouds)} && p.status == Recovering && p.awaitingFrame ==>
                  p.step == Some(ReExpose) ==> q.status == Recovering && q.pending == Some(Solve) && !q.awaitingFrame)
            && (h.Slewed? ==> q.pending == Some(Solve) && q.status == p.status && q.recheck == (p.recheck || p.status != Recovering))
            && (h.Nudged? ==> q == p.(framingHeld := true))
            && (h.GivenUp? ==> q.status == Unrecovered && q.reason == Some(h.why) && q.pending.None? && q.attempt == LADDER_PASSES)
            && (h.Renewed? ==> q == Fresh(h.mono, h.disc))
  {
    match h
    case Exposed => AfterExposed(v, h);
    case SolvedAt(_, _, _, _) =>
      if v.p.recheck && v.p.status != Ok {
        AfterRecheck(v, h);
      }
    case _ =>
  }

  predicate ExposedLeads(p: Picture, q: Picture) {
    && (p.recheck ==> q.pending == Some(Solve))
    && (!p.recheck && p.status == Recovering ==> q.awaitingFrame && q.pending.None?)
  }

  predicate RecheckLeads(p: Picture, q: Picture, h: Happening)
    requires h.SolvedAt?
  {
    && !q.recheck
    && (q.pending == Some(Recentre) <==> h.offset.Some? && h.offset.value > h.limit)
    && (q.status == Ok <==> h.offset.Some? && h.offset.value <= h.limit && p.reason == Some(OffCentre))
    && (q.status != Ok ==> q.status == p.status && q.reason == p.reason)
  }

  lemma AfterExposed(v: View, h: Happening)
    requires ViewOk(v) && Heard(v, h) && h.Exposed?
    ensures ExposedLeads(v.p, After(v, h).p)
  {
  }

  lemma AfterRecheck(v: View, h: Happening)
    requires ViewOk(v) && Heard(v, h) && h.SolvedAt? && v.p.recheck && v.p.status != Ok
    ensures RecheckLeads(v.p, After(v, h).p, h)
  {
  }

  // ------------------------------------------------------------------
  // A stay that is lost
  // ------------------------------------------------------------------

  /** The solve of a re-check in RECOVERING leaves nothing to come exactly when it fails, or
      finds the object centred although that was not what was wrong. */
  lemma RecheckStalls(v: View, offset: Option<real>, limit: real, mono: real, raised: bool)
    requires v.p.status == Recovering && v.p.reason.Some? && v.p.recheck
    requires v.p.pending.None? && !v.p.awaitingFrame && v.stay.outstanding == Some(Solve)
    ensures var w := OnSolved(v, offset, limit, mono, raised);
            Stalled(w.p, w.stay) <==> offset.None? || (offset.value <= limit && v.p.reason != Some(OffCentre))
  {
  }

  /** What ends a stalled stay: clouds, a renewal, giving up, or the second good frame in a
      row, which an offset that only a solve can see does not count. */
  predicate EndsStall(p: Picture, h: Happening) {
    || h.Renewed? || h.GivenUp?
    || (h.Framed? && h.verdict == Some(Clouds))
    || (h.Framed? && h.verdict.None? && p.good + 1 >= GOOD_FRAMES_TO_CLEAR && !(p.reason == Some(OffCentre) && !p.disc))
  }

  /** Nothing else does, and no step is issued until then. */
  lemma StallLasts(v: View, h: Happening)
    requires Stalled(v.p, v.stay) && v.p.reason.Some?
    ensures var w := After(v, h); Stalled(w.p, w.stay) <==> !EndsStall(v.p, h)
    ensures !EndsStall(v.p, h) ==>
              var w := After(v, h).p; w.reason == v.p.reason && w.disc == v.p.disc && w.recheck == v.p.recheck
    ensures Issues(v, h).None?
  {
  }

  lemma RunPush(v: View, hs: seq<Happening>, h: Happening)
    ensures RunOf(v, hs + [h]) == After(RunOf(v, hs), h)
  {
    assert (hs + [h])[..|hs|] == hs;
  }

  /** A slew that was asked for is overtaken by a renewal, so its end in OK leaves a re-check
      behind; the next offset starts a stay with it. */
  lemma UncleanStayHappens(limit: real) returns (hs: seq<Happening>)
    ensures var v := RunOf(Begun(0.0, false), hs);
            && v.p.status == Recovering && v.p.recheck && v.p.pending == Some(Recentre) && v.p.reason == Some(OffCentre)
            && !v.p.disc && v.budget.slews == [0.0] && v.wear.clock == 0.0
  {
    var off, ask := SolvedAt(Some(limit + 1.0), limit, 0.0, false), Asked(0.0);
    var v := Begun(0.0, false);
    hs := [] + [off] + [ask];
    RunPush(v, [], off);
    RunPush(v, [] + [off], ask);
    assert RunOf(v, []) == v && RunOf(v, hs).budget.slews == [0.0];
    RunPush(v, hs, Renewed(0.0, false));
    RunPush(v, hs + [Renewed(0.0, false)], Slewed);
    hs := hs + [Renewed(0.0, false)] + [Slewed];
    var left := RunOf(v, hs);
    assert left.p.status == Ok && left.p.recheck && left.p.pending == Some(Solve) && left.budget.slews == [0.0];
    RunPush(v, hs, ask);
    RunPush(v, hs + [ask], off);
    hs := hs + [ask] + [off];
  }

  /** And such a stay stalls when the solve after its slew fails. */
  lemma StallHappens(limit: real) returns (hs: seq<Happening>)
    ensures var w := RunOf(Begun(0.0, false), hs);
            Stalled(w.p, w.stay) && w.p.reason == Some(OffCentre) && !w.p.disc && !w.p.recheck
  {
    var v, ask := Begun(0.0, false), Asked(0.0);
    hs := UncleanStayHappens(limit);
    RunPush(v, hs, ask);
    RunPush(v, hs + [ask], Slewed);
    hs := hs + [ask] + [Slewed];
    RunPush(v, hs, ask);
    RunPush(v, hs + [ask], SolvedAt(None, limit, 0.0, false));
    hs := hs + [ask] + [SolvedAt(None, limit, 0.0, false)];
  }

  /** A clean stay, with the solve that follows its slew under way. */
  lemma CleanSolveHappens(limit: real) returns (hs: seq<Happening>)
    ensures var w := RunOf(Begun(0.0, false), hs);
            && w.p.status == Recovering && w.stay.clean && w.stay.outstanding == Some(Solve)
            && w.p.reason == Some(OffCentre) && !w.p.disc
  {
    var v, ask := Begun(0.0, false), Asked(0.0);
    var off := SolvedAt(Some(limit + 1.0), limit, 0.0, false);
    hs := [] + [off] + [ask];
    RunPush(v, [], off);
    RunPush(v, [] + [off], ask);
    assert RunOf(v, []) == v && RunOf(v, hs).stay.outstanding == Some(Recentre);
    RunPush(v, hs, Slewed);
    RunPush(v, hs + [Slewed], ask);
    hs := hs + [Slewed] + [ask];
  }

  /** It stalls when that solve is dropped. */
  lemma CleanStallHappens(limit: real) returns (hs: seq<Happening>)
    ensures var w := RunOf(Begun(0.0, false), hs);
            CleanStay(Begun(0.0, false), hs) && Stalled(w.p, w.stay) && w.p.reason == Some(OffCentre) && !w.p.disc
  {
    hs := CleanSolveHappens(limit);
    RunCounted(0.0, false, hs);
    RunPush(Begun(0.0, false), hs, StepDropped(Solve));
    hs := hs + [StepDropped(Solve)];
    RunCounted(0.0, false, hs);
  }
}
