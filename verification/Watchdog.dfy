/**
 The watchdog thread beside the supervisor's pass (`agent/darkview_agent/safety/watchdog.py`
 and `agent/darkview_agent/supervisor.py`).

 The two share one lock, so each thing done under it is one step, and the steps of the two
 interleave freely: the watchdog may evaluate between any two steps of a pass. The runner
 is the one of this project. Seconds are monotonic.
 */
module Watchdog {
  import opened Common
  import opened Missions
  import R = Runner

  const FALLBACK_HEARTBEAT_LOSS_SECONDS := 15.0
  const FALLBACK_LINK_DEAD_SECONDS := 60.0

  datatype Trigger = HeartbeatLost | LinkDead | DeviceFailure | Abort | Weather | Disarmed

  /** What one evaluation did. `park` is whether a Park was asked for, `parked` its outcome. */
  datatype Action = Action(trigger: Trigger, stopped: bool, park: bool, parked: bool)

  /** A Park that worked or one that failed. */
  predicate Parks(a: Action) { a.park }

  datatype Thresholds = Thresholds(heartbeatLoss: real, linkDead: real)

  // ------------------------------------------------------------------
  // What is recorded
  // ------------------------------------------------------------------

  datatype Happening = LinkUp | Acted(action: Action)

  /** The last Park attempted since the link was up has worked. */
  predicate ParkedSinceUp(log: seq<Happening>) {
    log != [] &&
      var last := log[|log| - 1];
      match last
      case LinkUp => false
      case Acted(a) => if a.park then a.parked else ParkedSinceUp(log[..|log| - 1])
  }

  /** The exposure has been stopped since the link was last up. */
  predicate StoppedSinceUp(log: seq<Happening>) {
    log != [] &&
      var last := log[|log| - 1];
      match last
      case LinkUp => false
      case Acted(a) => a.stopped || StoppedSinceUp(log[..|log| - 1])
  }

  /** The actions in a log, in order. */
  function ActionsIn(log: seq<Happening>): seq<Action> {
    if log == [] then []
    else ActionsIn(log[..|log| - 1]) + if log[|log| - 1].Acted? then [log[|log| - 1].action] else []
  }

  lemma LogPush(log: seq<Happening>, h: Happening)
    ensures ParkedSinceUp(log + [h]) == (h.Acted? && if h.action.park then h.action.parked else ParkedSinceUp(log))
    ensures StoppedSinceUp(log + [h]) == (h.Acted? && (h.action.stopped || StoppedSinceUp(log)))
    ensures ActionsIn(log + [h]) == ActionsIn(log) + if h.Acted? then [h.action] else []
  {
    assert (log + [h])[..|log|] == log;
  }

  // ------------------------------------------------------------------
  // The watchdog
  // ------------------------------------------------------------------

  class Watchdog {
    var config: Option<Thresholds>
    var reference: real
    var captureStopped: bool
    var parked: bool
    var actions: seq<Action>
    var pending: Option<Trigger>
    ghost var log: seq<Happening>
    /** Every device call made, and whether it raised. */
    ghost var calls: seq<R.Attempt>

    ghost predicate Valid()
      reads this
    {
      && parked == ParkedSinceUp(log) && captureStopped == StoppedSinceUp(log)
      && ActionsIn(log) == actions
    }

    /** Silence is counted from here until the link is first up. */
    constructor (mono: real, config: Option<Thresholds>)
      ensures Valid() && actions == [] && reference == mono && pending.None? && calls == []
    {
      this.config, reference, captureStopped, parked := config, mono, false, false;
      actions, pending, log, calls := [], None, [], [];
    }

    function LinkDeadSeconds(): real
      reads this
    {
      if config.None? then FALLBACK_LINK_DEAD_SECONDS else config.value.linkDead
    }

    function HeartbeatLossSeconds(): real
      reads this
    {
      if config.None? then FALLBACK_HEARTBEAT_LOSS_SECONDS else config.value.heartbeatLoss
    }

    /** Silence starts from nothing, and so do both latches. */
    method LinkIsOnline(mono: real)
      requires Valid()
      modifies this
      ensures Valid() && actions == old(actions) && reference == mono && log == old(log) + [LinkUp]
      ensures !parked && !captureStopped && pending == old(pending)
    {
      LogPush(log, LinkUp);
      reference, captureStopped, parked, log := mono, false, false, log + [LinkUp];
    }

    method Raise(trigger: Trigger)
      requires Valid()
      modifies this`pending
      ensures Valid() && pending == Some(trigger)
    {
      pending := Some(trigger);
    }

    /** What an evaluation does, by what was pending, how long the link has been silent, and what
        has worked since it was up. */
    twostate predicate Evaluated(mono: real, new did: Option<Action>)
      reads this
    {
      && (old(pending.Some?) ==> did.Some? && did.value.park && did.value.trigger == old(pending).value)
      && (old(pending.None?) && mono - reference >= old(LinkDeadSeconds()) && !ParkedSinceUp(old(log)) ==>
            did.Some? && did.value.park && did.value.trigger == LinkDead)
      && (old(pending.None?) && !(mono - reference >= old(LinkDeadSeconds()) && !ParkedSinceUp(old(log))) ==>
            && (did.Some? <==> mono - reference >= old(HeartbeatLossSeconds()) && !StoppedSinceUp(old(log)))
            && (did.Some? ==> !did.value.park && did.value.trigger == HeartbeatLost))
    }

    /** Decide and act: on what is pending; or else on a dead link, unless the last Park since
        the link was up has worked; or else on a lost heartbeat, unless the exposure has been
        stopped since then. */
    method Evaluate(mono: real) returns (did: Option<Action>)
      requires Valid()
      modifies this
      ensures Valid() && reference == old(reference) && config == old(config) && pending.None?
      ensures actions == old(actions) + if did.Some? then [did.value] else []
      ensures log == old(log) + if did.Some? then [Acted(did.value)] else []
      ensures Evaluated(mono, did)
    {
      did := None;
      if pending.Some? {
        var trigger := pending.value;
        pending := None;
        var a, _ := Act(trigger, true);
        return Some(a);
      }
      var elapsed := mono - reference;
      if elapsed >= LinkDeadSeconds() && !parked {
        var a, _ := Act(LinkDead, true);
        did := Some(a);
      } else if elapsed >= HeartbeatLossSeconds() && !captureStopped {
        var a, _ := Act(HeartbeatLost, false);
        did := Some(a);
      }
    }

    /** The exposure is stopped, then, if asked to, the slew is halted and the mount parked:
        each is attempted whichever of those before it raised. */
    method Act(trigger: Trigger, park: bool) returns (a: Action, ghost made: seq<R.Attempt>)
      requires Valid()
      modifies this`captureStopped, this`parked, this`actions, this`log, this`calls
      ensures Valid()
      ensures a.trigger == trigger && a.park == park && (a.parked ==> park)
      ensures actions == old(actions) + [a] && log == old(log) + [Acted(a)]
      ensures park ==> parked == a.parked
      ensures !park ==> parked == old(parked)
      ensures captureStopped == (old(captureStopped) || a.stopped)
      ensures calls == old(calls) + made
      ensures |made| == if park then 3 else 1
      ensures made == if park then [R.Attempt(R.StopExposure, !a.stopped), R.Attempt(R.HaltSlew, made[1].raised),
                                    R.Attempt(R.Park, !a.parked)]
                      else [R.Attempt(R.StopExposure, !a.stopped)]
    {
      var stopRaised: bool, haltRaised: bool, parkRaised: bool := *, *, *;
      made := [R.Attempt(R.StopExposure, stopRaised)];
      if !stopRaised {
        captureStopped := true;
      }
      if park {
        made := [R.Attempt(R.StopExposure, stopRaised), R.Attempt(R.HaltSlew, haltRaised), R.Attempt(R.Park, parkRaised)];
        parked := !parkRaised;
      }
      a := Action(trigger, !stopRaised, park, park && !parkRaised);
      LogPush(log, Acted(a));
      actions, log, calls := actions + [a], log + [Acted(a)], calls + made;
    }

    /** Other thresholds, from now on. */
    method SetConfig(next: Thresholds)
      requires Valid()
      modifies this`config
      ensures Valid() && config == Some(next)
    {
      config := Some(next);
    }
  }

  // ------------------------------------------------------------------
  // The supervisor
  // ------------------------------------------------------------------

  function FailureReasonFor(a: Action): (r: Reason)
    ensures !RunnersOwn(r)
  {
    match a.trigger
    case LinkDead => LinkLost
    case Weather => WeatherUnsafe
    case Abort => OperatorAbort
    case Disarmed => OperatorAbort
    case _ => DeviceFault
  }

  predicate AnyParks(actions: seq<Action>) {
    exists i :: 0 <= i < |actions| && Parks(actions[i])
  }

  predicate AnyStops(actions: seq<Action>) {
    exists i :: 0 <= i < |actions| && !Parks(actions[i]) && actions[i].stopped
  }

  function FirstPark(actions: seq<Action>): Option<Action> {
    if actions == [] then None
    else
      var (before, last) := (actions[..|actions| - 1], actions[|actions| - 1]);
      if FirstPark(before).Some? then FirstPark(before) else if Parks(last) then Some(last) else None
  }

  /** What passing the new actions on makes of the mission: a Park cancels a live one, a stop
      of the exposure holds it, and neither leaves it as it was. */
  ghost predicate PassedOn(q: R.Mission, r: R.Mission, actions: seq<Action>) {
    && r.offers == q.offers && r.started == q.started
    && (if q.started && Live(q.state) && AnyParks(actions)
        then r.state == Cancelled && FirstPark(actions).Some? && r.failure == Some(FailureReasonFor(FirstPark(actions).value))
        else r.state == q.state && r.failure == q.failure)
    && (q.started && AnyStops(actions) ==> r.g.suspended)
    && (q.g.suspended ==> r.g.suspended)
    && (!AnyParks(actions) && !AnyStops(actions) ==> r == q)
    && (!AnyParks(actions) && AnyStops(actions) && q.started ==>
          r == R.Suspended(q))
  }

  /** The hold is lifted when the link is online. */
  function Resumed(m: R.Mission, online: bool): R.Mission {
    if online && m.started then m.(g := m.g.(suspended := false)) else m
  }

  lemma AnyOneMore(actions: seq<Action>, a: Action)
    ensures AnyParks(actions + [a]) == (AnyParks(actions) || Parks(a))
    ensures AnyStops(actions + [a]) == (AnyStops(actions) || (!Parks(a) && a.stopped))
    ensures AnyParks([a]) == Parks(a) && AnyStops([a]) == (!Parks(a) && a.stopped)
    ensures FirstPark(actions + [a]) == if FirstPark(actions).Some? then FirstPark(actions) else if Parks(a) then Some(a) else None
    ensures FirstPark([a]) == if Parks(a) then Some(a) else None
  {
    assert (actions + [a])[..|actions|] == actions && [a][..0] == [];
    var after := actions + [a];
    assert after[|actions|] == a && [a][0] == a;
    if AnyParks(actions) {
      var j :| 0 <= j < |actions| && Parks(actions[j]);
      assert Parks(after[j]);
    }
    if AnyStops(actions) {
      var j :| 0 <= j < |actions| && !Parks(actions[j]) && actions[j].stopped;
      assert !Parks(after[j]) && after[j].stopped;
    }
  }

  lemma {:induction false} FirstParkParks(actions: seq<Action>)
    ensures FirstPark(actions).Some? <==> AnyParks(actions)
  {
    if actions != [] {
      var (before, last) := (actions[..|actions| - 1], actions[|actions| - 1]);
      FirstParkParks(before);
      AnyOneMore(before, last);
      assert before + [last] == actions;
    }
  }

  /** Passing on one action more. */
  lemma PassedOnFurther(q: R.Mission, r: R.Mission, s: R.Mission, actions: seq<Action>, a: Action)
    requires PassedOn(q, r, actions) && PassedOn(r, s, [a])
    ensures PassedOn(q, s, actions + [a])
  {
    AnyOneMore(actions, a);
    FirstParkParks(actions);
  }

  /** What can happen next, on either thread. */
  datatype Event =
    | EvaluateAt(mono: real)
    | RaiseNow(trigger: Trigger)
    | OnlineAt(mono: real)
    | Configure(next: Thresholds)
    | Ask(op: R.Op)
    | Advance(at: real, online: bool)

  predicate EventOk(e: Event) {
    e.Ask? ==> R.OpOk(e.op) && !e.op.PumpAt?
  }

  class Supervisor {
    const watchdog: Watchdog
    const runner: R.MissionRunner
    /** How many of the watchdog's actions have been passed on. */
    var seen: nat
    /** Those actions, as they were passed on. */
    ghost var applied: seq<Action>

    ghost predicate Valid()
      reads this, watchdog, runner
    {
      && watchdog.Valid() && runner.Valid()
      && seen <= |watchdog.actions| && applied == watchdog.actions[..seen]
    }

    constructor (watchdog: Watchdog, runner: R.MissionRunner)
      requires watchdog.Valid() && runner.Valid() && watchdog.actions == []
      ensures Valid() && applied == []
    {
      this.watchdog, this.runner, seen, applied := watchdog, runner, 0, [];
    }

    /** Pass on what is new: an action with a Park in it, made or failed, cancels the mission,
        and one that only stopped the exposure suspends it. */
    method ApplyWatchdogActions()
      requires Valid()
      modifies this`seen, this`applied, runner`m, runner`t
      ensures Valid() && seen == |watchdog.actions| && applied == watchdog.actions
      ensures PassedOn(old(runner.m), runner.m, watchdog.actions[old(seen)..])
    {
      var actions := watchdog.actions;
      var i := seen;
      while i < |actions|
        invariant old(seen) <= i <= |actions|
        invariant runner.Valid() && applied == actions[..i]
        invariant PassedOn(old(runner.m), runner.m, actions[old(seen)..i])
        modifies runner`m, runner`t, this`applied
      {
        PassNext(actions, old(seen), i, old(runner.m));
        i := i + 1;
      }
      assert actions[..|actions|] == actions && actions[old(seen)..|actions|] == actions[old(seen)..];
      seen := |actions|;
    }

    method PassNext(actions: seq<Action>, ghost from: nat, i: nat, ghost q: R.Mission)
      requires runner.Valid() && from <= i < |actions| && applied == actions[..i]
      requires PassedOn(q, runner.m, actions[from..i])
      modifies runner`m, runner`t, this`applied
      ensures runner.Valid() && applied == actions[..i + 1] && PassedOn(q, runner.m, actions[from..i + 1])
    {
      PassOn(actions[i]);
      Told(actions, from, i);
      PassedOnFurther(q, old(runner.m), runner.m, actions[from..i], actions[i]);
      applied := applied + [actions[i]];
    }

    method PassOn(action: Action)
      requires runner.Valid()
      modifies runner`m, runner`t
      ensures runner.Valid() && PassedOn(old(runner.m), runner.m, [action])
    {
      assert [action][0] == action;
      if Parks(action) {
        runner.Cancel(FailureReasonFor(action));
      } else if action.stopped {
        runner.SuspendCapture();
      }
    }

    static lemma Told(actions: seq<Action>, from: nat, i: nat)
      requires from <= i < |actions|
      ensures actions[from..i + 1] == actions[from..i] + [actions[i]] && actions[..i + 1] == actions[..i] + [actions[i]]
    {
    }

    /** The locked end of a pass. The runner is pumped only once everything the watchdog has
        done is applied, so a mission live at a Park, made or failed, is not advanced past it.
        `passed` is the mission once they are, before its hold is lifted. */
    method AdvanceMission(at: real, online: bool)
      returns (ghost passed: R.Mission, ghost record: R.Trace, ghost a: R.Answers)
      requires Valid()
      modifies this`seen, this`applied, runner`m, runner`t
      ensures Valid() && seen == |watchdog.actions| && applied == watchdog.actions
      ensures runner.m.offers == old(runner.m.offers)
      ensures old(runner.m.started && Live(runner.m.state)) && AnyParks(watchdog.actions[old(seen)..]) ==>
                runner.m.state == Cancelled
      ensures PassedOn(old(runner.m), passed, watchdog.actions[old(seen)..])
      ensures runner.PumpComes(Resumed(passed, online), record, runner.m, runner.t, a, at)
    {
      ApplyWatchdogActions();
      passed, record := runner.m, runner.t;
      a := ResumeAndPump(at, online);
      if passed.state == Cancelled {
        runner.EndedStays(Resumed(passed, online), record, runner.m, runner.t, a, at);
      }
    }

    method ResumeAndPump(at: real, online: bool) returns (ghost a: R.Answers)
      requires runner.Valid()
      modifies runner`m, runner`t
      ensures runner.Valid() && runner.m.offers == old(runner.m.offers)
      ensures runner.PumpComes(Resumed(old(runner.m), online), old(runner.t), runner.m, runner.t, a, at)
    {
      ResumeIf(online);
      a := runner.Pump(at);
    }

    method ResumeIf(online: bool)
      requires runner.Valid()
      modifies runner`m
      ensures runner.Valid() && runner.m == Resumed(old(runner.m), online)
    {
      if online {
        runner.ResumeCapture();
      }
    }

    method Step(e: Event) returns (ghost did: Option<Action>)
      requires Valid() && EventOk(e)
      modifies this, watchdog, runner
      ensures Valid() && old(applied) <= applied && old(watchdog.actions) <= watchdog.actions
      ensures !e.Ask? && !e.Advance? ==> runner.m == old(runner.m)
      ensures e.Advance? ==> applied == watchdog.actions
      ensures e.EvaluateAt? ==>
                watchdog.Evaluated(e.mono, did) && watchdog.actions == old(watchdog.actions) + if did.Some? then [did.value] else []
      ensures e.RaiseNow? ==> watchdog.pending == Some(e.trigger)
      ensures e.OnlineAt? ==> watchdog.reference == e.mono && watchdog.log == old(watchdog.log) + [LinkUp]
      ensures e.Configure? ==> watchdog.config == Some(e.next)
      ensures e.Ask? ==> R.Does(old(runner.m), runner.m, e.op)
    {
      did := None;
      match e {
        case EvaluateAt(mono) =>
          var action := watchdog.Evaluate(mono);
          did := action;
        case RaiseNow(trigger) => watchdog.Raise(trigger);
        case OnlineAt(mono) => watchdog.LinkIsOnline(mono);
        case Configure(next) => watchdog.SetConfig(next);
        case Ask(op) => var _ := runner.Do(op);
        case Advance(at, online) => var _, _, _ := AdvanceMission(at, online);
      }
    }

    /** Whatever the interleaving, each action is applied once and in order. */
    method Run(schedule: seq<Event>)
      requires Valid() && forall e :: e in schedule ==> EventOk(e)
      modifies this, watchdog, runner
      ensures Valid() && applied <= watchdog.actions && ActionsIn(watchdog.log) == watchdog.actions
    {
      for i := 0 to |schedule|
        invariant Valid()
      {
        var _ := Step(schedule[i]);
      }
    }
  }
}
