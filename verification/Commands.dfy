/**
 Deciding and carrying out commands: the agent's own check of every command
 (`agent/darkview_agent/command/validator.py`), the nudge limit
 (`agent/darkview_agent/safety/envelope.py`), and what the supervisor does with ownership
 and with an accepted nudge (`agent/darkview_agent/supervisor.py`).

 Whether a pointing is permitted, where the mount is and whether a device raises are not
 known to the model. The set of commands seen never forgets, and the measured limits stay
 as they are. Degrees are exact.
 */
module Commands {
  import opened Common

  const ARCMINUTES_PER_DEGREE := 60.0

  datatype Kind = Goto | Nudge | Retarget | Capture | Focus | Park | Abort

  predicate Recovery(k: Kind) { k.Park? || k.Abort? }
  predicate Pointing(k: Kind) { k.Goto? || k.Nudge? || k.Retarget? }

  datatype Ownership = Ownership(session: nat, user: nat, mission: nat)

  /** `kind` is what the envelope says, `payloadKind` what is inside it. */
  datatype Command = Command(id: nat, owner: Ownership, kind: Kind, payloadKind: Kind, expires: int,
                             onAltitude: bool, positive: bool, stepArcminutes: real)

  datatype Limits = Limits(nudgeRate: real, nudgeMax: real)

  datatype Reason =
    | Expired | NoActiveMission | WrongSession | WrongUser | WrongMission | PayloadMismatch
    | WeatherHold | Disarmed | Unmeasured | NegativeStep | StepTooLong | NudgeLimit
    | PositionUnknown | NotPermitted

  datatype Ack = Accepted | Duplicate | Rejected(why: Reason)

  function StepDegrees(c: Command): real { c.stepArcminutes / ARCMINUTES_PER_DEGREE }

  /** A nudge is a bounded step, and the steps add up to a bounded offset. */
  function EvaluateNudge(limits: Option<Limits>, cumulative: real, step: real): Option<Reason> {
    if limits.None? then Some(Unmeasured)
    else if step < 0.0 then Some(NegativeStep)
    else if step > limits.value.nudgeRate then Some(StepTooLong)
    else if Abs(cumulative) + step > limits.value.nudgeMax then Some(NudgeLimit)
    else None
  }

  // ------------------------------------------------------------------
  // What a command needs
  // ------------------------------------------------------------------

  /** What the validator knows about the sky for one command: whether the position could be
      read, and whether where the command would point is permitted. */
  datatype Sky = Sky(positionKnown: bool, permitted: bool)

  predicate PointingOk(limits: Option<Limits>, cumulative: real, c: Command, sky: Sky) {
    if c.payloadKind.Nudge? then
      && limits.Some? && 0.0 <= c.stepArcminutes / 60.0 <= limits.value.nudgeRate
      && Abs(cumulative) + c.stepArcminutes / 60.0 <= limits.value.nudgeMax
      && sky.positionKnown && sky.permitted
    else sky.permitted
  }

  /** Everything an accepted command has to be. */
  predicate Admissible(v: Desk, limits: Option<Limits>, c: Command, cloudTime: int, sky: Sky) {
    && c.id !in v.seen
    && c.expires > cloudTime
    && v.ownership == Some(c.owner)
    && c.kind == c.payloadKind
    && (Recovery(c.kind) || (!v.weatherHold && !v.disarmed && (Pointing(c.kind) ==> PointingOk(limits, v.cumulative, c, sky))))
  }

  /** The validator's own state. */
  datatype Desk = Desk(ownership: Option<Ownership>, cumulative: real, seen: set<nat>, weatherHold: bool, disarmed: bool)

  /** Since the allowance was last given back: how far each axis has been sent, and the sum
      of the steps accepted; and every command accepted, ever. */
  datatype Moves = Moves(altitude: real, azimuth: real, total: real, accepted: seq<nat>)

  ghost predicate DeskOk(v: Desk, limits: Option<Limits>, m: Moves) {
    && v.cumulative == m.total >= 0.0
    && Abs(m.altitude) + Abs(m.azimuth) <= m.total
    && (limits.Some? && m.total > 0.0 ==> m.total <= limits.value.nudgeMax)
    && (forall i :: 0 <= i < |m.accepted| ==> m.accepted[i] in v.seen)
    && (forall i, j :: 0 <= i < j < |m.accepted| ==> m.accepted[i] != m.accepted[j])
  }

  /** A step moves the mount no further than it was charged. */
  function Stepped(m: Moves, c: Command): Moves {
    var signed := if c.positive then StepDegrees(c) else -StepDegrees(c);
    if c.onAltitude then m.(altitude := m.altitude + signed) else m.(azimuth := m.azimuth + signed)
  }

  lemma ChargedStepKeeps(v: Desk, limits: Option<Limits>, m: Moves, c: Command, moved: bool)
    requires DeskOk(v, limits, m) && EvaluateNudge(limits, v.cumulative, StepDegrees(c)).None?
    ensures var step := StepDegrees(c);
            var charged := m.(total := m.total + step);
            DeskOk(v.(cumulative := v.cumulative + step), limits, if moved then Stepped(charged, c) else charged)
  {
  }

  // ------------------------------------------------------------------
  // Any sequence of events
  // ------------------------------------------------------------------

  /** What can happen. With a command comes what the sky is found to be, whether carrying it
      out fails, and whether a mission is running. */
  datatype Event =
    | Arrive(c: Command, cloudTime: int, sky: Sky, failed: bool, missionRuns: bool)
    | SessionUpdate(owner: Option<Ownership>)
    | SetHold(active: bool)
    | SetDisarmed(disarmed: bool)

  datatype Office = Office(desk: Desk, moves: Moves)

  const OPENED := Office(Desk(None, 0.0, {}, false, false), Moves(0.0, 0.0, 0.0, []))

  /** The allowance is whole again, and what was accepted is not forgotten. */
  function GivenBack(s: Office): Office {
    Office(s.desk.(cumulative := 0.0), Moves(0.0, 0.0, 0.0, s.moves.accepted))
  }

  /** Validated: seen from now on, and charged if it is an accepted nudge. */
  function Validated(limits: Option<Limits>, s: Office, c: Command, cloudTime: int, sky: Sky): Office {
    var accepted := Admissible(s.desk, limits, c, cloudTime, sky);
    var step := if accepted && c.kind == Nudge then StepDegrees(c) else 0.0;
    Office(s.desk.(seen := s.desk.seen + {c.id}, cumulative := s.desk.cumulative + step),
           s.moves.(total := s.moves.total + step, accepted := s.moves.accepted + if accepted then [c.id] else []))
  }

  /** Carried out: a nudge moves the mount, a recentring or a retarget undoes the drift. A
      GOTO with no mission running starts one, and gives nothing back. */
  function CarriedOut(s: Office, c: Command, missionRuns: bool): Office {
    match c.kind
    case Nudge => s.(moves := Stepped(s.moves, c))
    case Goto => if missionRuns then GivenBack(s) else s
    case Retarget => GivenBack(s)
    case _ => s
  }

  /** The same session again changes nothing; any other change of owner gives back. */
  function Owned(s: Office, owner: Option<Ownership>): Office {
    if owner.Some? && s.desk.ownership == owner then s
    else GivenBack(s.(desk := s.desk.(ownership := owner)))
  }

  function After(limits: Option<Limits>, s: Office, e: Event): Office {
    match e
    case Arrive(c, cloudTime, sky, failed, missionRuns) =>
      var v := Validated(limits, s, c, cloudTime, sky);
      if Admissible(s.desk, limits, c, cloudTime, sky) && !failed then CarriedOut(v, c, missionRuns) else v
    case SessionUpdate(owner) => Owned(s, owner)
    case SetHold(active) => s.(desk := s.desk.(weatherHold := active))
    case SetDisarmed(disarmed) => s.(desk := s.desk.(disarmed := disarmed))
  }

  function AfterAll(limits: Option<Limits>, s: Office, events: seq<Event>): Office {
    if events == [] then s
    else After(limits, AfterAll(limits, s, events[..|events| - 1]), events[|events| - 1])
  }

  // ---- What has been spent, counted on the events ----

  /** Whether a command is accepted and carried out. */
  predicate Done(limits: Option<Limits>, s: Office, e: Event) {
    e.Arrive? && !e.failed && Admissible(s.desk, limits, e.c, e.cloudTime, e.sky)
  }

  /** What gives the allowance back: another object, a mission put back on its own, or another
      session. */
  predicate Restores(limits: Option<Limits>, s: Office, e: Event) {
    || (Done(limits, s, e) && (e.c.kind.Retarget? || (e.c.kind.Goto? && e.missionRuns)))
    || (e.SessionUpdate? && (e.owner.None? || s.desk.ownership != e.owner))
  }

  /** The steps of the nudges accepted since then. */
  function Spent(limits: Option<Limits>, events: seq<Event>): real {
    if events == [] then 0.0
    else
      var (before, e) := (events[..|events| - 1], events[|events| - 1]);
      var s := AfterAll(limits, OPENED, before);
      if Restores(limits, s, e) then 0.0
      else if e.Arrive? && e.c.kind.Nudge? && Admissible(s.desk, limits, e.c, e.cloudTime, e.sky) then
        Spent(limits, before) + e.c.stepArcminutes / 60.0
      else Spent(limits, before)
  }

  /** How far an axis has been moved since then, by the nudges that did not fail. */
  function Offset(limits: Option<Limits>, events: seq<Event>, altitude: bool): real {
    if events == [] then 0.0
    else
      var (before, e) := (events[..|events| - 1], events[|events| - 1]);
      var s := AfterAll(limits, OPENED, before);
      if Restores(limits, s, e) then 0.0
      else if Done(limits, s, e) && e.c.kind.Nudge? && e.c.onAltitude == altitude then
        Offset(limits, before, altitude) + (if e.c.positive then 1.0 else -1.0) * e.c.stepArcminutes / 60.0
      else Offset(limits, before, altitude)
  }

  /** The allowance used is what has been spent since it was last given back, and each axis is
      off by what its nudges come to. */
  lemma {:induction false} SpentIsCounted(limits: Option<Limits>, events: seq<Event>)
    ensures var r := AfterAll(limits, OPENED, events);
            && r.desk.cumulative == r.moves.total == Spent(limits, events)
            && r.moves.altitude == Offset(limits, events, true) && r.moves.azimuth == Offset(limits, events, false)
  {
    if events != [] {
      var before := events[..|events| - 1];
      SpentIsCounted(limits, before);
    }
  }

  /** How often a command is accepted in the course of events. */
  function Acceptances(limits: Option<Limits>, events: seq<Event>, id: nat): nat {
    if events == [] then 0
    else
      var (before, e) := (events[..|events| - 1], events[|events| - 1]);
      Acceptances(limits, before, id)
      + if e.Arrive? && e.c.id == id && Admissible(AfterAll(limits, OPENED, before).desk, limits, e.c, e.cloudTime, e.sky)
        then 1 else 0
  }

  lemma ValidatedKeeps(limits: Option<Limits>, s: Office, c: Command, cloudTime: int, sky: Sky)
    requires DeskOk(s.desk, limits, s.moves)
    ensures var v := Validated(limits, s, c, cloudTime, sky); DeskOk(v.desk, limits, v.moves)
  {
    if Admissible(s.desk, limits, c, cloudTime, sky) && c.kind == Nudge {
      ChargedStepKeeps(s.desk, limits, s.moves, c, false);
    }
  }

  lemma AfterKeeps(limits: Option<Limits>, s: Office, e: Event)
    requires DeskOk(s.desk, limits, s.moves)
    ensures var r := After(limits, s, e); DeskOk(r.desk, limits, r.moves) && s.desk.seen <= r.desk.seen
  {
    if e.Arrive? {
      ValidatedKeeps(limits, s, e.c, e.cloudTime, e.sky);
      var v := Validated(limits, s, e.c, e.cloudTime, e.sky);
      if Admissible(s.desk, limits, e.c, e.cloudTime, e.sky) && e.c.kind == Nudge {
        StepTaken(s.desk, v.desk, limits, s.moves, v.moves, e.c);
      }
    }
  }

  /** From the opening on, whatever arrives, is replayed, fails or changes hands: the mount is
      no further from where it was last put than the steps accepted since, those are within
      the limit, and no command is accepted twice. */
  lemma {:induction false} NudgesBounded(limits: Option<Limits>, events: seq<Event>, id: nat)
    ensures var r := AfterAll(limits, OPENED, events);
            && DeskOk(r.desk, limits, r.moves)
            && Abs(r.moves.altitude) + Abs(r.moves.azimuth) <= r.moves.total
            && (limits.Some? && limits.value.nudgeMax >= 0.0 ==> r.moves.total <= limits.value.nudgeMax)
            && Acceptances(limits, events, id) <= 1
            && (Acceptances(limits, events, id) == 1 ==> id in r.desk.seen)
  {
    if events != [] {
      var before := events[..|events| - 1];
      NudgesBounded(limits, before, id);
      AfterKeeps(limits, AfterAll(limits, OPENED, before), events[|events| - 1]);
    }
  }

  class Commander {
    const limits: Option<Limits>
    var desk: Desk
    ghost var moves: Moves

    ghost predicate Valid()
      reads this
    {
      DeskOk(desk, limits, moves)
    }

    constructor (limits: Option<Limits>)
      ensures Valid() && this.limits == limits && Office(desk, moves) == OPENED
    {
      this.limits, desk, moves := limits, OPENED.desk, OPENED.moves;
    }

    /** Decide one command. It is accepted exactly when it is admissible; only an accepted
        nudge is charged; and whatever the verdict, the command is not accepted again. */
    method Validate(c: Command, cloudTime: int, sky: Sky) returns (ack: Ack)
      requires Valid()
      modifies this
      ensures Valid()
      ensures ack == Accepted <==> Admissible(old(desk), limits, c, cloudTime, sky)
      ensures ack == Duplicate <==> c.id in old(desk.seen)
      ensures var step := if ack == Accepted && c.kind == Nudge then StepDegrees(c) else 0.0;
              && desk == old(desk).(seen := old(desk.seen) + {c.id}, cumulative := old(desk.cumulative) + step)
              && moves == old(moves).(total := old(moves.total) + step,
                                      accepted := old(moves.accepted) + if ack == Accepted then [c.id] else [])
      ensures ack == Accepted && c.kind == Nudge ==> EvaluateNudge(limits, old(desk.cumulative), StepDegrees(c)).None?
    {
      if c.id in desk.seen {
        assert desk.seen + {c.id} == desk.seen;
        return Duplicate;
      }
      var refusal := Evaluate(c, cloudTime, sky);
      var step := 0.0;
      if refusal.None? && c.kind == Nudge {
        step := StepDegrees(c);
        ChargedStepKeeps(desk, limits, moves, c, false);
      }
      desk := desk.(seen := desk.seen + {c.id}, cumulative := desk.cumulative + step);
      moves := moves.(total := moves.total + step, accepted := moves.accepted + if refusal.None? then [c.id] else []);
      ack := if refusal.None? then Accepted else Rejected(refusal.value);
    }

    /** Current, owned and agreeing, and no recovery. */
    predicate ReachesSky(c: Command, cloudTime: int)
      reads this
    {
      c.expires > cloudTime && desk.ownership == Some(c.owner) && c.payloadKind == c.kind && !c.kind.Park? && !c.kind.Abort?
    }

    /** Expiry, authorisation, agreement, then the sky; recovery commands skip the sky. */
    method Evaluate(c: Command, cloudTime: int, sky: Sky) returns (refusal: Option<Reason>)
      ensures c.id !in desk.seen ==> (refusal.None? <==> Admissible(desk, limits, c, cloudTime, sky))
      ensures refusal == Some(Expired) <==> c.expires <= cloudTime
      ensures refusal == Some(NoActiveMission) <==> c.expires > cloudTime && desk.ownership.None?
      ensures refusal == Some(WrongSession) <==>
                c.expires > cloudTime && desk.ownership.Some? && desk.ownership.value.session != c.owner.session
      ensures refusal == Some(WrongUser) <==>
                && c.expires > cloudTime && desk.ownership.Some?
                && desk.ownership.value.session == c.owner.session && desk.ownership.value.user != c.owner.user
      ensures refusal == Some(WrongMission) <==>
                && c.expires > cloudTime && desk.ownership.Some? && desk.ownership.value != c.owner
                && desk.ownership.value.session == c.owner.session && desk.ownership.value.user == c.owner.user
      ensures refusal == Some(PayloadMismatch) <==>
                c.expires > cloudTime && desk.ownership == Some(c.owner) && c.payloadKind != c.kind
      ensures refusal == Some(WeatherHold) <==> ReachesSky(c, cloudTime) && desk.weatherHold
      ensures refusal == Some(Disarmed) <==> ReachesSky(c, cloudTime) && !desk.weatherHold && desk.disarmed
      ensures ReachesSky(c, cloudTime) && !desk.weatherHold && !desk.disarmed && c.kind in {Goto, Retarget} ==>
                refusal == if sky.permitted then None else Some(NotPermitted)
      ensures ReachesSky(c, cloudTime) && !desk.weatherHold && !desk.disarmed && c.kind in {Capture, Focus} ==> refusal.None?
    {
      if c.expires <= cloudTime { return Some(Expired); }
      if desk.ownership.None? { return Some(NoActiveMission); }
      if c.owner.session != desk.ownership.value.session { return Some(WrongSession); }
      if c.owner.user != desk.ownership.value.user { return Some(WrongUser); }
      if c.owner.mission != desk.ownership.value.mission { return Some(WrongMission); }
      if c.payloadKind != c.kind { return Some(PayloadMismatch); }
      if Recovery(c.kind) { return None; }
      if desk.weatherHold { return Some(WeatherHold); }
      if desk.disarmed { return Some(Disarmed); }
      if Pointing(c.kind) {
        if c.payloadKind == Nudge {
          refusal := EvaluateNudge(limits, desk.cumulative, StepDegrees(c));
          if refusal.Some? { return; }
          if !sky.positionKnown { return Some(PositionUnknown); }
        }
        if !sky.permitted { return Some(NotPermitted); }
      }
      return None;
    }

    /** The same session re-asserted leaves the allowance as it was spent; any other change
        of owner gives it back. */
    method SetOwner(owner: Option<Ownership>)
      requires Valid()
      modifies this
      ensures Office(desk, moves) == Owned(Office(old(desk), old(moves)), owner)
      ensures Valid() && desk.ownership == owner && desk.seen == old(desk.seen)
      ensures owner.Some? && owner == old(desk.ownership) ==> desk == old(desk) && moves == old(moves)
      ensures !(owner.Some? && owner == old(desk.ownership)) ==> desk.cumulative == 0.0
    {
      if owner.Some? && desk.ownership == owner { return; }
      desk := desk.(ownership := owner, cumulative := 0.0);
      moves := Moves(0.0, 0.0, 0.0, moves.accepted);
    }

    /** The mount is back on its object, or on another: the drift is gone. */
    method ResetNudgeOffset()
      requires Valid()
      modifies this
      ensures Valid() && desk == old(desk).(cumulative := 0.0) && moves == Moves(0.0, 0.0, 0.0, old(moves.accepted))
    {
      desk, moves := desk.(cumulative := 0.0), Moves(0.0, 0.0, 0.0, moves.accepted);
    }

    /** A command arrives: it is validated and, if accepted, carried out. A nudge that fails
        has been charged and has moved nothing. */
    method Handle(c: Command, cloudTime: int, sky: Sky, failed: bool, missionRuns: bool) returns (ack: Ack)
      requires Valid()
      modifies this
      ensures Valid() && (ack == Accepted ==> c.id !in old(desk.seen)) && c.id in desk.seen
      ensures Office(desk, moves) == After(limits, Office(old(desk), old(moves)), Arrive(c, cloudTime, sky, failed, missionRuns))
    {
      ghost var before := Office(desk, moves);
      AfterKeeps(limits, before, Arrive(c, cloudTime, sky, failed, missionRuns));
      ack := Validate(c, cloudTime, sky);
      assert Office(desk, moves) == Validated(limits, before, c, cloudTime, sky);
      if ack == Accepted && !failed {
        match c.kind {
          case Nudge => moves := Stepped(moves, c);
          case Goto =>
            if missionRuns {
              ResetNudgeOffset();
            }
          case Retarget => ResetNudgeOffset();
          case _ =>
        }
      }
    }

    /** Any commands, replays and session updates come to the course of those events, and keep
        the mount within what was accepted and that within the limit. */
    method Run(events: seq<Event>)
      requires Valid()
      modifies this
      ensures Valid() && Office(desk, moves) == AfterAll(limits, Office(old(desk), old(moves)), events)
      ensures Abs(moves.altitude) + Abs(moves.azimuth) <= moves.total
      ensures limits.Some? && limits.value.nudgeMax >= 0.0 ==> moves.total <= limits.value.nudgeMax
      ensures forall i, j :: 0 <= i < j < |moves.accepted| ==> moves.accepted[i] != moves.accepted[j]
    {
      for i := 0 to |events|
        invariant Valid()
        invariant Office(desk, moves) == AfterAll(limits, Office(old(desk), old(moves)), events[..i])
      {
        assert events[..i + 1][..i] == events[..i];
        match events[i] {
          case Arrive(c, cloudTime, sky, failed, missionRuns) =>
            var _ := Handle(c, cloudTime, sky, failed, missionRuns);
          case SessionUpdate(owner) => SetOwner(owner);
          case SetHold(active) => desk := desk.(weatherHold := active);
          case SetDisarmed(disarmed) => desk := desk.(disarmed := disarmed);
        }
      }
      assert events[..|events|] == events;
    }
  }

  lemma StepTaken(before: Desk, v: Desk, limits: Option<Limits>, was: Moves, m: Moves, c: Command)
    requires DeskOk(before, limits, was) && DeskOk(v, limits, m)
    requires EvaluateNudge(limits, before.cumulative, StepDegrees(c)).None?
    requires m == was.(total := was.total + StepDegrees(c), accepted := m.accepted)
    ensures DeskOk(v, limits, Stepped(m, c))
  {
  }
}
