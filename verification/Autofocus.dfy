/**
 Backlash-free focusing (`agent/darkview_agent/focus/autofocus.py`) on a motor with play
 (`SimFocuser` in `agent/darkview_agent/devices/simulated.py`): whatever is measured or
 left in focus is reached travelling outward, so that the optics sit exactly one backlash
 behind the motor.

 The camera, the star sizes and the fitted curve are not modelled: whether a frame could
 be measured and where the best focus falls in the window are arbitrary. A move's travel
 time is left out; its end is not.
 */
module Autofocus {
  import opened Common

  const MIN_MEASURED_SAMPLES := 5

  function Max(a: int, b: int): int { if a >= b then a else b }
  function Min(a: int, b: int): int { if a <= b then a else b }

  // ------------------------------------------------------------------
  // Play
  // ------------------------------------------------------------------

  /** Where the motor is, and how far behind it the optics are. */
  datatype Play = Play(position: int, slack: int)

  predicate PlayOk(backlash: nat, s: Play) { 0 <= s.slack <= backlash }

  /** Inside the play the optics stay put; beyond it they are carried along. */
  function Moved(backlash: nat, s: Play, position: int): (r: Play)
    requires PlayOk(backlash, s)
    ensures PlayOk(backlash, r) && r.position == position
  {
    var optical := Max(position - backlash, Min(s.position - s.slack, position));
    Play(position, position - optical)
  }

  /** Outward takes slack up, as far as the backlash; inward lets it out. */
  lemma SlackAfter(backlash: nat, s: Play, position: int)
    requires PlayOk(backlash, s)
    ensures position >= s.position ==> Moved(backlash, s, position).slack == Min(backlash, s.slack + position - s.position)
    ensures position <= s.position ==> Moved(backlash, s, position).slack == Max(0, s.slack - (s.position - position))
  {
  }

  function Legs(backlash: nat, s: Play, legs: seq<int>): (r: Play)
    requires PlayOk(backlash, s)
    ensures PlayOk(backlash, r)
    decreases |legs|
  {
    if legs == [] then s else Legs(backlash, Moved(backlash, s, legs[0]), legs[1..])
  }

  // ------------------------------------------------------------------
  // Approaching
  // ------------------------------------------------------------------

  /** One leg or two, the last of them outward. */
  function Approach(current: int, target: int, overshoot: int): seq<int> {
    if target >= current then [target] else [Max(0, target - overshoot), target]
  }

  /** How far outward the last leg of an approach takes up, on top of what slack is left. */
  function TakenUp(s: Play, target: int, overshoot: int): int {
    if target >= s.position then s.slack + (target - s.position)
    else
      var below := Max(0, target - overshoot);
      Max(0, s.slack - (s.position - below)) + (target - below)
  }

  /** An approach arrives, and is taut exactly when its last leg takes the whole play up. */
  lemma ApproachTaut(backlash: nat, s: Play, target: int, overshoot: int)
    requires PlayOk(backlash, s) && overshoot >= 0 && target >= 0
    ensures var r := Legs(backlash, s, Approach(s.position, target, overshoot));
            r.position == target && (r.slack == backlash <==> TakenUp(s, target, overshoot) >= backlash)
  {
    if target >= s.position {
      assert Legs(backlash, s, [target]) == Legs(backlash, Moved(backlash, s, target), []);
    } else {
      var below := Max(0, target - overshoot);
      var there := Moved(backlash, s, below);
      assert [below, target][1..] == [target] && [target][1..] == [];
      assert Legs(backlash, s, [below, target]) == Legs(backlash, there, [target]);
      assert Legs(backlash, there, [target]) == Moved(backlash, there, target);
    }
  }

  // ------------------------------------------------------------------
  // The sampling window
  // ------------------------------------------------------------------

  datatype Setup = Setup(start: int, maxPosition: int, step: int, samples: int, overshoot: int) {
    function Span(): int { step * (samples - 1) }

    function Lowest(): int { Min(Max(start - Span() / 2, overshoot), maxPosition - Span()) }

    predicate Fits() { samples >= MIN_MEASURED_SAMPLES && overshoot <= Lowest() <= maxPosition }

    function Sample(i: int): int { Lowest() + step * i }
  }

  /** The window is where the start is its middle, or as near to that as the travel above the
      overshoot lets it be. */
  lemma WindowNearest(u: Setup, x: int)
    requires u.Fits() && u.overshoot <= x <= u.maxPosition - u.Span()
    ensures u.overshoot <= u.Lowest() <= u.maxPosition - u.Span()
    ensures Distance(u.Lowest(), u.start - u.Span() / 2) <= Distance(x, u.start - u.Span() / 2)
    ensures u.overshoot <= u.start - u.Span() / 2 <= u.maxPosition - u.Span() ==> u.Lowest() == u.start - u.Span() / 2
    ensures forall i :: 0 <= i && i + 1 < u.samples ==> u.Sample(i + 1) == u.Sample(i) + u.step
  {
  }

  function Distance(x: int, y: int): int { if x >= y then x - y else y - x }

  /** What the sizes have to be for focus to be free of backlash. */
  predicate Generous(u: Setup, backlash: nat) {
    u.overshoot >= backlash && u.step >= backlash && 0 <= u.start <= u.maxPosition
  }

  /** The window lies below a start that is above the overshoot, whatever its size, unless
      there is no play to speak of. */
  lemma WindowBelowStart(u: Setup, backlash: nat)
    requires u.Fits() && Generous(u, backlash) && backlash > 0 && u.start > u.overshoot
    ensures u.overshoot <= u.Lowest() < u.start
  {
    assert u.Span() >= 4 * u.step by {
      MulAtLeast(u.step, u.samples - 1, 4);
    }
  }

  lemma MulAtLeast(x: int, n: int, k: int)
    requires x >= 0 && n >= k
    ensures x * n >= x * k
  {
  }

  /** The first sample is taut exactly when: always, from a start above the overshoot; and
      from one at or below it, when the way up to the window takes up the play. */
  lemma FirstSampleTaut(u: Setup, backlash: nat, slack: int)
    requires u.Fits() && Generous(u, backlash) && 0 <= slack <= backlash
    ensures var r := Legs(backlash, Play(u.start, slack), Approach(u.start, u.Lowest(), u.overshoot));
            && r.position == u.Lowest()
            && (r.slack == backlash <==> backlash == 0 || u.start > u.overshoot || slack + u.Lowest() - u.start >= backlash)
  {
    ApproachTaut(backlash, Play(u.start, slack), u.Lowest(), u.overshoot);
    if backlash > 0 && u.start > u.overshoot {
      WindowBelowStart(u, backlash);
    } else if backlash > 0 {
      WindowAboveStart(u, backlash);
    }
  }

  lemma WindowAboveStart(u: Setup, backlash: nat)
    requires u.Fits() && Generous(u, backlash) && u.start <= u.overshoot
    ensures u.Lowest() == u.overshoot >= u.start
  {
    assert u.Span() >= 0 by {
      MulAtLeast(u.step, u.samples - 1, 0);
    }
  }

  lemma SampleOrder(u: Setup, i: int, j: int)
    requires u.step >= 0 && i <= j
    ensures u.Sample(i) <= u.Sample(j)
  {
    MulAtLeast(u.step, j, i);
  }

  /** From a taut position, an outward step stays taut, and so does the final approach to
      anywhere an overshoot above the end of travel. */
  lemma StaysTaut(backlash: nat, s: Play, target: int, overshoot: int)
    requires PlayOk(backlash, s) && s.slack == backlash && overshoot >= backlash && target >= 0
    requires target >= s.position || target >= overshoot
    ensures Legs(backlash, s, Approach(s.position, target, overshoot)) == Play(target, backlash)
  {
    ApproachTaut(backlash, s, target, overshoot);
  }

  // ------------------------------------------------------------------
  // The motor and the run
  // ------------------------------------------------------------------

  class SimFocuser {
    const backlash: nat
    const maxPosition: int
    var play: Play

    ghost predicate Valid()
      reads this
    {
      PlayOk(backlash, play)
    }

    constructor (backlash: nat, maxPosition: int, position: int)
      ensures Valid() && play == Play(position, 0) && this.backlash == backlash && this.maxPosition == maxPosition
    {
      this.backlash, this.maxPosition, play := backlash, maxPosition, Play(position, 0);
    }

    function OpticalPosition(): int
      reads this
    {
      play.position - play.slack
    }

    /** A move outside the travel is refused. */
    method MoveTo(position: int) returns (refused: bool)
      requires Valid()
      modifies this
      ensures Valid() && refused == !(0 <= position <= maxPosition)
      ensures play == if refused then old(play) else Moved(backlash, old(play), position)
    {
      if !(0 <= position <= maxPosition) { return true; }
      var optical := play.position - play.slack;
      optical := Max(position - backlash, Min(optical, position));
      play := Play(position, position - optical);
      return false;
    }
  }

  /** How a run is over: at the best focus, or back at the start. */
  datatype Result = Result(succeeded: bool, position: int)

  class Autofocus {
    const focuser: SimFocuser
    const u: Setup
    /** The move in hand: the legs not started. None once it has finished. */
    var legs: Option<seq<int>>
    var exposing: bool
    var measured: nat
    var finish: Option<Result>
    var result: Option<Result>
    /** A move outside the travel was refused, and the error went to the caller. */
    var abandoned: bool
    /** The play at each frame taken. */
    ghost var taken: seq<Play>

    /** Backlash is out of the picture for this run. */
    ghost predicate Free() {
      Generous(u, focuser.backlash) && u.start > u.overshoot
    }

    ghost function Target(): int
      reads this
    {
      if finish.Some? then finish.value.position else u.Sample(measured)
    }

    ghost predicate Valid()
      reads this, focuser
    {
      && focuser.Valid() && u.Fits() && u.overshoot >= 0 && u.maxPosition == focuser.maxPosition
      && (abandoned ==> !Free() && result.None?)
      && (!abandoned ==> Going())
    }

    /** A run in progress, or over. */
    ghost predicate Going()
      reads this, focuser
      requires focuser.Valid()
    {
      && measured <= u.samples && |taken| == measured
      && (finish.None? ==> measured < u.samples)
      && (legs.None? && finish.Some? ==> result == finish)
      && (result.Some? ==> result == finish && legs.None?)
      && (Free() ==>
            && (legs.Some? ==> Legs(focuser.backlash, focuser.play, legs.value) == Play(Target(), focuser.backlash))
            && (legs.Some? ==> InTravel(legs.value, u.maxPosition))
            && (legs.None? ==> focuser.play == Play(Target(), focuser.backlash))
            && (finish.Some? ==> finish.value.position >= u.overshoot)
            && forall i :: 0 <= i < |taken| ==> taken[i] == Play(u.Sample(i), focuser.backlash))
    }

    /** Set off for the first sample. */
    constructor (focuser: SimFocuser, u: Setup)
      requires focuser.Valid() && u.Fits() && u.overshoot >= 0
      requires u.start == focuser.play.position && u.maxPosition == focuser.maxPosition
      ensures Valid() && this.focuser == focuser && this.u == u && measured == 0 && result.None? && !abandoned
    {
      this.focuser, this.u := focuser, u;
      legs := Some(Approach(u.start, u.Lowest(), u.overshoot));
      exposing, measured, finish, result, abandoned, taken := false, 0, None, None, false, [];
      if Generous(u, focuser.backlash) && u.start > u.overshoot {
        FirstSampleTaut(u, focuser.backlash, focuser.play.slack);
      }
    }

    /** Set off on the next leg when the motor has stopped; done when there is none left. A leg
        outside the travel raises, which does not happen to a run free of backlash. */
    method PumpMove() returns (done: bool, raised: bool, moving: bool)
      requires Valid() && !abandoned && legs.Some? && result.None?
      modifies this`legs, this`abandoned, focuser
      ensures Valid() && raised == abandoned && (Free() ==> !raised) && legs.Some?
      ensures done <==> !moving && old(legs) == Some([])
      ensures moving || done ==> !raised && legs == old(legs) && focuser.play == old(focuser.play)
      ensures !moving && !done ==> SetsOff(old(legs.value), old(focuser.play), raised)
    {
      moving := *;
      if moving { return false, false, moving; }
      if legs.value == [] { return true, false, moving; }
      var leg := legs.value[0];
      legs := Some(legs.value[1..]);
      raised := focuser.MoveTo(leg);
      abandoned := raised;
      return false, raised, moving;
    }

    /** The first leg is begun, or raises because it is outside the travel. */
    ghost predicate SetsOff(before: seq<int>, play: Play, raised: bool)
      reads this, focuser
      requires focuser.Valid() && PlayOk(focuser.backlash, play)
    {
      && before != [] && legs == Some(before[1..])
      && raised == !(0 <= before[0] <= focuser.maxPosition)
      && focuser.play == if raised then play else Moved(focuser.backlash, play, before[0])
    }

    /** One poll: finish the move, take the frame it was for, set off to the next. Each
        frame is taken, and the run ended, with the optics one backlash behind the motor.
        `moving` and `ready` are what the motor and the camera answered. */
    method Pump() returns (over: bool, raised: bool, moving: bool, ready: bool)
      requires Valid() && !abandoned
      modifies this, focuser
      ensures Valid() && over == result.Some? && raised == abandoned && (Free() ==> !raised)
      ensures over && Free() ==> focuser.OpticalPosition() == result.value.position - focuser.backlash
      ensures old(result.Some?) || (old(legs.Some?) && moving) ==>
                legs == old(legs) && exposing == old(exposing) && measured == old(measured) && result == old(result)
                && finish == old(finish) && focuser.play == old(focuser.play)
      ensures old(result.None? && legs.Some? && legs.value != []) && !moving ==>
                SetsOff(old(legs.value), old(focuser.play), raised) && measured == old(measured) && result.None?
                && exposing == old(exposing) && finish == old(finish)
      ensures old(result.None? && finish.Some? && legs == Some([])) && !moving ==> result == finish == old(finish)
      ensures old(result.None? && finish.None? && (legs.None? || legs == Some([]))) && (old(legs.None?) || !moving) ==>
                Photographs(old(measured), old(exposing), raised, ready)
      ensures raised || old(result.Some?) || PumpsLeft() < old(PumpsLeft()) || (old(legs.Some?) && moving) || !ready
    {
      moving, ready := false, true;
      if result.Some? { return true, false, moving, ready; }
      if legs.Some? {
        var done;
        done, raised, moving := PumpMove();
        if !done { return false, raised, moving, ready; }
        legs := None;
        if finish.Some? {
          result := finish;
          return true, false, moving, ready;
        }
      }
      if !exposing {
        exposing := true;
        return false, false, moving, ready;
      }
      ready := *;
      if !ready { return false, false, moving, ready; }
      raised := Measure();
      return false, raised, moving, ready;
    }

    /** A frame is begun, waited for, or read; and then the next move begins, unless it raises. */
    ghost predicate Photographs(before: nat, wasExposing: bool, raised: bool, ready: bool)
      reads this
    {
      if !wasExposing then exposing && legs.None? && measured == before && !raised
      else if !ready then exposing && legs.None? && measured == before && !raised
      else !exposing && measured == before + 1 && (raised || legs.Some?)
    }

    /** The most polls left, when the motor has stopped and the frame is ready whenever asked:
        for each frame two legs, its exposure and its reading, and then the last move. */
    ghost function PumpsLeft(): int
      reads this
    {
      var move := if legs.Some? then |legs.value| + 1 else 0;
      if result.Some? then 0
      else if finish.Some? then move
      else 4 * (u.samples - measured - 1) + 4 + (if legs.Some? then move else if exposing then 0 else 1)
    }

    /** A run that nothing raises in is over after four polls a frame and four more, when the
        motor and the camera are ready whenever asked. */
    method Finish(polls: nat) returns (over: bool, raised: bool, ghost waited: bool)
      requires Valid() && !abandoned && polls >= PumpsLeft()
      modifies this, focuser
      ensures Valid() && (raised <==> abandoned) && (over ==> result.Some?)
      ensures !raised && !waited ==> over
    {
      over, raised, waited := result.Some?, false, false;
      var i := 0;
      while i < polls && !raised && !over
        invariant Valid() && i <= polls && raised == abandoned && over == result.Some?
        invariant !raised && !waited && !over ==> PumpsLeft() + i <= polls
      {
        var moving, ready;
        over, raised, moving, ready := Pump();
        waited := waited || moving || !ready;
        i := i + 1;
      }
    }

    /** The frame is read; on to the next position, or to the conclusion. A position outside
        the travel raises. */
    method Measure() returns (raised: bool)
      requires Valid() && !abandoned && legs.None? && result.None? && finish.None? && exposing
      modifies this`exposing, this`measured, this`taken, this`legs, this`finish, this`abandoned
      ensures Valid() && result.None? && measured == old(measured) + 1
      ensures taken == old(taken) + [focuser.play]
      ensures raised == abandoned && (Free() ==> !raised) && !exposing && (!raised ==> legs.Some? && |legs.value| <= 2)
      ensures finish.Some? <==> measured == u.samples
    {
      var target, conclusion := Following(measured);
      exposing, measured, taken := false, measured + 1, taken + [focuser.play];
      finish := conclusion;
      raised := !(0 <= target <= u.maxPosition);
      if raised {
        abandoned := true;
        return;
      }
      legs := Some(Approach(focuser.play.position, target, u.overshoot));
      if Free() {
        StaysTaut(focuser.backlash, focuser.play, target, u.overshoot);
      }
    }

    /** Where to go after the `k`-th frame: the next position of the window, or after the last
        one the best focus if there is one inside it, and else the start. */
    method Following(k: nat) returns (target: int, conclusion: Option<Result>)
      requires u.Fits() && u.overshoot >= 0 && k < u.samples
      ensures conclusion.None? <==> k + 1 < u.samples
      ensures conclusion.None? ==> target == u.Sample(k + 1)
      ensures conclusion.Some? ==>
                && target == conclusion.value.position
                && if conclusion.value.succeeded then u.Sample(0) <= target <= u.Sample(u.samples - 1) else target == u.start
      ensures Free() ==> 0 <= target <= u.maxPosition && u.overshoot <= target
    {
      if k + 1 < u.samples {
        target, conclusion := u.Sample(k + 1), None;
        SampleInWindow(u, focuser.backlash, k, k + 1);
      } else {
        var found: bool, best: int := *, *;
        target := if found && u.Sample(0) <= best <= u.Sample(u.samples - 1) then best else u.start;
        conclusion := Some(Result(found && u.Sample(0) <= best <= u.Sample(u.samples - 1), target));
        SampleInWindow(u, focuser.backlash, 0, u.samples - 1);
      }
    }
  }

  predicate InTravel(legs: seq<int>, maxPosition: int) {
    forall i :: 0 <= i < |legs| ==> 0 <= legs[i] <= maxPosition
  }

  /** A run is refused when it has too few samples or its window does not fit the travel. */
  method StartAutofocus(focuser: SimFocuser, step: int, samples: int, overshoot: nat) returns (run: Autofocus?)
    requires focuser.Valid()
    ensures var u := Setup(focuser.play.position, focuser.maxPosition, step, samples, overshoot);
            (run == null <==> !u.Fits()) && (run != null ==> run.Valid() && run.focuser == focuser && run.u == u && fresh(run))
  {
    var u := Setup(focuser.play.position, focuser.maxPosition, step, samples, overshoot);
    if !u.Fits() { return null; }
    run := new Autofocus(focuser, u);
  }

  lemma SampleInWindow(u: Setup, backlash: nat, i: int, j: int)
    requires u.Fits() && 0 <= i <= j < u.samples
    ensures Generous(u, backlash) ==> u.overshoot <= u.Sample(0) <= u.Sample(i) <= u.Sample(j) <= u.maxPosition
  {
    if Generous(u, backlash) {
      SampleOrder(u, 0, i);
      SampleOrder(u, i, j);
      SampleOrder(u, j, u.samples - 1);
    }
  }
}
