/**
 The NexStar mount's rate control (`agent/darkview_agent/devices/nexstar.py`).

 Angles, rates and times are exact reals. The plant is the one the driver is written for:
 for one tick each axis moves at the rate last commanded, as truncated on the wire. The
 square root in the error is a function the mount is given, known only by its square.
 */
module NexStar {
  import opened Common

  const TICK_SECONDS := 0.25
  const GAIN_PER_SECOND := 1.2
  const MAX_RATE_DEGREES_PER_SECOND := 4.0
  const ARRIVED_DEGREES := 0.005
  const SETTLED_DEGREES := 0.03
  const SETTLED_TICKS := 12
  const RUNAWAY_DEGREES := 1.0
  const RUNAWAY_TICKS := 12
  const PARK_TIMEOUT_SECONDS := 180.0
  /** The park timeout, in ticks. */
  const PARK_TICKS := 720

  function Max(x: real, y: real): real { if x >= y then x else y }

  // ------------------------------------------------------------------
  // Turning
  // ------------------------------------------------------------------

  function Mod360(x: real): (r: real)
    ensures 0.0 <= r < 360.0
  {
    x - 360.0 * (x / 360.0).Floor as real
  }

  function Wrap180(x: real): (r: real)
    ensures -180.0 <= r < 180.0
  {
    Mod360(x + 180.0) - 180.0
  }

  /** The remainder is the only number in range a whole number of turns away. */
  lemma Mod360Unique(x: real, turns: int, r: real)
    requires 0.0 <= r < 360.0 && x == r + 360.0 * turns as real
    ensures Mod360(x) == r
  {
    assert x / 360.0 == r / 360.0 + turns as real;
    assert (x / 360.0).Floor == turns;
  }

  lemma Wrap180Unique(x: real, turns: int, r: real)
    requires -180.0 <= r < 180.0 && x == r + 360.0 * turns as real
    ensures Wrap180(x) == r
  {
    Mod360Unique(x + 180.0, turns, r + 180.0);
  }

  // ------------------------------------------------------------------
  // The pointing model: each axis is turned or not, and offset
  // ------------------------------------------------------------------

  datatype PointingModel = PointingModel(azimuthSign: int, altitudeSign: int, azimuthOffset: real, altitudeOffset: real) {
    predicate Ok() { azimuthSign in {1, -1} && altitudeSign in {1, -1} }

    /** Where the axes go for a direction: azimuth, then altitude. */
    function SkyToMount(altitude: real, azimuth: real): (real, real) {
      (Mod360(azimuthSign as real * azimuth + azimuthOffset), altitudeSign as real * altitude + altitudeOffset)
    }

    /** The direction the axes point in: altitude, then azimuth. */
    function MountToSky(mountAzimuth: real, mountAltitude: real): (real, real) {
      ((mountAltitude - altitudeOffset) * altitudeSign as real,
       Mod360((mountAzimuth - azimuthOffset) * azimuthSign as real))
    }
  }

  /** Sky to mount and back is where it started, the azimuth brought into one turn. */
  lemma SkyRoundTrip(m: PointingModel, altitude: real, azimuth: real)
    requires m.Ok()
    ensures var (az, alt) := m.SkyToMount(altitude, azimuth);
            m.MountToSky(az, alt) == (altitude, Mod360(azimuth))
  {
    var s := m.azimuthSign as real;
    var x := s * azimuth + m.azimuthOffset;
    var turns := (x / 360.0).Floor;
    var around := (azimuth / 360.0).Floor;
    var back := (Mod360(x) - m.azimuthOffset) * s;
    if m.azimuthSign == 1 {
      assert back == Mod360(azimuth) + 360.0 * (around - turns) as real;
      Mod360Unique(back, around - turns, Mod360(azimuth));
    } else {
      assert back == Mod360(azimuth) + 360.0 * (around + turns) as real;
      Mod360Unique(back, around + turns, Mod360(azimuth));
    }
  }

  /** And mount to sky and back. */
  lemma MountRoundTrip(m: PointingModel, mountAzimuth: real, mountAltitude: real)
    requires m.Ok()
    ensures var (alt, az) := m.MountToSky(mountAzimuth, mountAltitude);
            m.SkyToMount(alt, az) == (Mod360(mountAzimuth), mountAltitude)
  {
    var s := m.azimuthSign as real;
    var x := (mountAzimuth - m.azimuthOffset) * s;
    var turns := (x / 360.0).Floor;
    var around := (mountAzimuth / 360.0).Floor;
    var back := s * Mod360(x) + m.azimuthOffset;
    if m.azimuthSign == 1 {
      assert back == Mod360(mountAzimuth) + 360.0 * (around - turns) as real;
      Mod360Unique(back, around - turns, Mod360(mountAzimuth));
    } else {
      assert back == Mod360(mountAzimuth) + 360.0 * (around + turns) as real;
      Mod360Unique(back, around + turns, Mod360(mountAzimuth));
    }
  }

  // ------------------------------------------------------------------
  // One axis, one tick
  // ------------------------------------------------------------------

  function Clamp(rate: real): real {
    if rate > MAX_RATE_DEGREES_PER_SECOND then MAX_RATE_DEGREES_PER_SECOND
    else if rate < -MAX_RATE_DEGREES_PER_SECOND then -MAX_RATE_DEGREES_PER_SECOND
    else rate
  }

  /** Quarter arcseconds a second, truncated, in sixteen bits. */
  function WireValue(rate: real): int {
    var value := (Abs(rate) * 3600.0 * 4.0).Floor;
    if value < 65535 then value else 65535
  }

  /** The rate the wire value stands for. */
  function Driven(rate: real): real {
    if rate >= 0.0 then WireValue(rate) as real / 14400.0 else -(WireValue(rate) as real / 14400.0)
  }

  function Travel(error: real): real {
    Driven(Clamp(GAIN_PER_SECOND * error)) * TICK_SECONDS
  }

  /** The error after a tick. */
  function Next(error: real): real { error - Travel(error) }

  /** No commanded rate saturates the wire's sixteen bits. */
  lemma WireNeverSaturates(rate: real)
    ensures 0 <= WireValue(Clamp(rate)) <= 57600 < 65535
  {
  }

  /** An error shrinks towards nothing: it never grows and never changes sign, a degree a
      tick while it is large and by nearly three tenths of itself after that. */
  lemma OneTick(error: real)
    ensures error >= 0.0 ==> 0.0 <= Next(error) <= error
    ensures error <= 0.0 ==> error <= Next(error) <= 0.0
    ensures Abs(Next(error)) <= Abs(error)
    ensures Abs(error) >= 10.0 / 3.0 ==> Abs(Next(error)) == Abs(error) - 1.0
    ensures ARRIVED_DEGREES <= Abs(error) < 10.0 / 3.0 ==> Abs(Next(error)) < 0.71 * Abs(error)
  {
    var a := Abs(error);
    var rate := Clamp(GAIN_PER_SECOND * error);
    var units := Abs(rate) * 14400.0;
    assert Abs(rate) * 3600.0 * 4.0 == units;
    if a >= 10.0 / 3.0 {
      assert Abs(rate) == 4.0;
      assert units == 57600.0;
      assert WireValue(rate) == 57600;
    } else {
      assert units == 17280.0 * a < 57600.0;
      var v := WireValue(rate);
      assert v as real <= units < v as real + 1.0;
      assert Abs(Travel(error)) == v as real / 57600.0;
    }
  }

  /** The smallest error the wire has a rate for, and what a tick at that rate leaves of it. */
  const LEAST_DRIVEN := 1.0 / 17280.0
  const LEAST_LEFT := 7.0 / 172800.0

  /** An error is left alone, or at least this much of it is. */
  lemma LeavesSome(error: real)
    ensures Abs(error) < LEAST_DRIVEN ==> Travel(error) == 0.0
    ensures Abs(error) >= LEAST_DRIVEN ==> Abs(Next(error)) >= LEAST_LEFT && Abs(Travel(error)) >= 1.0 / 57600.0
    ensures error == LEAST_DRIVEN ==> Next(error) == LEAST_LEFT
    ensures error == -LEAST_DRIVEN ==> Next(error) == -LEAST_LEFT
  {
    OneTick(error);
    var a := Abs(error);
    var rate := Clamp(GAIN_PER_SECOND * error);
    assert Abs(rate) * 3600.0 * 4.0 == Abs(rate) * 14400.0;
    if a < 10.0 / 3.0 {
      assert Abs(rate) * 14400.0 == 17280.0 * a;
      var v := WireValue(rate);
      assert v as real <= 17280.0 * a < v as real + 1.0;
      assert Abs(Travel(error)) == v as real / 57600.0;
    } else {
      assert WireValue(rate) == 57600;
    }
  }

  // ------------------------------------------------------------------
  // How many ticks
  // ------------------------------------------------------------------

  function Pow14(n: nat): (r: real)
    ensures r >= 1.0
  {
    if n == 0 then 1.0 else 1.4 * Pow14(n - 1)
  }

  const SLOW_TICKS := 20

  lemma Pow14Enough()
    ensures ARRIVED_DEGREES * Pow14(SLOW_TICKS) > 10.0 / 3.0
  {
    assert Pow14(5) == 5.37824;
    assert Pow14(10) == 5.37824 * 5.37824 by {
      assert Pow14(6) == 1.4 * 5.37824;
      assert Pow14(7) == 1.96 * 5.37824;
      assert Pow14(8) == 2.744 * 5.37824;
      assert Pow14(9) == 3.8416 * 5.37824;
    }
    assert Pow14(10) > 28.9;
    assert Pow14(11) > 40.4;
    assert Pow14(12) > 56.5;
    assert Pow14(13) > 79.1;
    assert Pow14(14) > 110.7;
    assert Pow14(15) > 154.9;
    assert Pow14(16) > 216.8;
    assert Pow14(17) > 303.5;
    assert Pow14(18) > 424.9;
    assert Pow14(19) > 594.8;
    assert Pow14(20) > 832.7;
  }

  /** An error this small is gone within `n` ticks. */
  predicate Within(n: nat, a: real) {
    if n <= SLOW_TICKS then a < ARRIVED_DEGREES * Pow14(n) && a < 10.0 / 3.0 else a < 10.0 / 3.0 + (n - SLOW_TICKS) as real
  }

  lemma TickCloser(n: nat, error: real)
    requires n > 0 && Within(n, Abs(error))
    ensures Within(n - 1, Abs(Next(error)))
  {
    OneTick(error);
    Pow14Enough();
    var a := Abs(error);
    if n <= SLOW_TICKS && a >= ARRIVED_DEGREES {
      assert Abs(Next(error)) < 0.71 * (ARRIVED_DEGREES * (1.4 * Pow14(n - 1)));
    }
  }

  // ------------------------------------------------------------------
  // Both axes
  // ------------------------------------------------------------------

  /** Axis readings: azimuth in one turn, altitude either side of level. */
  datatype Axes = Axes(azimuth: real, altitude: real)

  predicate AxesOk(x: Axes) { 0.0 <= x.azimuth < 360.0 && -180.0 <= x.altitude < 180.0 }

  /** Where the mount is sent, and the weight of azimuth in the reported error. */
  datatype Goal = Goal(azimuth: real, altitude: real, weight: real)

  /** A goal altitude the axis can read, or so little beyond it that no rate leads across. */
  predicate Reachable(g: Goal) { -180.0 - LEAST_LEFT <= g.altitude < 180.0 + LEAST_LEFT }

  /** One so far beyond that no reading is on it. */
  predicate Unreadable(g: Goal) { g.altitude >= 180.0 + ARRIVED_DEGREES || g.altitude <= -180.0 - ARRIVED_DEGREES }

  function AzimuthError(g: Goal, x: Axes): real { Wrap180(g.azimuth - x.azimuth) }
  function AltitudeError(g: Goal, x: Axes): real { g.altitude - x.altitude }
  function Largest(g: Goal, x: Axes): real { Max(Abs(AzimuthError(g, x)), Abs(AltitudeError(g, x))) }

  /** The axes a tick later, each at the rate its error commands. */
  function Moved(g: Goal, x: Axes): (r: Axes)
    ensures AxesOk(r)
  {
    Axes(Mod360(x.azimuth + Travel(AzimuthError(g, x))), Wrap180(x.altitude + Travel(AltitudeError(g, x))))
  }

  /** Neither axis passes its goal or wraps: each error is just one tick older. */
  lemma ErrorsAge(g: Goal, x: Axes)
    requires AxesOk(x) && Reachable(g)
    ensures AzimuthError(g, Moved(g, x)) == Next(AzimuthError(g, x))
    ensures AltitudeError(g, Moved(g, x)) == Next(AltitudeError(g, x))
  {
    var e := AzimuthError(g, x);
    OneTick(e);
    var there := x.azimuth + Travel(e);
    var turns := (there / 360.0).Floor;
    var around := ((g.azimuth - x.azimuth + 180.0) / 360.0).Floor;
    assert g.azimuth - Mod360(there) == Next(e) + 360.0 * (around + turns) as real;
    Wrap180Unique(g.azimuth - Mod360(there), around + turns, Next(e));

    AltitudeAges(g, x);
  }

  lemma AltitudeAges(g: Goal, x: Axes)
    requires AxesOk(x) && Reachable(g)
    ensures AltitudeError(g, Moved(g, x)) == Next(AltitudeError(g, x))
  {
    var up := AltitudeError(g, x);
    OneTick(up);
    LeavesSome(up);
    Wrap180Unique(x.altitude + Travel(up), 0, x.altitude + Travel(up));
  }

  /** From this start the altitude error is a tick older, and has not jumped by a turn. */
  ghost predicate Ages(g: Goal, x: Axes) {
    AltitudeError(g, Moved(g, x)) == Next(AltitudeError(g, x))
  }

  /** Exactly the reachable goals are approached from every start: for any other there is a
      start whose next tick takes the altitude across the end of its readings. */
  lemma AgesExactly(g: Goal)
    ensures Reachable(g) <==> forall x :: AxesOk(x) ==> Ages(g, x)
  {
    if Reachable(g) {
      forall x | AxesOk(x) ensures Ages(g, x) {
        AltitudeAges(g, x);
      }
    } else {
      var x := CrossingStart(g);
    }
  }

  lemma CrossingStart(g: Goal) returns (x: Axes)
    requires !Reachable(g)
    ensures AxesOk(x) && !Ages(g, x)
  {
    var beyond := if g.altitude > 0.0 then g.altitude - 180.0 else -180.0 - g.altitude;
    if g.altitude > 0.0 {
      x := Axes(0.0, if beyond < LEAST_DRIVEN then g.altitude - LEAST_DRIVEN else 180.0 - 1.0 / 57600.0);
    } else {
      x := Axes(0.0, if beyond <= LEAST_DRIVEN then g.altitude + LEAST_DRIVEN else -180.0);
    }
    var e := AltitudeError(g, x);
    LeavesSome(e);
    OneTick(e);
    var there := x.altitude + Travel(e);
    TravelAtMostOne(e);
    if g.altitude > 0.0 {
      Wrap180Unique(there, 1, there - 360.0);
    } else {
      Wrap180Unique(there, -1, there + 360.0);
    }
  }

  lemma TravelAtMostOne(error: real)
    ensures -1.0 <= Travel(error) <= 1.0
  {
    WireNeverSaturates(GAIN_PER_SECOND * error);
  }

  predicate BothWithin(n: nat, g: Goal, x: Axes) {
    Within(n, Abs(AzimuthError(g, x))) && Within(n, Abs(AltitudeError(g, x)))
  }

  /** From any start to any readable goal: well inside the park timeout. */
  lemma FromAnywhere(g: Goal, x: Axes)
    requires AxesOk(x) && Reachable(g)
    ensures BothWithin(377, g, x)
  {
  }

  lemma BothCloser(n: nat, g: Goal, x: Axes)
    requires n > 0 && AxesOk(x) && Reachable(g) && BothWithin(n, g, x)
    ensures BothWithin(n - 1, g, Moved(g, x))
  {
    ErrorsAge(g, x);
    TickCloser(n, AzimuthError(g, x));
    TickCloser(n, AltitudeError(g, x));
  }

  function After(g: Goal, x: Axes, ticks: nat): (r: Axes)
    requires AxesOk(x)
    ensures AxesOk(r)
    decreases ticks
  {
    if ticks == 0 then x else After(g, Moved(g, x), ticks - 1)
  }

  /** Every slew and every park arrives: within 377 ticks, of the park timeout's 720, both
      axes are on the goal. */
  lemma {:induction false} Converges(g: Goal, x: Axes, ticks: nat)
    requires AxesOk(x) && Reachable(g) && BothWithin(ticks, g, x)
    ensures Largest(g, After(g, x, ticks)) < ARRIVED_DEGREES
    decreases ticks
  {
    if ticks > 0 {
      BothCloser(ticks, g, x);
      Converges(g, Moved(g, x), ticks - 1);
    }
  }

  lemma ArrivesInTime(g: Goal, x: Axes)
    requires AxesOk(x) && Reachable(g)
    ensures Largest(g, After(g, x, 377)) < ARRIVED_DEGREES && 377 < PARK_TICKS
  {
    FromAnywhere(g, x);
    Converges(g, x, 377);
  }

  /** No reading is on an unreadable goal. */
  lemma UnreadableNeverArrives(g: Goal, x: Axes)
    requires AxesOk(x) && Unreadable(g)
    ensures Largest(g, x) >= Abs(AltitudeError(g, x)) >= ARRIVED_DEGREES
  {
  }

  /** Between the two it is the start that decides: one is on the goal already, another is
      taken across. */
  lemma BetweenDependsOnStart(g: Goal)
    requires !Reachable(g) && !Unreadable(g)
    ensures exists x :: AxesOk(x) && Largest(g, x) < ARRIVED_DEGREES
    ensures exists x :: AxesOk(x) && !Ages(g, x)
  {
    var beyond := if g.altitude > 0.0 then g.altitude - 180.0 else -180.0 - g.altitude;
    var room := (ARRIVED_DEGREES - beyond) / 2.0;
    var x := Axes(Mod360(g.azimuth), if g.altitude > 0.0 then 180.0 - room else -180.0 + room);
    Wrap180Unique(g.azimuth - x.azimuth, (g.azimuth / 360.0).Floor, 0.0);
    assert AxesOk(x) && Largest(g, x) < ARRIVED_DEGREES;
    var y := CrossingStart(g);
    assert AxesOk(y) && !Ages(g, y);
  }

  function Pow71(n: nat): (r: real)
    ensures 0.0 < r <= 1.0
  {
    if n == 0 then 1.0 else 0.71 * Pow71(n - 1)
  }

  lemma {:induction false} Pow71Small(n: nat)
    requires n >= 6
    ensures SETTLED_DEGREES * Pow71(n) < ARRIVED_DEGREES
  {
    if n == 6 {
      assert Pow71(1) == 0.71 && Pow71(2) == 0.5041 && Pow71(3) == 0.357911;
      assert Pow71(6) == 0.71 * (0.71 * (0.71 * Pow71(3)));
    } else {
      Pow71Small(n - 1);
    }
  }

  /** How small the altitude error is after so many readings near the goal, unless it has
      since gone across. */
  predicate Hovers(near: nat, e: real) {
    near > 0 ==> e < SETTLED_DEGREES * Pow71(near) || e >= SETTLED_DEGREES
  }

  /** Near an unreadable goal the error shrinks too fast to settle there: six readings and it
      has to have gone across. */
  lemma HoversOn(g: Goal, x: Axes, near: nat)
    requires AxesOk(x) && Unreadable(g) && Hovers(near, Abs(AltitudeError(g, x))) && Abs(AltitudeError(g, x)) < SETTLED_DEGREES
    ensures near < 6 && Hovers(near + 1, Abs(AltitudeError(g, Moved(g, x))))
  {
    var e := AltitudeError(g, x);
    OneTick(e);
    assert Abs(e) < SETTLED_DEGREES * Pow71(near);
    if near >= 6 {
      Pow71Small(near);
    }
    assert Abs(Next(e)) < SETTLED_DEGREES * (0.71 * Pow71(near));
    var there := x.altitude + Travel(e);
    if there >= 180.0 {
      Wrap180Unique(there, 1, there - 360.0);
    } else if there < -180.0 {
      Wrap180Unique(there, -1, there + 360.0);
    } else {
      Wrap180Unique(there, 0, there);
    }
  }

  function NearTicks(g: Goal, x: Axes, before: nat): nat { if Largest(g, x) < SETTLED_DEGREES then before + 1 else 0 }

  lemma NeverSettles(g: Goal, x: Axes, before: nat)
    requires AxesOk(x) && Unreadable(g) && Hovers(before, Abs(AltitudeError(g, x)))
    ensures Largest(g, x) >= ARRIVED_DEGREES && NearTicks(g, x, before) < SETTLED_TICKS
    ensures Hovers(NearTicks(g, x, before), Abs(AltitudeError(g, Moved(g, x))))
  {
    UnreadableNeverArrives(g, x);
    if Largest(g, x) < SETTLED_DEGREES {
      HoversOn(g, x, before);
    }
  }

  // ------------------------------------------------------------------
  // The reported error
  // ------------------------------------------------------------------

  /** `h(x, w, y)` is the hypotenuse of `x` weighted by `w`, and `y`. */
  ghost predicate IsHypot(h: (real, real, real) -> real) {
    forall x, w, y :: h(x, w, y) >= 0.0 && h(x, w, y) * h(x, w, y) == (x * w) * (x * w) + y * y
  }

  lemma SquareOfAbs(x: real)
    ensures x * x == Abs(x) * Abs(x)
  {
  }

  lemma ProductNonnegative(x: real, y: real)
    requires x >= 0.0 && y >= 0.0
    ensures x * y >= 0.0
  {
  }

  lemma DifferenceOfSquares(a: real, b: real)
    ensures (b - a) * (b + a) == b * b - a * a
  {
  }

  lemma SquareMonotone(x: real, y: real)
    requires Abs(x) <= Abs(y)
    ensures x * x <= y * y
  {
    SquareOfAbs(x);
    SquareOfAbs(y);
    var (a, b) := (Abs(x), Abs(y));
    ProductNonnegative(b - a, b + a);
    DifferenceOfSquares(a, b);
  }

  lemma ProductPositive(x: real, y: real)
    requires x > 0.0 && y > 0.0
    ensures x * y > 0.0
  {
  }

  lemma SquareRootMonotone(p: real, q: real)
    requires p >= 0.0 && q >= 0.0 && p * p <= q * q
    ensures p <= q
  {
    if p > q {
      ProductPositive(p - q, p + q);
    }
  }

  lemma SumsOfSquares(p: real, q: real, x: real, y: real, u: real, v: real)
    requires p >= 0.0 && q >= 0.0 && p * p == x + y && q * q == u + v && x <= u && y <= v
    ensures p <= q
  {
    SquareRootMonotone(p, q);
  }

  /** The error is no larger when neither part of it is. */
  ghost predicate Monotone(h: (real, real, real) -> real) {
    forall x, y, w, u, v :: Abs(x) <= Abs(u) && Abs(y) <= Abs(v) ==> h(x, w, y) <= h(u, w, v)
  }

  lemma HypotIsMonotone(h: (real, real, real) -> real)
    requires IsHypot(h)
    ensures Monotone(h)
  {
    forall x, y, w, u, v | Abs(x) <= Abs(u) && Abs(y) <= Abs(v) ensures h(x, w, y) <= h(u, w, v) {
      HypotAt(h(x, w, y), h(u, w, v), x, y, w, u, v);
    }
  }

  lemma HypotAt(p: real, q: real, x: real, y: real, w: real, u: real, v: real)
    requires Abs(x) <= Abs(u) && Abs(y) <= Abs(v)
    requires p >= 0.0 && p * p == (x * w) * (x * w) + y * y
    requires q >= 0.0 && q * q == (u * w) * (u * w) + v * v
    ensures p <= q
  {
    Weighted(x, u, w);
    SquareMonotone(y, v);
    SumsOfSquares(p, q, (x * w) * (x * w), y * y, (u * w) * (u * w), v * v);
  }

  lemma Weighted(x: real, y: real, w: real)
    requires Abs(x) <= Abs(y)
    ensures (x * w) * (x * w) <= (y * w) * (y * w)
  {
    SquareMonotone(x, y);
    assert (x * w) * (x * w) == (x * x) * (w * w);
    assert (y * w) * (y * w) == (y * y) * (w * w);
    assert w * w >= 0.0;
  }

  function Reported(h: (real, real, real) -> real, g: Goal, x: Axes): real {
    h(AzimuthError(g, x), g.weight, AltitudeError(g, x))
  }

  /** Whatever the weight, the reported error does not grow from one tick to the next. */
  lemma ReportedNeverGrows(h: (real, real, real) -> real, g: Goal, x: Axes)
    requires Monotone(h) && AxesOk(x) && Reachable(g)
    ensures Reported(h, g, Moved(g, x)) <= Reported(h, g, x)
  {
    BothShrink(g, x);
  }

  lemma BothShrink(g: Goal, x: Axes)
    requires AxesOk(x) && Reachable(g)
    ensures Abs(AzimuthError(g, Moved(g, x))) <= Abs(AzimuthError(g, x))
    ensures Abs(AltitudeError(g, Moved(g, x))) <= Abs(AltitudeError(g, x))
  {
    ErrorsAge(g, x);
    OneTick(AzimuthError(g, x));
    OneTick(AltitudeError(g, x));
  }

  /** How many readings running, up to the last, were near the goal. */
  function NearRun(g: Goal, seen: seq<Axes>): nat {
    if seen == [] || Largest(g, seen[|seen| - 1]) >= SETTLED_DEGREES then 0 else NearRun(g, seen[..|seen| - 1]) + 1
  }

  lemma NearRunPush(g: Goal, seen: seq<Axes>, x: Axes)
    ensures NearRun(g, seen + [x]) == NearTicks(g, x, NearRun(g, seen))
  {
    assert (seen + [x])[..|seen|] == seen;
  }

  /** The errors kept are those of the last twelve readings. */
  ghost predicate ErrorsKept(h: (real, real, real) -> real, g: Goal, seen: seq<Axes>, errors: seq<real>) {
    && |errors| == (if |seen| < RUNAWAY_TICKS then |seen| else RUNAWAY_TICKS)
    && forall i :: 0 <= i < |errors| ==> errors[i] == Reported(h, g, seen[|seen| - |errors| + i])
  }

  lemma ErrorsPush(h: (real, real, real) -> real, g: Goal, seen: seq<Axes>, errors: seq<real>, x: Axes)
    requires ErrorsKept(h, g, seen, errors)
    ensures ErrorsKept(h, g, seen + [x], KeptErrors(errors, Reported(h, g, x)))
  {
  }

  /** A runaway: a degree worse than twelve readings before. */
  predicate RunsAway(h: (real, real, real) -> real, g: Goal, seen: seq<Axes>, x: Axes) {
    |seen| >= 12 && Reported(h, g, x) > Reported(h, g, seen[|seen| - 12]) + 1.0
  }

  lemma RunawayKept(h: (real, real, real) -> real, g: Goal, seen: seq<Axes>, errors: seq<real>, x: Axes)
    requires ErrorsKept(h, g, seen, errors)
    ensures |errors| == RUNAWAY_TICKS && Reported(h, g, x) > errors[0] + RUNAWAY_DEGREES <==> RunsAway(h, g, seen, x)
  {
  }

  /** The errors kept, and one more. */
  function KeptErrors(errors: seq<real>, error: real): seq<real> {
    (if |errors| == RUNAWAY_TICKS then errors[1..] else errors) + [error]
  }

  ghost predicate NoneBelow(errors: seq<real>, error: real) {
    forall i :: 0 <= i < |errors| ==> errors[i] >= error
  }

  lemma NoneBelowOn(errors: seq<real>, error: real, after: real)
    requires NoneBelow(errors, error) && after <= error
    ensures NoneBelow(KeptErrors(errors, error), after)
  {
  }

  /** What holds of a motion between its readings. */
  ghost predicate MotionOk(h: (real, real, real) -> real, g: Goal, x: Axes, errors: seq<real>, near: nat) {
    && (Reachable(g) ==> NoneBelow(errors, Reported(h, g, x)))
    && (Unreadable(g) ==> Hovers(near, Abs(AltitudeError(g, x))))
  }

  lemma MotionGoesOn(h: (real, real, real) -> real, g: Goal, x: Axes, errors: seq<real>, near: nat)
    requires Monotone(h) && AxesOk(x) && MotionOk(h, g, x, errors, near)
    ensures MotionOk(h, g, Moved(g, x), KeptErrors(errors, Reported(h, g, x)), NearTicks(g, x, near))
    ensures Unreadable(g) ==> Largest(g, x) >= ARRIVED_DEGREES && NearTicks(g, x, near) < SETTLED_TICKS
  {
    if Reachable(g) {
      ReportedNeverGrows(h, g, x);
      NoneBelowOn(errors, Reported(h, g, x), Reported(h, g, Moved(g, x)));
    }
    if Unreadable(g) {
      NeverSettles(g, x, near);
    }
  }

  // ------------------------------------------------------------------
  // The mount
  // ------------------------------------------------------------------

  datatype Motion = Idle | Slewing | Parking | Parked | Tracking

  class NexStarMount {
    const hypot: (real, real, real) -> real
    /** The plant. */
    var axes: Axes
    var motion: Motion
    var goal: Goal
    var tracking: bool
    var errors: seq<real>
    var nearTicks: nat
    var fault: bool
    /** Where the axes were at each reading of the motion. */
    ghost var seen: seq<Axes>

    ghost predicate Valid()
      reads this
    {
      && Monotone(hypot) && AxesOk(axes)
      && ErrorsKept(hypot, goal, seen, errors) && nearTicks == NearRun(goal, seen)
      && (motion in {Slewing, Parking} ==> MotionOk(hypot, goal, axes, errors, nearTicks))
    }

    constructor (hypot: (real, real, real) -> real, axes: Axes)
      requires IsHypot(hypot) && AxesOk(axes)
      ensures Valid() && motion == Idle && !fault && this.hypot == hypot && this.axes == axes
    {
      this.hypot, this.axes, motion, tracking, fault := hypot, axes, Idle, false, false;
      goal, errors, nearTicks, seen := Goal(0.0, 0.0, 1.0), [], 0, [];
      HypotIsMonotone(hypot);
    }

    /** Start a motion: the error history and the settling count begin again. */
    method Begin(motion: Motion, goal: Goal)
      requires Valid() && motion in {Slewing, Parking}
      modifies this
      ensures Valid() && this.motion == motion && this.goal == goal && axes == old(axes)
      ensures errors == [] && nearTicks == 0 && seen == [] && fault == old(fault) && tracking == old(tracking)
    {
      this.motion, this.goal, errors, nearTicks, seen := motion, goal, [], 0, [];
    }

    /** One control step: a fault exactly on a runaway; arrived exactly when on the goal or near
        it for twelve readings running; and else rates are commanded for the tick, over which the
        axes move. The runaway guard does not fire for a readable goal. */
    method Step()
      requires Valid() && motion in {Slewing, Parking} && !fault
      modifies this
      ensures Valid() && goal == old(goal) && tracking == old(tracking)
      ensures fault <==> RunsAway(hypot, goal, old(seen), old(axes))
      ensures !fault ==> seen == old(seen) + [old(axes)]
      ensures !fault ==> (motion != old(motion) <==> Largest(goal, old(axes)) < ARRIVED_DEGREES || NearRun(goal, seen) >= 12)
      ensures old(Largest(goal, axes)) < ARRIVED_DEGREES && old(Reachable(goal)) ==> motion !in {Slewing, Parking}
      ensures motion == old(motion) && !fault ==> axes == Moved(goal, old(axes)) && Largest(goal, old(axes)) >= ARRIVED_DEGREES
      ensures motion != old(motion) && !fault ==>
                && axes == old(axes) && Largest(goal, axes) < SETTLED_DEGREES
                && motion == if old(motion) == Parking then Parked else if tracking then Tracking else Idle
      ensures Reachable(goal) ==> !fault
      ensures Unreadable(goal) ==> fault || motion == old(motion)
      ensures fault ==> motion == Idle && axes == old(axes)
    {
      var error := Reported(hypot, goal, axes);
      RunawayKept(hypot, goal, seen, errors, axes);
      if |errors| == RUNAWAY_TICKS && error > errors[0] + RUNAWAY_DEGREES {
        fault, motion := true, Idle;
        return;
      }
      MotionGoesOn(hypot, goal, axes, errors, nearTicks);
      ErrorsPush(hypot, goal, seen, errors, axes);
      NearRunPush(goal, seen, axes);
      errors, nearTicks, seen := KeptErrors(errors, error), NearTicks(goal, axes, nearTicks), seen + [axes];
      if Largest(goal, axes) < ARRIVED_DEGREES || nearTicks >= SETTLED_TICKS {
        motion := if motion == Parking then Parked else if tracking then Tracking else Idle;
        return;
      }
      axes := Moved(goal, axes);
    }

    /** A park drops whatever was going on. To a reachable position it succeeds from any start,
        before the timeout; to an unreadable one it fails, on a runaway or the timeout. */
    method Park(target: Goal) returns (ok: bool, ticks: nat)
      requires Valid()
      modifies this
      ensures Valid() && ticks <= PARK_TICKS + 1 && (ok <==> !fault)
      ensures ok ==> motion == Parked && Largest(target, axes) < SETTLED_DEGREES
      ensures Reachable(target) ==> ok && ticks <= 377
      ensures Unreadable(target) ==> !ok
    {
      fault, tracking := false, false;
      Begin(Parking, target);
      ghost var left: nat := 377;
      if Reachable(target) {
        FromAnywhere(goal, axes);
      }
      ticks := 0;
      while true
        invariant Valid() && motion == Parking && !fault && goal == target && !tracking
        invariant ticks <= PARK_TICKS
        invariant Reachable(target) ==> BothWithin(left, goal, axes) && ticks + left == 377
        decreases PARK_TICKS - ticks
      {
        if Reachable(target) && left > 0 {
          BothCloser(left, goal, axes);
        }
        Step();
        if motion == Parked { return true, ticks; }
        if fault { return false, ticks; }
        ticks := ticks + 1;
        if ticks as real * TICK_SECONDS > PARK_TIMEOUT_SECONDS {
          fault, motion := true, Idle;
          return false, ticks;
        }
        left := if left > 0 then left - 1 else 0;
      }
    }
  }
}
