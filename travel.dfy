/** Point-to-point travel under the accelerate, cruise, decelerate rocket
    model (`TravelTime` and the numbers of `CalculateDistance`). */
module Travel {
  import opened Numerics
  import opened Planets
  import opened Geometry
  import opened Physics

  /** Metres in an astronomical unit. */
  const AU: real := 149597870700.0

  /** The higher of the two escape velocities, `p1`'s on a tie. */
  function MaxVelocity(v1: real, v2: real): real {
    if v1 >= v2 then v1 else v2
  }

  /** The lower of the two escape velocities, `p1`'s on a tie. */
  function MinVelocity(v1: real, v2: real): real {
    if v1 <= v2 then v1 else v2
  }

  /** Every number the travel computation produces. */
  datatype Profile = Profile(
    maxVelocity: real,
    minVelocity: real,
    accelerationTime: real,
    decelerationTime: real,
    accelerationDistance: real,
    decelerationDistance: real,
    cruiseDistance: real,
    totalTime: real)

  /** The journey over `distance` AU between bodies with escape velocities
      `v1` and `v2`: accelerate to the higher one, decelerate from the lower
      one, cruise in between. A zero top speed (a division by zero in the
      source) is excluded. Each phase obeys constant-acceleration kinematics
      (`v == a t`, `s == v^2 / 2a`); the cruise is what is left of the
      distance and is not clamped. */
  function TravelProfile(distance: real, v1: real, v2: real): (p: Profile)
    requires MaxVelocity(v1, v2) != 0.0
    ensures p.minVelocity <= p.maxVelocity
    ensures multiset{p.maxVelocity, p.minVelocity} == multiset{v1, v2}
    ensures p.accelerationTime * Acceleration == p.maxVelocity
    ensures p.decelerationTime * Acceleration == p.minVelocity
    ensures p.accelerationDistance == p.maxVelocity * p.maxVelocity / (2.0 * Acceleration)
    ensures p.decelerationDistance == p.minVelocity * p.minVelocity / (2.0 * Acceleration)
    ensures p.accelerationDistance + p.cruiseDistance + p.decelerationDistance == AU * distance
  {
    var maxVelocity := MaxVelocity(v1, v2);
    var minVelocity := MinVelocity(v1, v2);
    var accelerationTime := maxVelocity / Acceleration;
    var decelerationTime := minVelocity / Acceleration;
    var accelerationDistance := Acceleration * (accelerationTime * accelerationTime) / 2.0;
    var decelerationDistance := Acceleration * (decelerationTime * decelerationTime) / 2.0;
    var cruiseDistance := AU * distance - accelerationDistance - decelerationDistance;
    var totalTime := cruiseDistance / maxVelocity + accelerationTime + decelerationTime;
    Profile(maxVelocity, minVelocity, accelerationTime, decelerationTime,
            accelerationDistance, decelerationDistance, cruiseDistance, totalTime)
  }

  /** Total travel time in seconds: in closed form, the time to cover the
      whole distance at top speed plus a correction for the two phases. */
  function TravelTime(distance: real, v1: real, v2: real): (t: real)
    requires MaxVelocity(v1, v2) != 0.0
    ensures var hi, lo := MaxVelocity(v1, v2), MinVelocity(v1, v2);
            t == AU * distance / hi + (hi * hi + 2.0 * hi * lo - lo * lo) / (2.0 * Acceleration * hi)
  {
    var p := TravelProfile(distance, v1, v2);
    TravelTimeClosedForm(distance, v1, v2);
    p.totalTime
  }

  lemma TravelTimeClosedForm(distance: real, v1: real, v2: real)
    requires MaxVelocity(v1, v2) != 0.0
    ensures var p := TravelProfile(distance, v1, v2);
            var hi, lo := p.maxVelocity, p.minVelocity;
            p.totalTime == AU * distance / hi + (hi * hi + 2.0 * hi * lo - lo * lo) / (2.0 * Acceleration * hi)
  {
    var p := TravelProfile(distance, v1, v2);
    var hi, lo := p.maxVelocity, p.minVelocity;
    var phases := hi * hi / 80.0 + lo * lo / 80.0;
    assert p.cruiseDistance == AU * distance - phases;
    assert p.totalTime == (AU * distance - phases) / hi + hi / 40.0 + lo / 40.0;
    DivSplit(AU * distance, phases, hi);
    PhaseCorrection(hi, lo);
  }

  lemma DivSplit(a: real, b: real, c: real)
    requires c != 0.0
    ensures (a - b) / c == a / c - b / c
  {
  }

  lemma PhaseCorrection(hi: real, lo: real)
    requires hi != 0.0
    ensures -(hi * hi / 80.0 + lo * lo / 80.0) / hi + hi / 40.0 + lo / 40.0
            == (hi * hi + 2.0 * hi * lo - lo * lo) / (80.0 * hi)
  {
    var lhs := -(hi * hi / 80.0 + lo * lo / 80.0) / hi + hi / 40.0 + lo / 40.0;
    assert lhs * (80.0 * hi) == hi * hi + 2.0 * hi * lo - lo * lo;
  }

  /** The cruise is non-negative exactly when the distance covers both the
      acceleration and the deceleration phase. */
  lemma CruiseFeasibleIff(distance: real, v1: real, v2: real)
    requires MaxVelocity(v1, v2) != 0.0
    ensures var p := TravelProfile(distance, v1, v2);
            0.0 <= p.cruiseDistance <==> (v1 * v1 + v2 * v2) / (2.0 * Acceleration) <= AU * distance
  {
    var p := TravelProfile(distance, v1, v2);
    assert p.maxVelocity * p.maxVelocity + p.minVelocity * p.minVelocity == v1 * v1 + v2 * v2;
  }

  /** Two bodies at the same place with escape velocities of 40 m/s: the
      phases overrun the zero distance and the cruise is negative. */
  lemma NegativeCruiseScenario()
    ensures TravelProfile(0.0, 40.0, 40.0).cruiseDistance == -40.0
    ensures TravelTime(0.0, 40.0, 40.0) == 1.0
  {
  }

  /** With non-negative escape velocities the total time is never below the
      time to cover the distance at top speed, even when the cruise is
      negative. */
  lemma TravelTimeAtLeastCruising(distance: real, v1: real, v2: real)
    requires 0.0 <= v1 && 0.0 <= v2 && MaxVelocity(v1, v2) != 0.0
    ensures AU * distance / MaxVelocity(v1, v2) <= TravelTime(distance, v1, v2)
  {
    var hi, lo := MaxVelocity(v1, v2), MinVelocity(v1, v2);
    assert 0.0 <= lo <= hi && 0.0 < hi;
    assert 0.0 <= (hi - lo) * (hi + lo) by { ProductNonNegative(hi - lo, hi + lo); }
    ProductNonNegative(hi, lo);
    assert 0.0 <= hi * hi + 2.0 * hi * lo - lo * lo;
    DivideNonNegative(hi * hi + 2.0 * hi * lo - lo * lo, 2.0 * Acceleration * hi);
  }

  /** The numbers of the distance and travel-time report between two planets. */
  datatype Report = Report(distanceAu: real, distanceKm: real, profile: Profile)

  /** `CalculateDistance`: the current distance between the two planets and
      the journey over it. Its total time is `TravelTime` over the same
      distance, so the two source functions agree. */
  function CalculateDistance(m: MathLib, p1: Planet, p2: Planet): (r: Report)
    reads p1, p2
    requires MaxVelocity(p1.escapeVelocity, p2.escapeVelocity) != 0.0
    ensures r.distanceAu == Distance(m, p1.orbitalRadius, p1.angularPosition, p2.orbitalRadius, p2.angularPosition)
    ensures m.Sound() ==> 0.0 <= r.distanceAu
    ensures r.profile == TravelProfile(r.distanceAu, p1.escapeVelocity, p2.escapeVelocity)
    ensures r.distanceKm * 1000.0 == AU * r.distanceAu
    ensures r.profile.totalTime == TravelTime(r.distanceAu, p1.escapeVelocity, p2.escapeVelocity)
  {
    var distance := Distance(m, p1.orbitalRadius, p1.angularPosition, p2.orbitalRadius, p2.angularPosition);
    Report(distance, AU * distance / 1000.0, TravelProfile(distance, p1.escapeVelocity, p2.escapeVelocity))
  }
}
