/** Escape velocity (`CalculateEscapeVelocity`) and the surface-departure
    profile under the rocket's constant acceleration
    (`LeaveTimeAndDistanceTraveled`). */
module Physics {
  import opened Numerics
  import opened Planets

  /** The gravitational constant, `6.67f * 10^-11`. */
  const G: real := 0.0000000000667
  /** The rocket's acceleration in m/s^2, `4 * 10` (four engines of 10 m/s^2). */
  const Acceleration: real := 40.0

  /** The mass in kilograms: fixed for the reference body, the mass factor
      times Earth's mass for the others. */
  function EffectiveMass(name: string, mass: real): (kg: real)
    ensures name == ReferenceName ==> kg == EarthMass
    ensures name != ReferenceName ==> kg / EarthMass == mass
  {
    if name == ReferenceName then EarthMass else mass * EarthMass
  }

  /** `(diameter / 2) * 1000` in 32-bit integer arithmetic: the radius in
      metres of a diameter in kilometres, an odd kilometre dropped, exact as
      long as the product fits in an `int`. */
  function RadiusMeters(diameter: int32): (r: int32)
    ensures 0 <= diameter <= 4294967 ==> 0 <= r && 500 * diameter as int - 500 <= r as int <= 500 * diameter as int
    ensures 0 <= diameter <= 4294967 ==> r as int == 1000 * (diameter as int / 2)
  {
    Wrap32(Half(diameter as int) * 1000)
  }

  /** Past 4294967 km the product no longer fits and the radius wraps negative. */
  lemma RadiusWrapsPastLimit()
    ensures RadiusMeters(4294967) == 2147483000
    ensures RadiusMeters(4294968) == -2147483296
    ensures RadiusMeters(1073741824) == 0 && RadiusMeters(-1073741825) == 0
    ensures RadiusMeters(-2) == -1000
    ensures RadiusMeters(-0x8000_0000) == 0
  {
  }

  /** `sqrt(2 G M / r)`. A zero radius (a division by zero in the source:
      diameters of -1, 0 and 1 km, and those whose product wraps to 0:
      ±1073741824, ±1073741825 and -2147483648 km) is excluded. The result
      balances kinetic against potential energy per unit mass:
      `v^2 / 2 == G M / r`. */
  function EscapeVelocity(m: MathLib, name: string, diameter: int32, mass: real): (v: real)
    requires RadiusMeters(diameter) != 0
    ensures m.Sound() && 0 < RadiusMeters(diameter) && 0.0 <= EffectiveMass(name, mass) ==>
              0.0 <= v && v * v / 2.0 == G * EffectiveMass(name, mass) / RadiusMeters(diameter) as real
  {
    var x := (2.0 * G * EffectiveMass(name, mass)) / RadiusMeters(diameter) as real;
    assert 0 < RadiusMeters(diameter) && 0.0 <= EffectiveMass(name, mass) ==> 0.0 <= x by {
      if 0 < RadiusMeters(diameter) && 0.0 <= EffectiveMass(name, mass) {
        ProductNonNegative(2.0 * G, EffectiveMass(name, mass));
        DivideNonNegative(2.0 * G * EffectiveMass(name, mass), RadiusMeters(diameter) as real);
      }
    }
    assert m.Sound() && 0 < RadiusMeters(diameter) && 0.0 <= EffectiveMass(name, mass) ==>
             m.sqrt(x) * m.sqrt(x) / 2.0 == G * EffectiveMass(name, mass) / RadiusMeters(diameter) as real by {
      if m.Sound() && 0 < RadiusMeters(diameter) && 0.0 <= EffectiveMass(name, mass) {
        assert m.sqrt(x) * m.sqrt(x) == x;
        HalfOfQuotient(G * EffectiveMass(name, mass), RadiusMeters(diameter) as real);
      }
    }
    m.sqrt(x)
  }

  lemma HalfOfQuotient(a: real, r: real)
    requires r != 0.0
    ensures (2.0 * a) / r / 2.0 == a / r
  {
  }

  /** Writes every planet's escape velocity from its name, diameter and
      mass, leaving every other field as it was. */
  method CalculateEscapeVelocity(m: MathLib, planets: seq<Planet>) returns (result: seq<Planet>)
    requires forall k :: 0 <= k < |planets| ==> RadiusMeters(planets[k].diameter) != 0
    modifies planets
    ensures result == planets
    ensures forall k :: 0 <= k < |planets| ==>
              var p := planets[k];
              && p.Static() == old(p.Static()).(escapeVelocity := p.escapeVelocity)
              && p.angularPosition == old(p.angularPosition)
              && p.escapeVelocity == EscapeVelocity(m, p.planetName, p.diameter, p.mass)
  {
    var i := 0;
    while i < |planets|
      invariant 0 <= i <= |planets|
      invariant forall k :: 0 <= k < |planets| ==>
                  var p := planets[k];
                  && p.Static() == old(p.Static()).(escapeVelocity := p.escapeVelocity)
                  && p.angularPosition == old(p.angularPosition)
      invariant forall k :: 0 <= k < i ==>
                  var p := planets[k];
                  p.escapeVelocity == EscapeVelocity(m, p.planetName, p.diameter, p.mass)
    {
      var item := planets[i];
      var effectiveMass := if item.planetName == ReferenceName then EarthMass else item.mass * EarthMass;
      var radius := RadiusMeters(item.diameter) as real;
      item.escapeVelocity := m.sqrt((2.0 * G * effectiveMass) / radius);
      i := i + 1;
    }
    result := planets;
  }

  /** Escape velocity grows with the mass factor. */
  lemma EscapeVelocityMonotoneInMass(m: MathLib, name: string, diameter: int32, mass1: real, mass2: real)
    requires m.Sound()
    requires 2 <= diameter <= 4294967
    requires 0.0 <= mass1 <= mass2
    ensures EscapeVelocity(m, name, diameter, mass1) <= EscapeVelocity(m, name, diameter, mass2)
  {
    var r := RadiusMeters(diameter) as real;
    var k1, k2 := EffectiveMass(name, mass1), EffectiveMass(name, mass2);
    assert 0.0 <= k1 <= k2;
    assert 2.0 * G * k1 / r <= 2.0 * G * k2 / r by { DivideMonotone(2.0 * G * k1, 2.0 * G * k2, r); }
    ProductNonNegative(2.0 * G, k1);
    DivideNonNegative(2.0 * G * k1, r);
    SqrtMonotone(m, 2.0 * G * k1 / r, 2.0 * G * k2 / r);
  }

  /** Escape velocity shrinks as the diameter grows. */
  lemma EscapeVelocityAntitoneInDiameter(m: MathLib, name: string, diameter1: int32, diameter2: int32, mass: real)
    requires m.Sound()
    requires 2 <= diameter1 <= diameter2 <= 4294967
    requires 0.0 <= EffectiveMass(name, mass)
    ensures EscapeVelocity(m, name, diameter2, mass) <= EscapeVelocity(m, name, diameter1, mass)
  {
    var r1, r2 := RadiusMeters(diameter1) as real, RadiusMeters(diameter2) as real;
    assert r1 <= r2 by {
      assert Half(diameter1 as int) <= Half(diameter2 as int);
    }
    var e := 2.0 * G * EffectiveMass(name, mass);
    ProductNonNegative(2.0 * G, EffectiveMass(name, mass));
    assert e / r2 <= e / r1 by { DivideAntitone(e, r1, r2); }
    DivideNonNegative(e, r2);
    SqrtMonotone(m, e / r2, e / r1);
  }

  lemma DivideMonotone(a: real, b: real, r: real)
    requires a <= b && 0.0 < r
    ensures a / r <= b / r
  {
    assert b / r - a / r == (b - a) / r;
  }

  lemma DivideAntitone(e: real, r1: real, r2: real)
    requires 0.0 <= e && 0.0 < r1 <= r2
    ensures e / r2 <= e / r1
  {
    assert e / r1 - e / r2 == e * (r2 - r1) / (r1 * r2);
    ProductNonNegative(e, r2 - r1);
    ProductPositive(r1, r2);
    DivideNonNegative(e * (r2 - r1), r1 * r2);
  }

  /** Earth, 12742 km across: within one percent of 11186 m/s. */
  lemma EarthScenario(m: MathLib, mass: real)
    requires m.Sound()
    ensures 11075.0 <= EscapeVelocity(m, ReferenceName, 12742, mass) <= 11297.0
  {
    assert RadiusMeters(12742) == 6371000;
    SqrtBetween(m, 2.0 * G * EarthMass / 6371000.0, 11075.0, 11297.0);
  }

  /** Mars, 6779 km across and 0.107 Earth masses: within one percent of 5027 m/s. */
  lemma MarsScenario(m: MathLib)
    requires m.Sound()
    ensures 4977.0 <= EscapeVelocity(m, "Mars:", 6779, 0.107) <= 5077.0
  {
    assert RadiusMeters(6779) == 3389000;
    SqrtBetween(m, 2.0 * G * (0.107 * EarthMass) / 3389000.0, 4977.0, 5077.0);
  }

  /** Time, distance from the surface and distance from the centre of a
      rocket leaving a planet. */
  datatype Departure = Departure(time: real, fromSurface: real, fromCenter: real)

  /** The numbers behind the departure report: accelerating from rest at
      `Acceleration` until the escape velocity is reached. The escape
      velocity is used as stored, zero when it was never computed. */
  function LeaveTimeAndDistanceTraveled(planet: Planet): (r: Departure)
    reads planet
    ensures r.time * Acceleration == planet.escapeVelocity
    ensures r.fromSurface == planet.escapeVelocity * planet.escapeVelocity / (2.0 * Acceleration)
    ensures r.fromCenter - r.fromSurface == Half(planet.diameter as int) as real * 1000.0
  {
    var time := planet.escapeVelocity / Acceleration;
    var fromSurface := Acceleration * (time * time) / 2.0;
    var fromCenter := Half(planet.diameter as int) as real * 1000.0 + fromSurface;
    Departure(time, fromSurface, fromCenter)
  }
}
