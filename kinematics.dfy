/** Absolute angle updates of the whole catalog (`UpdateSolarSystem`,
    `SimulateSolarSystem`): every planet's angle is recomputed from a total
    elapsed time and its period, then written back to the first planet of
    the catalog that carries the same name (`List.Find`). */
module Kinematics {
  import opened Numerics
  import opened Wrappers
  import opened Planets

  /** `UpdateSolarSystem` counts days from a start 100 years in the past. */
  const Epoch: real := 36500.0

  /** `(2 * PI * t / period) * 180 / PI` degrees, reduced by `%` only when it
      is strictly above a full turn: it is the fraction `t / period` of a
      turn up to whole turns, and for a forward time it lies in [0, 360],
      a full turn of exactly 360 being kept. */
  function AbsoluteAngle(t: real, period: int32): (a: real)
    requires period != 0
    ensures WholeTurns(360.0 * t / period as real - a)
    ensures 0.0 <= t && 0 < period ==> 0.0 <= a <= 360.0
    ensures 0.0 <= t && 0 < period ==> (a == 360.0 <==> 360.0 * t / period as real == 360.0)
  {
    var raw := (2.0 * Pi * t / period as real) * 180.0 / Pi;
    AbsoluteAngleUnreduced(t, period);
    if raw > 360.0 then Fmod360(raw) else raw
  }

  /** The conversion through radians cancels: the unreduced angle is
      `360 * t / period`. */
  lemma AbsoluteAngleUnreduced(t: real, period: int32)
    requires period != 0
    ensures (2.0 * Pi * t / period as real) * 180.0 / Pi == 360.0 * t / period as real
  {
    calc {
      (2.0 * Pi * t / period as real) * 180.0 / Pi;
      { ScaleDiv(2.0 * Pi, t, period as real); }
      (2.0 * Pi * (t / period as real)) * 180.0 / Pi;
      (360.0 * (t / period as real)) * Pi / Pi;
      360.0 * (t / period as real);
      { ScaleDiv(360.0, t, period as real); }
      360.0 * t / period as real;
    }
  }

  /** Scaling the dividend scales the quotient. */
  lemma ScaleDiv(k: real, x: real, p: real)
    requires p != 0.0
    ensures k * x / p == k * (x / p)
  {
    var q := x / p;
    assert q * p == x;
    assert k * x == (k * q) * p;
  }

  /** A time that is a whole number of periods past the start lands on
      exactly 360 degrees, not 0. */
  lemma FullTurnIsKept()
    ensures AbsoluteAngle(36501.0, 36501) == 360.0
  {
    AbsoluteAngleUnreduced(36501.0, 36501);
  }

  /** The incremental update (`Planet.Update`) started from the absolute
      angle at `t` and driven forward by `dt` agrees with the absolute angle
      at `t + dt`, except where the latter is exactly a full turn: there the
      incremental mode has already wrapped to 0. */
  lemma ModesAgree(t: real, dt: real, period: int32)
    requires 0.0 <= t && 0.0 <= dt && 0 < period
    ensures AbsoluteAngle(t + dt, period) != 360.0 ==>
              Advanced(AbsoluteAngle(t, period), dt, period) == AbsoluteAngle(t + dt, period)
    ensures AbsoluteAngle(t + dt, period) == 360.0 ==>
              Advanced(AbsoluteAngle(t, period), dt, period) == 0.0
  {
    var p := period as real;
    var a0 := AbsoluteAngle(t, period);
    var inc := Advanced(a0, dt, period);
    var abs := AbsoluteAngle(t + dt, period);
    assert 0.0 <= dt / p by { DivideNonNegative(dt, p); }
    assert 0.0 <= inc < 360.0;
    TurnFractionsAdd(t, dt, p);
    WholeTurnsCombine(360.0 * t / p, a0, 360.0 * (dt / p), inc, abs);
    if abs != 360.0 {
      WholeTurnsInOneTurn(inc, abs);
    } else {
      WholeTurnsSum(inc - abs, 360.0);
      TurnsOf(1);
      WholeTurnsInOneTurn(inc, 0.0);
    }
  }

  /** Whole-turn differences add up along `x0 -> a0 -> inc` and `x0 + x1 -> abs`. */
  lemma WholeTurnsCombine(x0: real, a0: real, x1: real, inc: real, abs: real)
    requires WholeTurns(x0 - a0) && WholeTurns(a0 + x1 - inc) && WholeTurns(x0 + x1 - abs)
    ensures WholeTurns(inc - abs)
  {
    WholeTurnsNegated(x0 - a0);
    WholeTurnsNegated(a0 + x1 - inc);
    WholeTurnsSum(x0 + x1 - abs, -(x0 - a0));
    WholeTurnsSum(x0 + x1 - abs - (x0 - a0), -(a0 + x1 - inc));
    assert inc - abs == x0 + x1 - abs - (x0 - a0) - (a0 + x1 - inc);
  }

  lemma TurnFractionsAdd(t: real, dt: real, p: real)
    requires p != 0.0
    ensures 360.0 * (t + dt) / p == 360.0 * t / p + 360.0 * (dt / p)
  {
    var q := dt / p;
    assert dt == q * p;
    assert 360.0 * t / p + 360.0 * q == (360.0 * t + 360.0 * q * p) / p;
  }

  lemma WholeTurnsSum(a: real, b: real)
    requires WholeTurns(a) && WholeTurns(b)
    ensures WholeTurns(a + b)
  {
    var i, j := (a / 360.0).Floor, (b / 360.0).Floor;
    assert a / 360.0 == i as real && b / 360.0 == j as real;
    assert (a + b) / 360.0 == a / 360.0 + b / 360.0;
    assert (a + b) / 360.0 == (i + j) as real;
    assert ((i + j) as real).Floor == i + j;
  }

  /** The index of the first name equal to `n`: what `List.Find` and
      `FirstOrDefault` return when matching on the name. */
  function FirstNamed(names: seq<string>, n: string): (r: nat)
    requires n in names
    ensures r < |names| && names[r] == n
    ensures forall j :: 0 <= j < r ==> names[j] != n
  {
    if names[0] == n then 0 else 1 + FirstNamed(names[1..], n)
  }

  /** Looks a planet up by exact name, the first match in list order. */
  method FindFirst(planets: seq<Planet>, name: string) returns (found: Option<nat>)
    ensures found.Some? ==> found.value < |planets| && planets[found.value].planetName == name
    ensures found.Some? ==> forall j :: 0 <= j < found.value ==> planets[j].planetName != name
    ensures found.None? ==> forall j :: 0 <= j < |planets| ==> planets[j].planetName != name
  {
    var i := 0;
    while i < |planets|
      invariant 0 <= i <= |planets|
      invariant forall j :: 0 <= j < i ==> planets[j].planetName != name
    {
      if planets[i].planetName == name {
        return Some(i);
      }
      i := i + 1;
    }
    return None;
  }

  /** The static side of a catalog: the planet objects in list order with
      the name, period and orbital radius each holds. An object listed twice
      holds the same data at both places. */
  datatype Roster = Roster(bodies: seq<Planet>, names: seq<string>, periods: seq<int32>, radii: seq<real>) {

    predicate Valid() {
      && |names| == |bodies| && |periods| == |bodies| && |radii| == |bodies|
      && (forall k :: 0 <= k < |periods| ==> periods[k] != 0)
      && (forall i, j :: 0 <= i < |bodies| && 0 <= j < |bodies| && bodies[i] == bodies[j] ==>
            names[i] == names[j] && periods[i] == periods[j] && radii[i] == radii[j])
    }

    /** The roster is what the objects of `planets` hold. */
    ghost predicate Describes(planets: seq<Planet>)
      reads planets
    {
      && bodies == planets
      && |names| == |planets| && |periods| == |planets| && |radii| == |planets|
      && forall k :: 0 <= k < |planets| ==>
           planets[k].planetName == names[k] && planets[k].period == periods[k] && planets[k].orbitalRadius == radii[k]
    }

    /** Step `i` of the update loop writes to `o`: `o` is the planet at `i`,
        or the first planet named like it. */
    predicate Touches(i: nat, o: Planet)
      requires Valid() && i < |bodies|
    {
      bodies[i] == o || bodies[FirstNamed(names, names[i])] == o
    }

    /** The last of the first `n` steps that writes to `o`, or -1. */
    function LastTouch(o: Planet, n: nat): (l: int)
      requires Valid() && n <= |bodies|
      ensures -1 <= l < n
      ensures 0 <= l ==> Touches(l, o)
      ensures forall k :: 0 <= k < n && Touches(k, o) ==> k <= l
    {
      if n == 0 then -1
      else if Touches(n - 1, o) then n - 1
      else LastTouch(o, n - 1)
    }

    /** The angle of `o` after the first `n` steps of the update to time `t`,
        `before` if none of them wrote to it. */
    function AngleAfter(o: Planet, n: nat, t: real, before: real): real
      requires Valid() && n <= |bodies|
    {
      var l := LastTouch(o, n);
      if l < 0 then before else AbsoluteAngle(t, periods[l])
    }

    /** The angle of catalog member `o` after the whole update to time `t`:
        the absolute angle for the period of the last planet whose step wrote
        to it. It does not depend on any earlier angle. */
    function SyncedAngle(o: Planet, t: real): real
      requires Valid() && o in bodies
    {
      MemberTouched(o);
      var l := LastTouch(o, |bodies|);
      AbsoluteAngle(t, periods[l])
    }

    /** Every catalog member is written by its own step at least. */
    lemma MemberTouched(o: Planet)
      requires Valid() && o in bodies
      ensures 0 <= LastTouch(o, |bodies|)
    {
      var k :| 0 <= k < |bodies| && bodies[k] == o;
      assert Touches(k, o);
    }

    /** After every step, a member's earlier angle no longer matters. */
    lemma AngleAfterAll(o: Planet, t: real, before: real)
      requires Valid() && o in bodies
      ensures AngleAfter(o, |bodies|, t, before) == SyncedAngle(o, t)
    {
      MemberTouched(o);
    }

    lemma LastTouchStep(o: Planet, i: nat)
      requires Valid() && i < |bodies|
      ensures LastTouch(o, i + 1) == if Touches(i, o) then i else LastTouch(o, i)
    {
    }
  }

  /** With unique names the write-back through `Find` stores the value just
      assigned: every planet ends at the absolute angle of its own period. */
  lemma SyncedAngleUniqueNames(r: Roster, k: nat, t: real)
    requires r.Valid() && k < |r.bodies|
    requires forall i, j :: 0 <= i < |r.names| && 0 <= j < |r.names| && r.names[i] == r.names[j] ==> i == j
    ensures r.SyncedAngle(r.bodies[k], t) == AbsoluteAngle(t, r.periods[k])
  {
    var o := r.bodies[k];
    var l := r.LastTouch(o, |r.bodies|);
    assert r.Touches(k, o);
    assert FirstNamed(r.names, r.names[l]) == l;
    assert r.bodies[l] == o;
  }

  /** A repeated name is not harmless: two distinct planets both named "X:"
      with periods 10 and 20 both end at the angle for period 20, because the
      second one's step writes its angle into the first. */
  lemma DuplicateNameOverwrites(a: Planet, b: Planet, t: real)
    requires a != b
    ensures var r := Roster([a, b], ["X:", "X:"], [10, 20], [1.0, 2.0]);
            r.Valid() && r.SyncedAngle(a, t) == AbsoluteAngle(t, 20) && r.SyncedAngle(b, t) == AbsoluteAngle(t, 20)
  {
    var r := Roster([a, b], ["X:", "X:"], [10, 20], [1.0, 2.0]);
    assert FirstNamed(r.names, "X:") == 0;
    assert r.Touches(1, a) && r.Touches(1, b);
  }

  /** The loop shared by both absolute updates: every planet's angle becomes
      the absolute angle at time `t`, written to the planet and then to the
      first planet of the same name. */
  method SetAngles(planets: seq<Planet>, t: real, ghost r: Roster)
    requires r.Valid() && r.Describes(planets)
    modifies planets
    ensures r.Describes(planets)
    ensures forall k :: 0 <= k < |planets| ==> planets[k].Static() == old(planets[k].Static())
    ensures forall k :: 0 <= k < |planets| ==> planets[k].angularPosition == r.SyncedAngle(planets[k], t)
  {
    ghost var before := Angles(planets);
    var i := 0;
    while i < |planets|
      invariant 0 <= i <= |planets|
      invariant r.Describes(planets)
      invariant forall k :: 0 <= k < |planets| ==> planets[k].Static() == old(planets[k].Static())
      invariant forall k :: 0 <= k < |planets| ==> planets[k].angularPosition == r.AngleAfter(planets[k], i, t, before[k])
    {
      ghost var prev := Angles(planets);
      SetAngle(planets, i, t, r);
      AngleAfterStep(r, planets, i, t, before, prev);
      i := i + 1;
    }
    forall k | 0 <= k < |planets|
      ensures planets[k].angularPosition == r.SyncedAngle(planets[k], t)
    {
      assert planets[k].angularPosition == r.AngleAfter(planets[k], |r.bodies|, t, before[k]);
      r.AngleAfterAll(planets[k], t, before[k]);
    }
  }

  /** One step of the loop: planet `i` gets the absolute angle for its
      period, and so does the first planet of the same name. */
  method SetAngle(planets: seq<Planet>, i: nat, t: real, ghost r: Roster)
    requires r.Valid() && r.Describes(planets) && i < |planets|
    modifies planets
    ensures r.Describes(planets)
    ensures forall k :: 0 <= k < |planets| ==> planets[k].Static() == old(planets[k].Static())
    ensures forall k :: 0 <= k < |planets| ==>
              planets[k].angularPosition ==
                if r.Touches(i, planets[k]) then AbsoluteAngle(t, r.periods[i]) else old(planets[k].angularPosition)
  {
    var item := planets[i];
    SetAbsoluteAngle(item, t);
    var target := FindFirst(planets, item.planetName);
    ghost var first := FirstNamed(r.names, r.names[i]);
    assert target == Some(first);
    planets[target.value].angularPosition := item.angularPosition;
    forall k | 0 <= k < |planets|
      ensures planets[k].Static() == old(planets[k].Static())
      ensures planets[k].angularPosition ==
                if r.Touches(i, planets[k]) then AbsoluteAngle(t, r.periods[i]) else old(planets[k].angularPosition)
    {
    }
  }

  /** The angles the objects of `planets` hold. */
  ghost function Angles(planets: seq<Planet>): (a: seq<real>)
    reads planets
    ensures |a| == |planets| && forall k :: 0 <= k < |planets| ==> a[k] == planets[k].angularPosition
  {
    seq(|planets|, k requires 0 <= k < |planets| reads planets => planets[k].angularPosition)
  }

  /** A step that writes to exactly the planets it touches extends
      `AngleAfter` by one step. */
  lemma AngleAfterStep(r: Roster, planets: seq<Planet>, i: nat, t: real, before: seq<real>, prev: seq<real>)
    requires r.Valid() && r.Describes(planets) && i < |planets| && |before| == |planets| && |prev| == |planets|
    requires forall k :: 0 <= k < |planets| ==> prev[k] == r.AngleAfter(planets[k], i, t, before[k])
    requires forall k :: 0 <= k < |planets| ==>
               planets[k].angularPosition == if r.Touches(i, planets[k]) then AbsoluteAngle(t, r.periods[i]) else prev[k]
    ensures forall k :: 0 <= k < |planets| ==> planets[k].angularPosition == r.AngleAfter(planets[k], i + 1, t, before[k])
  {
    forall k | 0 <= k < |planets|
      ensures planets[k].angularPosition == r.AngleAfter(planets[k], i + 1, t, before[k])
    {
      r.LastTouchStep(planets[k], i);
    }
  }

  /** The angle assignment of one loop step, on the planet itself. */
  method SetAbsoluteAngle(item: Planet, t: real)
    requires item.period != 0
    modifies item
    ensures item.Static() == old(item.Static())
    ensures item.angularPosition == AbsoluteAngle(t, item.period)
  {
    item.angularPosition := (2.0 * Pi * t / item.period as real) * 180.0 / Pi;
    if item.angularPosition > 360.0 {
      item.angularPosition := Fmod360(item.angularPosition);
    }
  }

  /** `UpdateSolarSystem`: the catalog moved to `days` after the epoch. Only
      angles change; names, periods, radii and every other field stay. */
  method UpdateSolarSystem(planets: seq<Planet>, days: real, ghost r: Roster) returns (result: seq<Planet>)
    requires r.Valid() && r.Describes(planets)
    modifies planets
    ensures result == planets && r.Describes(planets)
    ensures forall k :: 0 <= k < |planets| ==> planets[k].Static() == old(planets[k].Static())
    ensures forall k :: 0 <= k < |planets| ==> planets[k].angularPosition == r.SyncedAngle(planets[k], days + Epoch)
  {
    SetAngles(planets, days + Epoch, r);
    result := planets;
  }

  /** `SimulateSolarSystem`: the same update without the epoch offset (its
      console listing is not modelled). `UpdateSolarSystem(ps, d)` thus
      leaves the angles `SimulateSolarSystem(ps, d + 36500)` leaves. */
  method SimulateSolarSystem(planets: seq<Planet>, days: int32, ghost r: Roster) returns (result: seq<Planet>)
    requires r.Valid() && r.Describes(planets)
    modifies planets
    ensures result == planets && r.Describes(planets)
    ensures forall k :: 0 <= k < |planets| ==> planets[k].Static() == old(planets[k].Static())
    ensures forall k :: 0 <= k < |planets| ==> planets[k].angularPosition == r.SyncedAngle(planets[k], days as real)
  {
    SetAngles(planets, days as real, r);
    result := planets;
  }

  /** Applying the update twice with the same day leaves the same angles as
      applying it once: `once` are the angles after the first call. */
  method UpdateTwice(planets: seq<Planet>, days: real, ghost r: Roster) returns (ghost once: seq<real>)
    requires r.Valid() && r.Describes(planets)
    modifies planets
    ensures |once| == |planets|
    ensures forall k :: 0 <= k < |planets| ==> once[k] == r.SyncedAngle(planets[k], days + Epoch)
    ensures Angles(planets) == once
  {
    var _ := UpdateSolarSystem(planets, days, r);
    once := Angles(planets);
    var _ := UpdateSolarSystem(planets, days, r);
  }
}
