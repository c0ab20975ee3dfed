/** The planet record of the engine (`Planet` in
    SolarSystemApp/SolarSystem/Program.cs): a mutable object that is built
    from a name, a diameter and a mass, enriched in place with its escape
    velocity and orbital data, and moved along its circular orbit by
    changing its angular position. */
module Planets {
  import opened Numerics
  import opened Wrappers
  import opened Tokens

  /** Earth's mass in kilograms, `6 * 10^24`; the mass unit of every other body. */
  const EarthMass: real := 6000000000000000000000000.0
  /** The one body whose record carries its mass in kilograms rather than
      in Earth masses. */
  const ReferenceName: string := "Earth:"

  /** A drawing position. */
  datatype Point = Point(x: real, y: real)

  /** Everything a planet holds except its angular position. */
  datatype Fields = Fields(
    planetName: string,
    diameter: int32,
    mass: real,
    escapeVelocity: real,
    period: int32,
    orbitalRadius: real)

  class Planet {
    var planetName: string
    /** Kilometres. */
    var diameter: int32
    /** Kilograms for the reference body "Earth:", Earth masses for the others. */
    var mass: real
    /** Metres per second, zero until computed. */
    var escapeVelocity: real
    /** Days (or simulation seconds) for a full orbit. */
    var period: int32
    /** Astronomical units (or pixels when drawn). */
    var orbitalRadius: real
    /** Degrees. */
    var angularPosition: real

    /** `new Planet()`: every field at its default; a missing name is the empty string. */
    constructor Empty()
      ensures Static() == Fields("", 0, 0.0, 0.0, 0, 0.0) && angularPosition == 0.0
    {
      planetName := "";
      diameter := 0;
      mass := 0.0;
      escapeVelocity := 0.0;
      period := 0;
      orbitalRadius := 0.0;
      angularPosition := 0.0;
    }

    /** `new Planet(name, diameter, mass)`. */
    constructor (planetName: string, diameter: int32, mass: real)
      ensures Static() == Fields(planetName, diameter, mass, 0.0, 0, 0.0) && angularPosition == 0.0
    {
      this.planetName := planetName;
      this.diameter := diameter;
      this.mass := mass;
      escapeVelocity := 0.0;
      period := 0;
      orbitalRadius := 0.0;
      angularPosition := 0.0;
    }

    function Static(): Fields
      reads this
    {
      Fields(planetName, diameter, mass, escapeVelocity, period, orbitalRadius)
    }

    /** The drawing position of the planet around `center`. */
    function GetPosition(m: MathLib, center: Point): (p: Point)
      reads this
      ensures m.Sound() ==> m.sqrt(Sq(p.x - center.x) + Sq(p.y - center.y)) == Abs(orbitalRadius)
    {
      var offset := Position(m, orbitalRadius, angularPosition);
      var p := Point(center.x + offset.x, center.y + offset.y);
      assert m.Sound() ==> m.sqrt(Sq(p.x - center.x) + Sq(p.y - center.y)) == Abs(orbitalRadius) by {
        if m.Sound() {
          PositionOnOrbit(m, orbitalRadius, angularPosition);
          assert p.x - center.x == offset.x && p.y - center.y == offset.y;
        }
      }
      p
    }

    /** `ReturnPlanetInfo`, with the data file's lines given and `int.Parse`
        and `float.Parse` as parameters: each line is split on spaces and
        its tokens scanned into this planet's name, diameter and mass, later
        tokens and lines overwriting earlier ones. The list it returns is
        never filled. */
    method ReturnPlanetInfo(lines: seq<string>, parseInt: string -> Option<int32>, parseReal: string -> Option<real>)
      returns (r: Result<seq<Planet>, ScanError>)
      modifies `planetName, `diameter, `mass
      ensures var read := ReadInfo(lines, parseInt, parseReal, old(Info(planetName, diameter, mass)));
              && r.Ok? == read.Ok?
              && (r.Ok? ==> r.value == [] && Info(planetName, diameter, mass) == read.value)
              && (r.Err? ==> r.error == read.error)
    {
      var planets: seq<Planet> := [];
      ghost var start := Info(planetName, diameter, mass);
      var j := 0;
      while j < |lines|
        invariant 0 <= j <= |lines|
        invariant ReadInfo(lines[..j], parseInt, parseReal, start) == Ok(Info(planetName, diameter, mass))
      {
        var failure := ReadInfoLine(lines[j], parseInt, parseReal);
        ReadInfoNext(lines, j, parseInt, parseReal, start);
        if failure.Some? {
          ReadInfoFails(lines, j, parseInt, parseReal, start);
          return Err(failure.value);
        }
        j := j + 1;
      }
      assert lines[..j] == lines;
      return Ok(planets);
    }

    /** The token loop of `ReturnPlanetInfo` over one line split on spaces;
        `Some` carries the exception that ends it. */
    method ReadInfoLine(line: string, parseInt: string -> Option<int32>, parseReal: string -> Option<real>)
      returns (failure: Option<ScanError>)
      modifies `planetName, `diameter, `mass
      ensures var read := LineRead(line, parseInt, parseReal, old(Info(planetName, diameter, mass)));
              && (failure.None? <==> read.Ok?)
              && (read.Ok? ==> Info(planetName, diameter, mass) == read.value)
              && (failure.Some? ==> read == Err(failure.value))
    {
      var parts := Split(line, ' ');
      ghost var lineStart := Info(planetName, diameter, mass);
      ghost var loop := InfoLoop(parts, parseInt, parseReal);
      var i := 0;
      while i < |parts|
        invariant 0 <= i <= |parts|
        invariant Steps(loop, i, lineStart) == Ok(Info(planetName, diameter, mass))
      {
        ghost var before := Info(planetName, diameter, mass);
        failure := ReadInfoToken(parts, i, parseInt, parseReal);
        assert loop(i, before) == InfoStep(parts, i, before, parseInt, parseReal);
        if failure.Some? {
          StepsStop(loop, i, |parts|, lineStart);
          return;
        }
        i := i + 1;
      }
      return None;
    }

    /** Iteration `i` of the token loop of `ReturnPlanetInfo`. */
    method ReadInfoToken(parts: seq<string>, i: nat, parseInt: string -> Option<int32>, parseReal: string -> Option<real>)
      returns (failure: Option<ScanError>)
      requires i < |parts|
      modifies `planetName, `diameter, `mass
      ensures var step := InfoStep(parts, i, old(Info(planetName, diameter, mass)), parseInt, parseReal);
              && (failure.None? <==> step.Ok?)
              && (step.Ok? ==> Info(planetName, diameter, mass) == step.value)
              && (failure.Some? ==> step == Err(failure.value))
    {
      planetName := parts[0];
      if parts[i] == "diameter" {
        var d := NumberAt(parts, i + 2, parseInt);
        if d.Err? {
          return Some(d.error);
        }
        diameter := d.value;
      }
      if parts[i] == "mass" {
        if planetName == ReferenceName {
          mass := EarthMass;
        } else {
          var x := NumberAt(parts, i + 2, parseReal);
          if x.Err? {
            return Some(x.error);
          }
          mass := x.value;
        }
      }
      return None;
    }

    /** Advances the planet along its orbit by `deltaTime`. A zero period
        (a division by zero in the source) is excluded. */
    method Update(deltaTime: real)
      requires period != 0
      modifies `angularPosition
      ensures angularPosition == Advanced(old(angularPosition), deltaTime, period)
    {
      angularPosition := angularPosition + 360.0 * (deltaTime / period as real);
      if angularPosition >= 360.0 {
        angularPosition := Fmod360(angularPosition);
      }
    }
  }

  /** What `ReturnPlanetInfo` writes into the planet it runs on. */
  datatype Info = Info(name: string, diameter: int32, mass: real)

  /** Iteration `i` of the token loop of `ReturnPlanetInfo`: the name becomes
      the line's first token; "diameter" and "mass" take the token two places
      on, except that the reference body's mass is the fixed Earth mass and
      needs no token. */
  function InfoStep(parts: seq<string>, i: nat, info: Info,
                    parseInt: string -> Option<int32>, parseReal: string -> Option<real>): Result<Info, ScanError>
  {
    if |parts| <= i then Ok(info)
    else
      var named := info.(name := parts[0]);
      if parts[i] == "diameter" then
        match NumberAt(parts, i + 2, parseInt)
        case Err(e) => Err(e)
        case Ok(d) => Ok(named.(diameter := d))
      else if parts[i] != "mass" then Ok(named)
      else if named.name == ReferenceName then Ok(named.(mass := EarthMass))
      else
        match NumberAt(parts, i + 2, parseReal)
        case Err(e) => Err(e)
        case Ok(x) => Ok(named.(mass := x))
  }

  function InfoLoop(parts: seq<string>, parseInt: string -> Option<int32>, parseReal: string -> Option<real>)
    : (nat, Info) -> Result<Info, ScanError>
  {
    (i: nat, info: Info) => InfoStep(parts, i, info, parseInt, parseReal)
  }

  /** The planet data after the token loop over `line` split on spaces, or
      the exception that ends it. */
  function LineRead(line: string, parseInt: string -> Option<int32>, parseReal: string -> Option<real>, info: Info)
    : Result<Info, ScanError>
  {
    var parts := Split(line, ' ');
    Steps(InfoLoop(parts, parseInt, parseReal), |parts|, info)
  }

  /** The planet data `ReturnPlanetInfo` reads from `lines`, starting from
      the planet's own `start`, or the first exception. */
  function ReadInfo(lines: seq<string>, parseInt: string -> Option<int32>, parseReal: string -> Option<real>, start: Info)
    : Result<Info, ScanError>
    decreases |lines|
  {
    if |lines| == 0 then Ok(start)
    else match ReadInfo(lines[..|lines| - 1], parseInt, parseReal, start)
      case Err(e) => Err(e)
      case Ok(info) => LineRead(lines[|lines| - 1], parseInt, parseReal, info)
  }

  /** One more line read. */
  lemma ReadInfoNext(lines: seq<string>, j: nat, parseInt: string -> Option<int32>, parseReal: string -> Option<real>, start: Info)
    requires j < |lines| && ReadInfo(lines[..j], parseInt, parseReal, start).Ok?
    ensures ReadInfo(lines[..j + 1], parseInt, parseReal, start) ==
            LineRead(lines[j], parseInt, parseReal, ReadInfo(lines[..j], parseInt, parseReal, start).value)
  {
    assert lines[..j + 1][..j] == lines[..j];
  }

  lemma ReadOneLine(line: string, parseInt: string -> Option<int32>, parseReal: string -> Option<real>, start: Info)
    ensures ReadInfo([line], parseInt, parseReal, start) == LineRead(line, parseInt, parseReal, start)
  {
    assert [line][..0] == [];
  }

  /** The first line that throws decides the error of the whole read. */
  lemma {:induction false} ReadInfoFails(lines: seq<string>, j: nat, parseInt: string -> Option<int32>,
                                         parseReal: string -> Option<real>, start: Info)
    requires j < |lines| && ReadInfo(lines[..j + 1], parseInt, parseReal, start).Err?
    ensures ReadInfo(lines, parseInt, parseReal, start) == ReadInfo(lines[..j + 1], parseInt, parseReal, start)
    decreases |lines|
  {
    if |lines| == j + 1 {
      assert lines[..j + 1] == lines;
    } else {
      var init := lines[..|lines| - 1];
      assert init[..j + 1] == lines[..j + 1];
      ReadInfoFails(init, j, parseInt, parseReal, start);
    }
  }

  /** The positions of a line holding the token `word`. */
  function IsToken(parts: seq<string>, word: string): nat -> bool {
    (k: nat) => k < |parts| && parts[k] == word
  }

  /** What one iteration of the token loop of `ReturnPlanetInfo` writes. */
  lemma InfoStepWrites(parts: seq<string>, i: nat, info: Info,
                       parseInt: string -> Option<int32>, parseReal: string -> Option<real>)
    requires i < |parts| && InfoStep(parts, i, info, parseInt, parseReal).Ok?
    ensures var r := InfoStep(parts, i, info, parseInt, parseReal).value;
            && r.name == parts[0]
            && (if parts[i] == "diameter" then i + 2 < |parts| && parseInt(parts[i + 2]) == Some(r.diameter)
                else r.diameter == info.diameter)
            && (if parts[i] != "mass" then r.mass == info.mass
                else if parts[0] == ReferenceName then r.mass == EarthMass
                else i + 2 < |parts| && parseReal(parts[i + 2]) == Some(r.mass))
  {
  }

  /** After the first `n` tokens of a line the name is the line's first
      token, the diameter is the number after the last "diameter" among
      them and the mass the number after the last "mass" (the fixed Earth
      mass on the reference body's line); without such a keyword the value
      the line started from stays. */
  lemma InfoLineLastWins(parts: seq<string>, n: nat, info: Info,
                         parseInt: string -> Option<int32>, parseReal: string -> Option<real>)
    requires n <= |parts|
    requires Steps(InfoLoop(parts, parseInt, parseReal), n, info).Ok?
    ensures var r := Steps(InfoLoop(parts, parseInt, parseReal), n, info).value;
            && (n == 0 ==> r == info)
            && (0 < n ==> r.name == parts[0])
            && (var d := LastWhere(IsToken(parts, "diameter"), n);
                if d < 0 then r.diameter == info.diameter
                else d + 2 < |parts| && parseInt(parts[d + 2]) == Some(r.diameter))
            && (var m := LastWhere(IsToken(parts, "mass"), n);
                if m < 0 then r.mass == info.mass
                else if parts[0] == ReferenceName then r.mass == EarthMass
                else m + 2 < |parts| && parseReal(parts[m + 2]) == Some(r.mass))
  {
    InfoLineDiameter(parts, n, info, parseInt, parseReal);
    InfoLineMass(parts, n, info, parseInt, parseReal);
  }

  /** The name and diameter half of `InfoLineLastWins`. */
  lemma {:induction false} InfoLineDiameter(parts: seq<string>, n: nat, info: Info,
                                            parseInt: string -> Option<int32>, parseReal: string -> Option<real>)
    requires n <= |parts|
    requires Steps(InfoLoop(parts, parseInt, parseReal), n, info).Ok?
    ensures var r := Steps(InfoLoop(parts, parseInt, parseReal), n, info).value;
            && (n == 0 ==> r == info)
            && (0 < n ==> r.name == parts[0])
            && (var d := LastWhere(IsToken(parts, "diameter"), n);
                if d < 0 then r.diameter == info.diameter
                else d + 2 < |parts| && parseInt(parts[d + 2]) == Some(r.diameter))
  {
    if n > 0 {
      var loop := InfoLoop(parts, parseInt, parseReal);
      assert Steps(loop, n - 1, info).Ok?;
      InfoLineDiameter(parts, n - 1, info, parseInt, parseReal);
      var prev := Steps(loop, n - 1, info).value;
      assert Steps(loop, n, info) == InfoStep(parts, n - 1, prev, parseInt, parseReal);
      InfoStepWrites(parts, n - 1, prev, parseInt, parseReal);
      assert LastWhere(IsToken(parts, "diameter"), n) ==
             if parts[n - 1] == "diameter" then n - 1 else LastWhere(IsToken(parts, "diameter"), n - 1);
    }
  }

  /** The mass half of `InfoLineLastWins`. */
  lemma {:induction false} InfoLineMass(parts: seq<string>, n: nat, info: Info,
                                        parseInt: string -> Option<int32>, parseReal: string -> Option<real>)
    requires n <= |parts|
    requires Steps(InfoLoop(parts, parseInt, parseReal), n, info).Ok?
    ensures var r := Steps(InfoLoop(parts, parseInt, parseReal), n, info).value;
            var m := LastWhere(IsToken(parts, "mass"), n);
            if m < 0 then r.mass == info.mass
            else if parts[0] == ReferenceName then r.mass == EarthMass
            else m + 2 < |parts| && parseReal(parts[m + 2]) == Some(r.mass)
  {
    if n > 0 {
      var loop := InfoLoop(parts, parseInt, parseReal);
      assert Steps(loop, n - 1, info).Ok?;
      InfoLineMass(parts, n - 1, info, parseInt, parseReal);
      var prev := Steps(loop, n - 1, info).value;
      assert Steps(loop, n, info) == InfoStep(parts, n - 1, prev, parseInt, parseReal);
      InfoStepWrites(parts, n - 1, prev, parseInt, parseReal);
      assert LastWhere(IsToken(parts, "mass"), n) ==
             if parts[n - 1] == "mass" then n - 1 else LastWhere(IsToken(parts, "mass"), n - 1);
    }
  }

  /** After a successful read the planet carries the name of the last
      line: every line overwrites it. */
  lemma ReadInfoLastName(lines: seq<string>, parseInt: string -> Option<int32>, parseReal: string -> Option<real>, start: Info)
    requires 0 < |lines| && ReadInfo(lines, parseInt, parseReal, start).Ok?
    ensures ReadInfo(lines, parseInt, parseReal, start).value.name == Split(lines[|lines| - 1], ' ')[0]
  {
    var prev := ReadInfo(lines[..|lines| - 1], parseInt, parseReal, start);
    assert prev.Ok?;
    var parts := Split(lines[|lines| - 1], ' ');
    InfoLineLastWins(parts, |parts|, prev.value, parseInt, parseReal);
  }

  /** The reference body's mass needs no number after it: "Earth: mass"
      reads without error. */
  lemma EarthMassNeedsNoToken(parseInt: string -> Option<int32>, parseReal: string -> Option<real>, start: Info)
    ensures ReadInfo(["Earth: mass"], parseInt, parseReal, start) == Ok(Info("Earth:", start.diameter, EarthMass))
  {
    EarthLineReads(parseInt, parseReal, start);
    ReadOneLine("Earth: mass", parseInt, parseReal, start);
  }

  lemma EarthLineReads(parseInt: string -> Option<int32>, parseReal: string -> Option<real>, start: Info)
    ensures LineRead("Earth: mass", parseInt, parseReal, start) == Ok(Info("Earth:", start.diameter, EarthMass))
  {
    var parts := ["Earth:", "mass"];
    SplitJoin(parts, ' ');
    assert Join(parts, ' ') == "Earth: mass";
    var loop := InfoLoop(parts, parseInt, parseReal);
    assert Steps(loop, 1, start) == Ok(start.(name := "Earth:"));
    assert Steps(loop, 2, start) == Ok(Info("Earth:", start.diameter, EarthMass));
  }

  /** The same line for any other body runs past the end of the line
      looking for the number. */
  lemma OtherMassNeedsToken(parseInt: string -> Option<int32>, parseReal: string -> Option<real>, start: Info)
    ensures ReadInfo(["Mars: mass"], parseInt, parseReal, start) == Err(MissingToken(3))
  {
    MarsLineReads(parseInt, parseReal, start);
    ReadOneLine("Mars: mass", parseInt, parseReal, start);
  }

  lemma MarsLineReads(parseInt: string -> Option<int32>, parseReal: string -> Option<real>, start: Info)
    ensures LineRead("Mars: mass", parseInt, parseReal, start) == Err(MissingToken(3))
  {
    var parts := ["Mars:", "mass"];
    SplitJoin(parts, ' ');
    assert Join(parts, ' ') == "Mars: mass";
    var loop := InfoLoop(parts, parseInt, parseReal);
    assert Steps(loop, 1, start) == Ok(start.(name := "Mars:"));
    assert Steps(loop, 2, start) == Err(MissingToken(3));
  }

  /** Polar to Cartesian conversion around the origin, the angle in degrees. */
  function Position(m: MathLib, radius: real, angle: real): Point {
    var rad := angle * Pi / 180.0;
    Point(radius * m.cos(rad), radius * m.sin(rad))
  }

  /** A position lies on the circle of its orbital radius. */
  lemma PositionOnOrbit(m: MathLib, radius: real, angle: real)
    requires m.Sound()
    ensures var p := Position(m, radius, angle);
            m.sqrt(Sq(p.x) + Sq(p.y)) == Abs(radius)
  {
    var rad := angle * Pi / 180.0;
    var c, s := m.cos(rad), m.sin(rad);
    assert c * c + s * s == 1.0;
    calc {
      Sq(radius * c) + Sq(radius * s);
      radius * radius * (c * c + s * s);
      radius * radius;
    }
    SqrtOfSquare(m, radius);
    var p := Position(m, radius, angle);
    assert p.x == radius * c && p.y == radius * s;
  }

  /** The angle after the incremental update: the angle plus the fraction of
      a turn that `dt` is of `period`, reduced by `%` only when it reaches a
      full turn. It differs from the unreduced sum by whole turns, and it
      stays in the first turn when the planet moves forward from it. */
  function Advanced(angle: real, dt: real, period: int32): (r: real)
    requires period != 0
    ensures WholeTurns(angle + 360.0 * (dt / period as real) - r)
    ensures 0.0 <= angle < 360.0 && 0.0 <= dt && 0 < period ==> 0.0 <= r < 360.0
  {
    var a := angle + 360.0 * (dt / period as real);
    if a >= 360.0 then Fmod360(a) else a
  }

  /** Moving backward is never wrapped: the `%` only fires at or above a
      full turn, so a negative angle stays negative. */
  lemma BackwardStaysNegative()
    ensures Advanced(0.0, -1.0, 10) == -36.0
  {
  }
}
