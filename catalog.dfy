/** `ReturnSolarSystemInfo`: the orbital data file merged into the catalog.
    Every line is split on spaces and scanned into a fresh planet; after
    every token the period and orbital radius read so far are copied into
    the first catalog planet carrying the line's first token as its name. */
module Catalog {
  import opened Numerics
  import opened Wrappers
  import opened Tokens
  import opened Planets
  import opened Kinematics

  /** The orbital data of a planet: its period and orbital radius. */
  datatype Orbit = Orbit(period: int32, radius: real)

  function OrbitOf(p: Planet): Orbit
    reads p
  {
    Orbit(p.period, p.orbitalRadius)
  }

  /** Iteration `i` of the token loop of `ReturnSolarSystemInfo` on the
      line's planet: "period" takes the token two places on, "orbital"
      followed by "radius" the token three places on. The look at the token
      after "orbital" is itself an index that can run off the line. */
  function OrbitStep(parts: seq<string>, i: nat, o: Orbit,
                     parseInt: string -> Option<int32>, parseReal: string -> Option<real>): Result<Orbit, ScanError>
  {
    if |parts| <= i then Ok(o)
    else
      var withPeriod :=
        if parts[i] != "period" then Ok(o)
        else match NumberAt(parts, i + 2, parseInt)
          case Err(e) => Err(e)
          case Ok(v) => Ok(o.(period := v));
      if withPeriod.Err? || parts[i] != "orbital" then withPeriod
      else if |parts| <= i + 1 then Err(MissingToken(i + 1))
      else if parts[i + 1] != "radius" then withPeriod
      else match NumberAt(parts, i + 3, parseReal)
        case Err(e) => Err(e)
        case Ok(x) => Ok(withPeriod.value.(radius := x))
  }

  function OrbitLoop(parts: seq<string>, parseInt: string -> Option<int32>, parseReal: string -> Option<real>)
    : (nat, Orbit) -> Result<Orbit, ScanError>
  {
    (i: nat, o: Orbit) => OrbitStep(parts, i, o, parseInt, parseReal)
  }

  /** The orbital data of one split line, read into a planet that starts
      with period 0 and radius 0, or the exception that ends the line. */
  function ScanLine(parts: seq<string>, parseInt: string -> Option<int32>, parseReal: string -> Option<real>)
    : Result<Orbit, ScanError>
  {
    Steps(OrbitLoop(parts, parseInt, parseReal), |parts|, Orbit(0, 0.0))
  }

  function LineOrbit(line: string, parseInt: string -> Option<int32>, parseReal: string -> Option<real>)
    : Result<Orbit, ScanError>
  {
    ScanLine(Split(line, ' '), parseInt, parseReal)
  }

  /** The name a line is about: its first token. */
  function LineName(line: string): string {
    Split(line, ' ')[0]
  }

  /** Token `i` does not throw: a "period" has a number two places on, an
      "orbital" has a next token, and an "orbital radius" a number three
      places on. */
  predicate Readable(parts: seq<string>, i: nat, parseInt: string -> Option<int32>, parseReal: string -> Option<real>)
    requires i < |parts|
  {
    && (parts[i] == "period" ==> i + 2 < |parts| && parseInt(parts[i + 2]).Some?)
    && (parts[i] == "orbital" ==>
          && i + 1 < |parts|
          && (parts[i + 1] == "radius" ==> i + 3 < |parts| && parseReal(parts[i + 3]).Some?))
  }

  /** What one iteration writes, and when it throws. */
  lemma OrbitStepWrites(parts: seq<string>, i: nat, o: Orbit,
                        parseInt: string -> Option<int32>, parseReal: string -> Option<real>)
    requires i < |parts|
    ensures var r := OrbitStep(parts, i, o, parseInt, parseReal);
            && (r.Ok? <==> Readable(parts, i, parseInt, parseReal))
            && (r.Ok? ==>
                  && (if parts[i] == "period" then parseInt(parts[i + 2]) == Some(r.value.period)
                      else r.value.period == o.period)
                  && (if IsRadiusKey(parts)(i) then parseReal(parts[i + 3]) == Some(r.value.radius)
                      else r.value.radius == o.radius))
  {
  }

  /** The positions of a line holding "period". */
  function IsPeriodKey(parts: seq<string>): nat -> bool {
    (k: nat) => k < |parts| && parts[k] == "period"
  }

  /** The positions of a line holding "orbital" followed by "radius". */
  function IsRadiusKey(parts: seq<string>): nat -> bool {
    (k: nat) => k + 1 < |parts| && parts[k] == "orbital" && parts[k + 1] == "radius"
  }

  /** A line reads without exception exactly when each of its tokens is
      readable. */
  lemma {:induction false} ScanLineOkIff(parts: seq<string>, n: nat,
                                         parseInt: string -> Option<int32>, parseReal: string -> Option<real>)
    requires n <= |parts|
    ensures Steps(OrbitLoop(parts, parseInt, parseReal), n, Orbit(0, 0.0)).Ok? <==>
            forall i :: 0 <= i < n ==> Readable(parts, i, parseInt, parseReal)
  {
    if n > 0 {
      ScanLineOkIff(parts, n - 1, parseInt, parseReal);
      var loop := OrbitLoop(parts, parseInt, parseReal);
      var prev := Steps(loop, n - 1, Orbit(0, 0.0));
      if prev.Ok? {
        OrbitStepWrites(parts, n - 1, prev.value, parseInt, parseReal);
      }
    }
  }

  /** After the first `n` tokens of a line the period is the number after
      the last "period" among them and the radius the number after the
      last "orbital radius"; a line without them leaves 0 in both, since
      every line starts from a fresh planet. */
  lemma {:induction false} ScanLineLastWins(parts: seq<string>, n: nat,
                                            parseInt: string -> Option<int32>, parseReal: string -> Option<real>)
    requires n <= |parts|
    requires Steps(OrbitLoop(parts, parseInt, parseReal), n, Orbit(0, 0.0)).Ok?
    ensures var r := Steps(OrbitLoop(parts, parseInt, parseReal), n, Orbit(0, 0.0)).value;
            && (var j := LastWhere(IsPeriodKey(parts), n);
                if j < 0 then r.period == 0 else j + 2 < |parts| && parseInt(parts[j + 2]) == Some(r.period))
            && (var j := LastWhere(IsRadiusKey(parts), n);
                if j < 0 then r.radius == 0.0 else j + 3 < |parts| && parseReal(parts[j + 3]) == Some(r.radius))
  {
    if n > 0 {
      var loop := OrbitLoop(parts, parseInt, parseReal);
      assert Steps(loop, n - 1, Orbit(0, 0.0)).Ok?;
      ScanLineLastWins(parts, n - 1, parseInt, parseReal);
      var prev := Steps(loop, n - 1, Orbit(0, 0.0)).value;
      assert Steps(loop, n, Orbit(0, 0.0)) == OrbitStep(parts, n - 1, prev, parseInt, parseReal);
      OrbitStepWrites(parts, n - 1, prev, parseInt, parseReal);
      assert LastWhere(IsPeriodKey(parts), n) ==
             if IsPeriodKey(parts)(n - 1) then n - 1 else LastWhere(IsPeriodKey(parts), n - 1);
      assert LastWhere(IsRadiusKey(parts), n) ==
             if IsRadiusKey(parts)(n - 1) then n - 1 else LastWhere(IsRadiusKey(parts), n - 1);
    }
  }

  /** The line layout the reader expects, "Mars: period = 687 orbital
      radius = 1.52". */
  function Render(name: string, period: string, radius: string): string {
    Join([name, "period", "=", period, "orbital", "radius", "=", radius], ' ')
  }

  /** A rendered line reads back as the numbers it was rendered from. */
  lemma RenderedLineReadsBack(name: string, period: string, radius: string, p: int32, r: real,
                              parseInt: string -> Option<int32>, parseReal: string -> Option<real>)
    requires ' ' !in name && ' ' !in period && ' ' !in radius
    requires name !in {"period", "orbital"} && period !in {"period", "orbital"} && radius !in {"period", "orbital"}
    requires parseInt(period) == Some(p) && parseReal(radius) == Some(r)
    ensures LineOrbit(Render(name, period, radius), parseInt, parseReal) == Ok(Orbit(p, r))
    ensures LineName(Render(name, period, radius)) == name
  {
    var parts := [name, "period", "=", period, "orbital", "radius", "=", radius];
    SplitJoin(parts, ' ');
    LayoutReads(parts, name, period, radius, p, r, parseInt, parseReal);
  }

  /** The tokens of a rendered line scan to the numbers they hold. */
  lemma LayoutReads(parts: seq<string>, name: string, period: string, radius: string, p: int32, r: real,
                    parseInt: string -> Option<int32>, parseReal: string -> Option<real>)
    requires parts == [name, "period", "=", period, "orbital", "radius", "=", radius]
    requires name !in {"period", "orbital"} && period !in {"period", "orbital"} && radius !in {"period", "orbital"}
    requires parseInt(period) == Some(p) && parseReal(radius) == Some(r)
    ensures ScanLine(parts, parseInt, parseReal) == Ok(Orbit(p, r))
  {
    LayoutReadable(parts, name, period, radius, p, r, parseInt, parseReal);
    ScanLineOkIff(parts, |parts|, parseInt, parseReal);
    ScanLineLastWins(parts, |parts|, parseInt, parseReal);
    LayoutKeys(parts, name, period, radius);
  }

  lemma LayoutReadable(parts: seq<string>, name: string, period: string, radius: string, p: int32, r: real,
                       parseInt: string -> Option<int32>, parseReal: string -> Option<real>)
    requires parts == [name, "period", "=", period, "orbital", "radius", "=", radius]
    requires name !in {"period", "orbital"} && period !in {"period", "orbital"} && radius !in {"period", "orbital"}
    requires parseInt(period) == Some(p) && parseReal(radius) == Some(r)
    ensures forall i :: 0 <= i < |parts| ==> Readable(parts, i, parseInt, parseReal)
  {
    assert Readable(parts, 0, parseInt, parseReal) && Readable(parts, 1, parseInt, parseReal);
    assert Readable(parts, 2, parseInt, parseReal) && Readable(parts, 3, parseInt, parseReal);
    assert Readable(parts, 4, parseInt, parseReal) && Readable(parts, 5, parseInt, parseReal);
    assert Readable(parts, 6, parseInt, parseReal) && Readable(parts, 7, parseInt, parseReal);
  }

  lemma LayoutKeys(parts: seq<string>, name: string, period: string, radius: string)
    requires parts == [name, "period", "=", period, "orbital", "radius", "=", radius]
    requires name !in {"period", "orbital"} && period !in {"period", "orbital"} && radius !in {"period", "orbital"}
    ensures LastWhere(IsPeriodKey(parts), 8) == 1
    ensures LastWhere(IsRadiusKey(parts), 8) == 4
  {
    assert !IsPeriodKey(parts)(7) && !IsPeriodKey(parts)(6) && !IsPeriodKey(parts)(5);
    assert !IsPeriodKey(parts)(4) && !IsPeriodKey(parts)(3) && !IsPeriodKey(parts)(2) && IsPeriodKey(parts)(1);
    assert !IsRadiusKey(parts)(7) && !IsRadiusKey(parts)(6) && !IsRadiusKey(parts)(5) && IsRadiusKey(parts)(4);
  }

  /** The orbital data of each line, or the exception of the first line
      that throws. */
  function ScanFile(lines: seq<string>, parseInt: string -> Option<int32>, parseReal: string -> Option<real>)
    : (r: Result<seq<Orbit>, ScanError>)
    ensures r.Ok? <==> forall j :: 0 <= j < |lines| ==> LineOrbit(lines[j], parseInt, parseReal).Ok?
    ensures r.Ok? ==> |r.value| == |lines| &&
                      forall j :: 0 <= j < |lines| ==> LineOrbit(lines[j], parseInt, parseReal) == Ok(r.value[j])
    ensures r.Err? ==> exists j :: 0 <= j < |lines| && LineOrbit(lines[j], parseInt, parseReal) == Err(r.error) &&
                                   forall i :: 0 <= i < j ==> LineOrbit(lines[i], parseInt, parseReal).Ok?
    decreases |lines|
  {
    if |lines| == 0 then Ok([])
    else
      var init := lines[..|lines| - 1];
      assert forall j :: 0 <= j < |init| ==> init[j] == lines[j];
      match ScanFile(init, parseInt, parseReal)
      case Err(e) => Err(e)
      case Ok(orbits) =>
        match LineOrbit(lines[|lines| - 1], parseInt, parseReal)
        case Err(e) => Err(e)
        case Ok(o) => Ok(orbits + [o])
  }

  /** The last line about `name`, or -1. */
  function LastLineFor(lines: seq<string>, name: string): (j: int)
    ensures -1 <= j < |lines|
    ensures 0 <= j ==> LineName(lines[j]) == name
    ensures forall i :: j < i < |lines| ==> LineName(lines[i]) != name
    decreases |lines|
  {
    if |lines| == 0 then -1
    else if LineName(lines[|lines| - 1]) == name then |lines| - 1
    else
      var init := lines[..|lines| - 1];
      assert forall i :: 0 <= i < |init| ==> init[i] == lines[i];
      LastLineFor(init, name)
  }

  /** The orbital data a catalog planet named `name` holds after the merge
      of `lines`: that of the last line about it when it is the first
      planet of its name, and otherwise what it held `before`. */
  function Merged(lines: seq<string>, orbits: seq<Orbit>, name: string, first: bool, before: Orbit): Orbit
    requires |orbits| == |lines|
  {
    var j := LastLineFor(lines, name);
    if first && 0 <= j then orbits[j] else before
  }

  /** One more line changes only the first planet of the line's name. */
  lemma MergedStep(lines: seq<string>, orbits: seq<Orbit>, line: string, o: Orbit, name: string, first: bool, before: Orbit)
    requires |orbits| == |lines|
    ensures Merged(lines + [line], orbits + [o], name, first, before) ==
            if first && LineName(line) == name then o else Merged(lines, orbits, name, first, before)
  {
    assert (lines + [line])[..|lines|] == lines;
  }

  /** A later line naming a planet without any keyword resets its orbital
      data to zero: the line's fresh planet is copied all the same. */
  lemma BareLineResets(name: string, period: string, radius: string, p: int32, r: real,
                       parseInt: string -> Option<int32>, parseReal: string -> Option<real>, before: Orbit)
    requires ' ' !in name && ' ' !in period && ' ' !in radius
    requires name !in {"period", "orbital"} && period !in {"period", "orbital"} && radius !in {"period", "orbital"}
    requires parseInt(period) == Some(p) && parseReal(radius) == Some(r)
    ensures var lines := [Render(name, period, radius), name];
            && ScanFile(lines, parseInt, parseReal) == Ok([Orbit(p, r), Orbit(0, 0.0)])
            && Merged(lines, [Orbit(p, r), Orbit(0, 0.0)], name, true, before) == Orbit(0, 0.0)
  {
    RenderedLineReadsBack(name, period, radius, p, r, parseInt, parseReal);
    BareLineReads(name, parseInt, parseReal);
    ScanTwoLines(Render(name, period, radius), name, Orbit(p, r), Orbit(0, 0.0), parseInt, parseReal);
  }

  /** A line holding only a name reads as a fresh planet's zeros. */
  lemma BareLineReads(name: string, parseInt: string -> Option<int32>, parseReal: string -> Option<real>)
    requires ' ' !in name && name !in {"period", "orbital"}
    ensures LineOrbit(name, parseInt, parseReal) == Ok(Orbit(0, 0.0))
    ensures LineName(name) == name
  {
    SplitWord(name, ' ');
    var bare := OrbitLoop([name], parseInt, parseReal);
    assert Steps(bare, 1, Orbit(0, 0.0)) == OrbitStep([name], 0, Orbit(0, 0.0), parseInt, parseReal);
  }

  lemma ScanTwoLines(a: string, b: string, oa: Orbit, ob: Orbit,
                     parseInt: string -> Option<int32>, parseReal: string -> Option<real>)
    requires LineOrbit(a, parseInt, parseReal) == Ok(oa) && LineOrbit(b, parseInt, parseReal) == Ok(ob)
    ensures ScanFile([a, b], parseInt, parseReal) == Ok([oa, ob])
  {
    assert ScanFile([], parseInt, parseReal) == Ok([]);
    assert [a][..0] == [] && [a][0] == a && [] + [oa] == [oa];
    assert ScanFile([a], parseInt, parseReal) == Ok([oa]);
    assert [a, b][..1] == [a] && [a, b][1] == b && [oa] + [ob] == [oa, ob];
  }

  /** Catalog entry `k` is the first entry named `name`. */
  predicate Hit(names: seq<string>, planets: seq<Planet>, k: nat, name: string)
    requires |names| == |planets| && k < |planets|
  {
    name in names && planets[FirstNamed(names, name)] == planets[k]
  }

  /** The names the catalog entries carry. */
  ghost function Names(planets: seq<Planet>): (names: seq<string>)
    reads planets
    ensures |names| == |planets| && forall k :: 0 <= k < |planets| ==> names[k] == planets[k].planetName
  {
    seq(|planets|, k requires 0 <= k < |planets| reads planets => planets[k].planetName)
  }

  /** What the merge must leave alone in a planet: every field but the
      period and the orbital radius. */
  ghost function Fixed(p: Planet): (Fields, real)
    reads p
  {
    (p.Static().(period := 0, orbitalRadius := 0.0), p.angularPosition)
  }

  /** Nothing but the period and orbital radius of `p` differs from what it
      was. */
  twostate predicate OnlyOrbitChanged(p: Planet)
    reads p
  {
    Fixed(p) == old(Fixed(p))
  }

  /** The catalog entries are named by `names`. */
  predicate NamedAs(planets: seq<Planet>, names: seq<string>)
    reads planets
  {
    |names| == |planets| && forall k :: 0 <= k < |planets| ==> planets[k].planetName == names[k]
  }

  ghost function Fixeds(planets: seq<Planet>): (f: seq<(Fields, real)>)
    reads planets
    ensures |f| == |planets| && forall k :: 0 <= k < |planets| ==> f[k] == Fixed(planets[k])
  {
    seq(|planets|, k requires 0 <= k < |planets| reads planets => Fixed(planets[k]))
  }

  ghost function Orbits(planets: seq<Planet>): (o: seq<Orbit>)
    reads planets
    ensures |o| == |planets| && forall k :: 0 <= k < |planets| ==> o[k] == OrbitOf(planets[k])
  {
    seq(|planets|, k requires 0 <= k < |planets| reads planets => OrbitOf(planets[k]))
  }

  /** Iteration `i` of the token loop on the line's planet `p`; `Some`
      carries the exception. */
  method ScanToken(p: Planet, parts: seq<string>, i: nat,
                   parseInt: string -> Option<int32>, parseReal: string -> Option<real>)
    returns (failure: Option<ScanError>)
    requires i < |parts|
    modifies p
    ensures p.planetName == parts[0]
    ensures var step := OrbitStep(parts, i, old(OrbitOf(p)), parseInt, parseReal);
            && (failure.None? <==> step.Ok?)
            && (step.Ok? ==> OrbitOf(p) == step.value)
            && (failure.Some? ==> step == Err(failure.value))
  {
    p.planetName := parts[0];
    if parts[i] == "period" {
      var v := NumberAt(parts, i + 2, parseInt);
      if v.Err? {
        return Some(v.error);
      }
      p.period := v.value;
    }
    if parts[i] == "orbital" {
      if |parts| <= i + 1 {
        return Some(MissingToken(i + 1));
      }
      if parts[i + 1] == "radius" {
        var x := NumberAt(parts, i + 3, parseReal);
        if x.Err? {
          return Some(x.error);
        }
        p.orbitalRadius := x.value;
      }
    }
    return None;
  }

  /** The write-back after each token: the first catalog planet named like
      `p`, if any, takes `p`'s period and orbital radius. */
  method CopyToFirstNamed(planets: seq<Planet>, p: Planet, ghost names: seq<string>)
    requires NamedAs(planets, names) && p !in planets
    modifies planets
    ensures forall k :: 0 <= k < |planets| ==> OnlyOrbitChanged(planets[k])
    ensures forall k :: 0 <= k < |planets| ==>
              OrbitOf(planets[k]) == if Hit(names, planets, k, p.planetName) then OrbitOf(p) else old(OrbitOf(planets[k]))
  {
    var target := FindFirst(planets, p.planetName);
    if target.Some? {
      assert p.planetName in names;
      assert target.value == FirstNamed(names, p.planetName);
      planets[target.value].period := p.period;
      planets[target.value].orbitalRadius := p.orbitalRadius;
    } else {
      assert p.planetName !in names;
    }
  }

  /** One iteration of the token loop with its write-back; on an exception
      the catalog is left as it was. */
  method LoadToken(planets: seq<Planet>, p: Planet, parts: seq<string>, i: nat,
                   parseInt: string -> Option<int32>, parseReal: string -> Option<real>, ghost names: seq<string>)
    returns (failure: Option<ScanError>)
    requires i < |parts| && NamedAs(planets, names) && p !in planets
    modifies planets, p
    ensures p.planetName == parts[0]
    ensures var step := OrbitStep(parts, i, old(OrbitOf(p)), parseInt, parseReal);
            && (failure.None? <==> step.Ok?)
            && (step.Ok? ==> OrbitOf(p) == step.value)
            && (failure.Some? ==> step == Err(failure.value))
    ensures forall k :: 0 <= k < |planets| ==> Fixed(planets[k]) == old(Fixed(planets[k]))
    ensures failure.None? ==> forall k :: 0 <= k < |planets| ==>
              OrbitOf(planets[k]) == if Hit(names, planets, k, parts[0]) then OrbitOf(p) else old(OrbitOf(planets[k]))
  {
    failure := ScanToken(p, parts, i, parseInt, parseReal);
    if failure.None? {
      CopyToFirstNamed(planets, p, names);
    }
  }

  /** The token loop over one line; `Some` carries the exception that ends
      it. */
  method LoadLine(planets: seq<Planet>, line: string, parseInt: string -> Option<int32>, parseReal: string -> Option<real>,
                  ghost names: seq<string>)
    returns (failure: Option<ScanError>)
    requires NamedAs(planets, names)
    modifies planets
    ensures forall k :: 0 <= k < |planets| ==> Fixed(planets[k]) == old(Fixed(planets[k]))
    ensures var scan := LineOrbit(line, parseInt, parseReal);
            && (failure.None? <==> scan.Ok?)
            && (failure.Some? ==> scan == Err(failure.value))
            && (scan.Ok? ==> forall k :: 0 <= k < |planets| ==>
                   OrbitOf(planets[k]) == if Hit(names, planets, k, LineName(line)) then scan.value else old(OrbitOf(planets[k])))
  {
    ghost var fixed := Fixeds(planets);
    ghost var start := Orbits(planets);
    var parts := Split(line, ' ');
    var p := new Planet.Empty();
    ghost var loop := OrbitLoop(parts, parseInt, parseReal);
    var i := 0;
    while i < |parts|
      invariant 0 <= i <= |parts|
      invariant p !in planets
      invariant Steps(loop, i, Orbit(0, 0.0)) == Ok(OrbitOf(p))
      invariant 0 < i ==> p.planetName == parts[0]
      invariant forall k :: 0 <= k < |planets| ==> Fixed(planets[k]) == fixed[k]
      invariant forall k :: 0 <= k < |planets| ==>
                  OrbitOf(planets[k]) == if 0 < i && Hit(names, planets, k, parts[0]) then OrbitOf(p) else start[k]
    {
      ghost var before := OrbitOf(p);
      assert NamedAs(planets, names);
      failure := LoadToken(planets, p, parts, i, parseInt, parseReal, names);
      assert loop(i, before) == OrbitStep(parts, i, before, parseInt, parseReal);
      if failure.Some? {
        StepsStop(loop, i, |parts|, Orbit(0, 0.0));
        return;
      }
      i := i + 1;
    }
    return None;
  }

  /** `ReturnSolarSystemInfo`, with the data file's lines given and
      `int.Parse` and `float.Parse` as parameters. After a read without
      exception every catalog planet that is the first of its name holds
      the orbital data of the last line about it, and every other planet
      what it held before; no other field changes. An exception ends the
      read with the error of the first line that throws. */
  method ReturnSolarSystemInfo(planets: seq<Planet>, lines: seq<string>,
                               parseInt: string -> Option<int32>, parseReal: string -> Option<real>)
    returns (r: Result<seq<Planet>, ScanError>)
    modifies planets
    ensures forall k :: 0 <= k < |planets| ==> OnlyOrbitChanged(planets[k])
    ensures var file := ScanFile(lines, parseInt, parseReal);
            && r.Ok? == file.Ok?
            && (r.Err? ==> r.error == file.error)
            && (r.Ok? ==> r.value == planets && forall k :: 0 <= k < |planets| ==>
                  OrbitOf(planets[k]) ==
                    Merged(lines, file.value, planets[k].planetName, Hit(Names(planets), planets, k, planets[k].planetName),
                           old(OrbitOf(planets[k]))))
  {
    ghost var names := Names(planets);
    ghost var fixed := Fixeds(planets);
    ghost var start := Orbits(planets);
    var j := 0;
    while j < |lines|
      invariant 0 <= j <= |lines|
      invariant forall k :: 0 <= k < |planets| ==> Fixed(planets[k]) == fixed[k]
      invariant ScanFile(lines[..j], parseInt, parseReal).Ok?
      invariant forall k :: 0 <= k < |planets| ==>
                  OrbitOf(planets[k]) ==
                    Merged(lines[..j], ScanFile(lines[..j], parseInt, parseReal).value, names[k],
                           Hit(names, planets, k, names[k]), start[k])
    {
      assert NamedAs(planets, names);
      var failure := LoadLine(planets, lines[j], parseInt, parseReal, names);
      if failure.Some? {
        ScanFileFails(lines, j, parseInt, parseReal);
        return Err(failure.value);
      }
      MergeLine(lines, j, parseInt, parseReal, names, planets, start);
      j := j + 1;
    }
    assert lines[..j] == lines;
    assert Names(planets) == names;
    return Ok(planets);
  }

  /** The first line that throws decides the error of the whole file. */
  lemma ScanFileFails(lines: seq<string>, j: nat, parseInt: string -> Option<int32>, parseReal: string -> Option<real>)
    requires j < |lines|
    requires ScanFile(lines[..j], parseInt, parseReal).Ok?
    requires LineOrbit(lines[j], parseInt, parseReal).Err?
    ensures ScanFile(lines, parseInt, parseReal).Err?
    ensures ScanFile(lines, parseInt, parseReal).error == LineOrbit(lines[j], parseInt, parseReal).error
    decreases |lines|
  {
    var init := lines[..|lines| - 1];
    if |lines| == j + 1 {
      assert init == lines[..j];
    } else {
      assert init[..j] == lines[..j] && init[j] == lines[j];
      ScanFileFails(init, j, parseInt, parseReal);
    }
  }

  /** The merge state after line `j`, from the state before it and the
      line's effect. */
  lemma MergeLine(lines: seq<string>, j: nat, parseInt: string -> Option<int32>, parseReal: string -> Option<real>,
                  names: seq<string>, planets: seq<Planet>, start: seq<Orbit>)
    requires j < |lines| && |names| == |planets| == |start|
    requires ScanFile(lines[..j], parseInt, parseReal).Ok? && LineOrbit(lines[j], parseInt, parseReal).Ok?
    requires forall a, b :: 0 <= a < |planets| && 0 <= b < |planets| && planets[a] == planets[b] ==> names[a] == names[b]
    ensures ScanFile(lines[..j + 1], parseInt, parseReal).Ok?
    ensures forall k :: 0 <= k < |planets| ==>
              Merged(lines[..j + 1], ScanFile(lines[..j + 1], parseInt, parseReal).value, names[k],
                     Hit(names, planets, k, names[k]), start[k]) ==
              if Hit(names, planets, k, LineName(lines[j])) then LineOrbit(lines[j], parseInt, parseReal).value
              else Merged(lines[..j], ScanFile(lines[..j], parseInt, parseReal).value, names[k],
                          Hit(names, planets, k, names[k]), start[k])
  {
    assert lines[..j + 1] == lines[..j] + [lines[j]];
    var orbits := ScanFile(lines[..j], parseInt, parseReal).value;
    var o := LineOrbit(lines[j], parseInt, parseReal).value;
    assert ScanFile(lines[..j + 1], parseInt, parseReal) == Ok(orbits + [o]);
    forall k | 0 <= k < |planets|
      ensures Merged(lines[..j + 1], orbits + [o], names[k], Hit(names, planets, k, names[k]), start[k]) ==
              if Hit(names, planets, k, LineName(lines[j])) then o
              else Merged(lines[..j], orbits, names[k], Hit(names, planets, k, names[k]), start[k])
    {
      MergedStep(lines[..j], orbits, lines[j], o, names[k], Hit(names, planets, k, names[k]), start[k]);
      if Hit(names, planets, k, LineName(lines[j])) {
        var f := FirstNamed(names, LineName(lines[j]));
        assert names[f] == names[k];
      }
    }
  }
}
