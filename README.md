# Solar system engine — a Dafny model

This project models the orbital-mechanics and mission-planning engine of the
SolarSystem console application (`SolarSystemApp/SolarSystem/Program.cs`,
class `Planet`). The engine works on a catalog of planet records, a
`List<Planet>` of mutable objects:

- It reads each planet's name, diameter and mass from a data file
  (`ReturnPlanetInfo`), computes escape velocities
  (`CalculateEscapeVelocity`), and merges periods and orbital radii from a
  second file by planet name (`ReturnSolarSystemInfo`).
- It moves the planets along circular orbits, incrementally (`Update`) or to
  an absolute time (`UpdateSolarSystem`, `SimulateSolarSystem`). Each angle
  is written back to the first planet of the same name (`List.Find`).
- It measures distances between planets (`CalculateDistanceBetweenPlanets`)
  and models a rocket journey: accelerate, cruise, decelerate (`TravelTime`,
  `CalculateDistance`, `LeaveTimeAndDistanceTraveled`).
- It searches the next ten years, day by day, for the launch day with the
  smallest distance between two chosen planets whose straight path no third
  body blocks (`WaitingTimeFreeze`, `WaitingTimeMoving`).

The model keeps the source's form:

- `Planet` is a class with the source's fields.
- The catalog is a `seq<Planet>` of those objects, so aliasing is preserved.
  The two chosen planets are the very objects of the catalog, or default
  planets outside it.
- Every loop that mutates objects is a method with a loop, proved against a
  specification function over the catalog's static data:
  - `Kinematics.Roster.SyncedAngle` for the absolute updates;
  - `WindowSpec.Scene.WindowUpTo` for the searches;
  - `Planets.ReadInfo` and `Catalog.ScanFile`/`Catalog.Merged` for the two
    readers.
- The pure arithmetic is made of functions with lemmas.

The numeric ground is as follows:

- Reals stand for `float`/`double`.
- C#'s 32-bit `int` is the `int32` newtype. Its truncating division and
  wrap-around are written out (`Numerics.Half`, `Numerics.Wrap32`).
- `%` on floats is `Numerics.Fmod360`.
- `Math.Round` is `Numerics.RoundHalfEven`.
- `Math.Sqrt`, `Math.Cos` and `Math.Sin` are parameters (`Numerics.MathLib`).
  The only facts the model uses about them are in `MathLib.Sound`: the square
  root squares back, and `cos² + sin² = 1`.

Files: `numerics.dfy`, `wrappers.dfy`, `tokens.dfy` (splitting, number
parsing, the exception-ending token loop), `planet.dfy`, `geometry.dfy`,
`physics.dfy`, `travel.dfy`, `kinematics.dfy`, `window_spec.dfy`,
`window_search.dfy`, `catalog.dfy`.

Edge cases of the code that the model keeps:

- The code keeps an absolute angle of exactly 360
  (`Kinematics.FullTurnIsKept`) and never wraps a negative incremental
  angle (`Planets.BackwardStaysNegative`).
- A zero period divides by zero; the model requires a non-zero period.
- A negative cruise distance is not clamped
  (`Travel.NegativeCruiseScenario`).

## Model

| member | source | states |
|---|---|---|
| Numerics.Wrap32 | SolarSystemApp/SolarSystem/Program.cs:101 | the 32-bit result differs from the exact one by a multiple of 2^32 and equals it when it fits |
| Numerics.Half | SolarSystemApp/SolarSystem/Program.cs:101 | `d / 2` truncates toward zero: bounds of the quotient for either sign |
| Numerics.Fmod360 | SolarSystemApp/SolarSystem/Program.cs:52 | float `%` by 360: the remainder has the sign of the operand, lies within one turn, and differs from it by whole turns |
| Numerics.Fmod360OfOneTurn | SolarSystemApp/SolarSystem/Program.cs:52 | a value already inside the first turn is left unchanged by `%` |
| Numerics.RoundHalfEven | SolarSystemApp/SolarSystem/Program.cs:220 | `Math.Round`: within 0.5 of the argument, even on a tie |
| Planets.Planet.Empty | SolarSystemApp/SolarSystem/Program.cs:27 | `new Planet()` has every field at its default |
| Planets.Planet.constructor | SolarSystemApp/SolarSystem/Program.cs:29-34 | the three-argument constructor sets name, diameter and mass and leaves the rest at defaults |
| Planets.Planet.GetPosition | SolarSystemApp/SolarSystem/Program.cs:37-43 | the drawing position lies at distance `|orbitalRadius|` from the centre |
| Planets.PositionOnOrbit | SolarSystemApp/SolarSystem/Program.cs:39-41 | a polar-to-Cartesian position lies on the circle of its radius |
| Planets.Planet.Update | SolarSystemApp/SolarSystem/Program.cs:46-54 | only `angularPosition` changes, to `Advanced` of the old angle |
| Planets.Advanced | SolarSystemApp/SolarSystem/Program.cs:49-53 | the new angle differs from `old + 360*dt/period` by whole turns and stays in [0, 360) for a forward step from [0, 360) |
| Planets.BackwardStaysNegative | SolarSystemApp/SolarSystem/Program.cs:50-53 | a backward step is never wrapped: from 0 by -1 over period 10 gives -36 |
| Planets.Planet.ReturnPlanetInfo | SolarSystemApp/SolarSystem/Program.cs:57-90 | the result is `ReadInfo` of the lines: on success the returned list is empty and the planet holds the read name, diameter and mass; otherwise the first exception; only those three fields can change |
| Planets.Planet.ReadInfoLine | SolarSystemApp/SolarSystem/Program.cs:65-86 | the token loop over one line ends in the state or the exception of `LineRead` |
| Planets.Planet.ReadInfoToken | SolarSystemApp/SolarSystem/Program.cs:69-85 | one token iteration does what `InfoStep` says, throwing exactly when it does |
| Planets.InfoStepWrites | SolarSystemApp/SolarSystem/Program.cs:69-85 | one iteration sets the name to the first token, a diameter after "diameter", and a mass after "mass" (the fixed Earth mass for "Earth:") |
| Planets.InfoLineLastWins | SolarSystemApp/SolarSystem/Program.cs:67-86 | after a line the name is its first token, the diameter follows the last "diameter", the mass follows the last "mass" or is Earth's mass for "Earth:", and a missing keyword keeps the earlier value |
| Planets.InfoLineDiameter | SolarSystemApp/SolarSystem/Program.cs:67-74 | the name and diameter half of that statement, by induction over the tokens |
| Planets.InfoLineMass | SolarSystemApp/SolarSystem/Program.cs:75-85 | the mass half of that statement, by induction over the tokens |
| Planets.ReadInfoLastName | SolarSystemApp/SolarSystem/Program.cs:63-69 | after a successful read the name is the first token of the last line |
| Planets.ReadInfoFails | SolarSystemApp/SolarSystem/Program.cs:63-87 | an exception in some line is the outcome of the whole read |
| Planets.ReadInfoNext | SolarSystemApp/SolarSystem/Program.cs:63-65 | one more line continues the read from the state the earlier lines left |
| Planets.EarthMassNeedsNoToken | SolarSystemApp/SolarSystem/Program.cs:75-80 | the line "Earth: mass" reads without error and gives Earth's mass in kilograms |
| Planets.OtherMassNeedsToken | SolarSystemApp/SolarSystem/Program.cs:81-84 | the line "Mars: mass" throws for the missing token at index 3 |
| Tokens.Split | SolarSystemApp/SolarSystem/Program.cs:65 | `String.Split(' ')` yields at least one piece and no piece contains the separator |
| Tokens.JoinSplit | SolarSystemApp/SolarSystem/Program.cs:65 | joining the pieces gives back the line |
| Tokens.SplitJoin | SolarSystemApp/SolarSystem/Program.cs:116 | pieces without the separator are exactly what splitting their join returns |
| Tokens.NumberAt | SolarSystemApp/SolarSystem/Program.cs:73 | `Parse(parts[j])` succeeds exactly when the token exists and parses; otherwise it reports an index or format error |
| Tokens.StepsStop | SolarSystemApp/SolarSystem/Program.cs:67-86 | the first exception in a token loop is the outcome of the whole loop |
| Tokens.StepsOkIff | SolarSystemApp/SolarSystem/Program.cs:117-135 | a loop succeeds exactly when every iteration succeeds from the state the earlier ones leave |
| Geometry.Distance | SolarSystemApp/SolarSystem/Program.cs:154-170 | the distance is never negative |
| Geometry.DistanceAligned | SolarSystemApp/SolarSystem/Program.cs:157-160 | equal angles give exactly `|r2 - r1|` |
| Geometry.DistanceSymmetric | SolarSystemApp/SolarSystem/Program.cs:154-170 | swapping the planets gives the same value in both branches |
| Geometry.DistanceIsEuclidean | SolarSystemApp/SolarSystem/Program.cs:154-170 | both branches equal the Euclidean distance between the two drawing positions |
| Geometry.DistanceTriangle | SolarSystemApp/SolarSystem/Program.cs:217 | the distance between two planets is at most the detour through a third |
| Geometry.AlignedScenario | SolarSystemApp/SolarSystem/Program.cs:157-160 | planets at 1 and 1.52 AU at the same angle are 0.52 AU apart |
| Physics.EffectiveMass | SolarSystemApp/SolarSystem/Program.cs:99 | "Earth:" weighs 6e24 kg; any other planet weighs its mass times 6e24 |
| Physics.RadiusMeters | SolarSystemApp/SolarSystem/Program.cs:101 | `(diameter / 2) * 1000` in `int`: exactly 1000·⌊d/2⌋ (an odd kilometre dropped), within 500 of 500·d, while it fits |
| Physics.RadiusWrapsPastLimit | SolarSystemApp/SolarSystem/Program.cs:101 | above 4294967 km the radius wraps negative; 1073741824, -1073741825 and -2147483648 km wrap to a zero radius; -2 km gives -1000 m |
| Physics.EscapeVelocity | SolarSystemApp/SolarSystem/Program.cs:95-102 | the velocity is non-negative and satisfies `v²/2 = G M / r` |
| Physics.CalculateEscapeVelocity | SolarSystemApp/SolarSystem/Program.cs:93-105 | every planet's escape velocity is `EscapeVelocity` of its name, diameter and mass; no other field changes; the same list is returned |
| Physics.EscapeVelocityMonotoneInMass | SolarSystemApp/SolarSystem/Program.cs:99-102 | a larger mass factor never lowers the escape velocity |
| Physics.EscapeVelocityAntitoneInDiameter | SolarSystemApp/SolarSystem/Program.cs:101-102 | a larger diameter never raises the escape velocity |
| Physics.EarthScenario | SolarSystemApp/SolarSystem/Program.cs:99-102 | Earth, 12742 km across, escapes at about 11186 m/s (within 1%) |
| Physics.MarsScenario | SolarSystemApp/SolarSystem/Program.cs:99-102 | Mars, 6779 km across at 0.107 Earth masses, escapes at about 5027 m/s (within 1%) |
| Physics.LeaveTimeAndDistanceTraveled | SolarSystemApp/SolarSystem/Program.cs:142-151 | time × 40 is the escape velocity; the surface distance is `v²/80`; the centre distance adds the truncated radius in metres |
| Travel.TravelProfile | SolarSystemApp/SolarSystem/Program.cs:242-254 | max ≥ min and {max, min} are the two escape velocities; each phase obeys `v = a t` and `s = v²/2a`; the three distances sum to the whole distance |
| Travel.TravelTime | SolarSystemApp/SolarSystem/Program.cs:242-254 | the total time is `AU d / hi + (hi² + 2 hi lo − lo²) / (2 a hi)` for the higher and lower escape velocities `hi`, `lo` and acceleration `a` |
| Travel.TravelTimeClosedForm | SolarSystemApp/SolarSystem/Program.cs:251-252 | cruise time plus both phase times equals that closed form |
| Travel.CruiseFeasibleIff | SolarSystemApp/SolarSystem/Program.cs:251 | the cruise distance is non-negative exactly when the distance covers both phases |
| Travel.NegativeCruiseScenario | SolarSystemApp/SolarSystem/Program.cs:251-252 | a zero distance at 40 m/s gives a cruise of -40 m and a total time of 1 s |
| Travel.TravelTimeAtLeastCruising | SolarSystemApp/SolarSystem/Program.cs:252 | the total time is never below the time at top speed |
| Travel.CalculateDistance | SolarSystemApp/SolarSystem/Program.cs:256-269 | the reported distance is `Distance` between the two planets (so non-negative), the km figure is AU × distance / 1000, the phases are `TravelProfile` over that distance, and the total time is `TravelTime` over it |
| Kinematics.AbsoluteAngle | SolarSystemApp/SolarSystem/Program.cs:322-326 | the angle is `360 t / period` up to whole turns, in [0, 360] for a forward time, and it is 360 exactly when the time is exactly one period (two or more whole turns reduce to 0) |
| Kinematics.AbsoluteAngleUnreduced | SolarSystemApp/SolarSystem/Program.cs:322 | the conversion through radians cancels to `360 t / period` |
| Kinematics.FullTurnIsKept | SolarSystemApp/SolarSystem/Program.cs:323-326 | a whole number of periods lands on 360, not 0, because only values strictly above 360 are reduced |
| Kinematics.ModesAgree | SolarSystemApp/SolarSystem/Program.cs:46-54 | `Update` from the absolute angle at t by dt gives the absolute angle at t + dt, except that an exact 360 reads 0 |
| Kinematics.FirstNamed | SolarSystemApp/SolarSystem/Program.cs:327 | the first index carrying the name |
| Kinematics.FindFirst | SolarSystemApp/SolarSystem/Program.cs:327 | the lookup finds the first planet of the name, or reports that none has it |
| Kinematics.Roster.LastTouch | SolarSystemApp/SolarSystem/Program.cs:320-328 | the last loop step that writes to an object, or -1 |
| Kinematics.Roster.AngleAfterAll | SolarSystemApp/SolarSystem/Program.cs:320-328 | after every step a member's earlier angle no longer matters |
| Kinematics.SyncedAngleUniqueNames | SolarSystemApp/SolarSystem/Program.cs:327 | with unique names the write-back is a no-op: each planet ends at the angle of its own period |
| Kinematics.DuplicateNameOverwrites | SolarSystemApp/SolarSystem/Program.cs:327 | with a repeated name the later planet's angle overwrites the earlier planet's |
| Kinematics.SetAbsoluteAngle | SolarSystemApp/SolarSystem/Program.cs:322-326 | the planet's angle becomes `AbsoluteAngle`; nothing else changes |
| Kinematics.SetAngle | SolarSystemApp/SolarSystem/Program.cs:322-327 | exactly the planets the step touches (itself and the first of its name) take its angle |
| Kinematics.SetAngles | SolarSystemApp/SolarSystem/Program.cs:320-328 | every planet ends at `SyncedAngle`; no other field changes |
| Kinematics.UpdateSolarSystem | SolarSystemApp/SolarSystem/Program.cs:318-330 | the angles become `SyncedAngle` at `days + 36500`, independent of the previous angles; the list and every other field are unchanged |
| Kinematics.SimulateSolarSystem | SolarSystemApp/SolarSystem/Program.cs:332-347 | the angles become `SyncedAngle` at `days` itself, without the 36500-day offset; the list and every other field are unchanged |
| Kinematics.UpdateTwice | SolarSystemApp/SolarSystem/Program.cs:318-330 | a second update with the same day leaves the angles of the first |
| WindowSpec.Pick | SolarSystemApp/SolarSystem/Program.cs:176-198 | the result day is 0 or an accepted day whose distance is the smallest; 0 means the bound 1e15 was kept |
| WindowSpec.PickIsMinimum | SolarSystemApp/SolarSystem/Program.cs:180-190 | no accepted day is closer than the result |
| WindowSpec.PickEarliest | SolarSystemApp/SolarSystem/Program.cs:180 | every accepted day before the result is strictly farther, so the first day of the minimum is kept |
| WindowSpec.PickZeroIffNone | SolarSystemApp/SolarSystem/Program.cs:174-198 | the result is 0 exactly when no accepted day comes below 1e15 |
| WindowSpec.PickNeverIncreases | SolarSystemApp/SolarSystem/Program.cs:180-188 | the smallest distance never increases |
| WindowSpec.FirstDecidesIff | SolarSystemApp/SolarSystem/Program.cs:182-196 | the freeze scan accepts exactly when the first body not skipped is off the path |
| WindowSpec.AnyClearWitness | SolarSystemApp/SolarSystem/Program.cs:223-231 | a passing sample names a body that passes the test |
| WindowSpec.TicksFromWitness | SolarSystemApp/SolarSystem/Program.cs:220-232 | a hit in the sampling names its sample day and body |
| WindowSpec.ItemScanWitness | SolarSystemApp/SolarSystem/Program.cs:213-235 | a day the moving search accepts has a sample day and a non-chosen body that passes the test |
| WindowSpec.MovingIntendedWitness | SolarSystemApp/SolarSystem/Program.cs:203-240 | with the intended test, a non-zero result day has a sample at which a third body is off the path |
| WindowSpec.AsWrittenScanIdle | SolarSystemApp/SolarSystem/Program.cs:217 | by the triangle inequality, the written test passes no body |
| WindowSpec.MovingAsWrittenNeverAccepts | SolarSystemApp/SolarSystem/Program.cs:203-240 | as written, `WaitingTimeMoving` always returns 0 |
| WindowSpec.LineSceneFacts | SolarSystemApp/SolarSystem/Program.cs:217-220 | in a three-body line the path is 1 AU, the detour 7 AU, and a journey takes at least two samples |
| WindowSpec.MovingScenario | SolarSystemApp/SolarSystem/Program.cs:203-240 | on that line the intended test accepts day 1 and the written one accepts nothing |
| WindowSpec.UniformPeriodsAlign | SolarSystemApp/SolarSystem/Program.cs:322 | equal periods give equal angles |
| WindowSearch.SelectPlanet | SolarSystemApp/SolarSystem/Program.cs:280-292 | the selected body is the last catalog planet named `input + ":"` (no earlier match wins, as the loop has no `break`), or a new default planet when none has that name |
| WindowSearch.MoveTo | SolarSystemApp/SolarSystem/Program.cs:178 | after `UpdateSolarSystem(planets, s)` the objects show day `s`, including chosen planets inside the catalog |
| WindowSearch.GapAt | SolarSystemApp/SolarSystem/Program.cs:179 | the distance measured on the objects is the scene's distance of the day |
| WindowSearch.ViaAt | SolarSystemApp/SolarSystem/Program.cs:184-186 | the detour measured on the objects and the name test are the scene's |
| WindowSearch.WaitingTimeFreeze | SolarSystemApp/SolarSystem/Program.cs:172-201 | the result is the `Freeze` search over 3650 days (by `Pick`, a day in [0, 3650]); the catalog is left at day 3650 |
| WindowSearch.FreezeStep | SolarSystemApp/SolarSystem/Program.cs:177-197 | one day extends the search result by that day |
| WindowSearch.FreezeDay | SolarSystemApp/SolarSystem/Program.cs:182-196 | the scan takes the day exactly when `FreezeClear` holds, stopping at the first body on the path |
| WindowSearch.WaitingTimeMoving | SolarSystemApp/SolarSystem/Program.cs:203-240 | the result is the `Moving` search over 3650 days, always an outer day `i`; the catalog is left where the last sampling moved it |
| WindowSearch.MovingStep | SolarSystemApp/SolarSystem/Program.cs:208-236 | one day extends the search result by that day |
| WindowSearch.MovingDay | SolarSystemApp/SolarSystem/Program.cs:213-235 | the day's scan is `ItemScan`: take the day if some sampling hits; the catalog is left at the scan's last position |
| WindowSearch.MovingItem | SolarSystemApp/SolarSystem/Program.cs:215-234 | one body of the scan advances `ItemScan` by one body |
| WindowSearch.SampleJourney | SolarSystemApp/SolarSystem/Program.cs:219-233 | samples 1 to the rounded journey length; take the day exactly when some sample hits; the catalog is left at the last sample |
| WindowSearch.SampleDay | SolarSystemApp/SolarSystem/Program.cs:223-232 | one sample takes the day exactly when some non-chosen body passes the test |
| WindowSearch.TicksFromExtend | SolarSystemApp/SolarSystem/Program.cs:220-232 | sampling one more day hits when the earlier samples or the new one do |
| Catalog.OrbitStepWrites | SolarSystemApp/SolarSystem/Program.cs:119-127 | a token throws exactly when it is unreadable; it sets the period after "period" and the radius after "orbital radius" |
| Catalog.ScanLineOkIff | SolarSystemApp/SolarSystem/Program.cs:117-127 | a line reads without exception exactly when every token is readable |
| Catalog.ScanLineLastWins | SolarSystemApp/SolarSystem/Program.cs:117-127 | a line's period and radius follow the last "period" and "orbital radius", or are 0 from the fresh planet |
| Catalog.RenderedLineReadsBack | SolarSystemApp/SolarSystem/Program.cs:116-127 | the line "Name period = P orbital radius = R" reads back as P and R, about Name |
| Catalog.ScanFile | SolarSystemApp/SolarSystem/Program.cs:113-136 | the file reads when every line does, giving each line's data; otherwise it gives the error of the first failing line |
| Catalog.LastLineFor | SolarSystemApp/SolarSystem/Program.cs:129 | the last line about a name, or -1 |
| Catalog.MergedStep | SolarSystemApp/SolarSystem/Program.cs:129-134 | one more line changes only the first planet of that line's name |
| Catalog.BareLineResets | SolarSystemApp/SolarSystem/Program.cs:115-134 | a later line with only the name resets the planet's period and radius to 0 |
| Catalog.ScanFileFails | SolarSystemApp/SolarSystem/Program.cs:113-136 | the first failing line decides the file's error |
| Catalog.MergeLine | SolarSystemApp/SolarSystem/Program.cs:128-134 | the merge state after line j follows from the state before it and line j's effect |
| Catalog.ScanToken | SolarSystemApp/SolarSystem/Program.cs:119-127 | one token on the fresh planet does what `OrbitStep` says, throwing exactly when it does |
| Catalog.CopyToFirstNamed | SolarSystemApp/SolarSystem/Program.cs:129-134 | only the first catalog planet of the name takes the period and radius |
| Catalog.LoadToken | SolarSystemApp/SolarSystem/Program.cs:119-134 | one token and its write-back; the catalog is untouched when the token throws |
| Catalog.LoadLine | SolarSystemApp/SolarSystem/Program.cs:115-135 | one line gives `LineOrbit` or its exception; after a full line, the first planet of the line's name holds that line's data |
| Catalog.ReturnSolarSystemInfo | SolarSystemApp/SolarSystem/Program.cs:108-139 | the outcome is `ScanFile`'s; on success each first-of-its-name planet holds the last line about it and the others keep their data; only period and orbital radius ever change |

## Left out

- File and console I/O are not modelled:
  - `StreamReader` is replaced by the lines given as a sequence.
  - `int.Parse` and `float.Parse` are parameters. A parser returns `None`
    where the source would raise `FormatException` or `OverflowException`.
  - `Console.WriteLine`/`ReadLine` output is dropped.
- The report strings and their `Math.Round` formatting are left out. Only
  the numbers behind them are modelled (`Physics.Departure`,
  `Travel.Report`).
- Floating point is not modelled: rounding to `float`/`double`, the casts,
  and infinities or NaN from a division by zero. Reals are exact, and the
  constants `6.67e-11`, `6e24`, `149597870700` and π are exact reals.
- `Math.Pow(x, 2)` is `x * x`.
- `Color`, `Size`, `timeFromSurface` and `distanceFromSurface` are not
  modelled. No core operation reads them.
- `OptimalWindow`, `JourneyPlanning` and `Main` are not part of this model.
  They are interactive: console selection, then calls to the modelled
  operations. The selection loop itself is `WindowSearch.SelectPlanet`; the
  console reads, the printing and the calls that follow are left out.
- The SolarSystemForm and React front ends are not part of this model.
- A `null` name (a default `Planet`) is the empty string.
- Planets.Planet.Update: requires a non-zero period. The source's float
  division would give an infinite or NaN angle.
- Kinematics.UpdateSolarSystem: `Roster.Valid` requires every period to be
  non-zero, for the same reason. The same holds for
  `Kinematics.SimulateSolarSystem` and both searches.
- Physics.CalculateEscapeVelocity: requires every radius to be non-zero.
  Diameters of -1, 0 and 1 km, and ±1073741824, ±1073741825 and
  -2147483648 km (whose product wraps to 0), would divide by zero
  (`Physics.RadiusWrapsPastLimit` shows three of them).
- WindowSearch.WaitingTimeMoving: differs from the source in three ways:
  - It requires a non-zero higher escape velocity, because `TravelTime`
    divides by it once a body passes the test. Under the written `>` test
    that call is never reached in exact arithmetic, so this also excludes
    two default endpoints (escape velocity 0), which the source survives.
    The requirement is kept because float rounding near collinear bodies
    can let the written test pass and then divide by zero, and because the
    method's contract does not assume `MathLib.Sound`.
  - It takes the blocking test as a `Rule` parameter. `AsWritten` is the
    source's `>`; `Intended` is the corrected test (see Findings).
  - It returns the day as a real. That is the `float` the source returns.
- Planets.Planet.ReturnPlanetInfo: on an exception, the contract states
  the error but not the name, diameter and mass already written by the
  lines before it.
- Catalog.ReturnSolarSystemInfo: on an exception, the contract states the
  error and that nothing but period and orbital radius changed. It does not
  state the orbital data already copied before the exception.
- WindowSearch.WaitingTimeFreeze: returns the day as an `int32` without
  the `Console.WriteLine` of the result.

## Findings

| source | as written | input that shows it | evidently intended | confidence | as-written member | corrected member |
|---|---|---|---|---|---|---|
| SolarSystemApp/SolarSystem/Program.cs:217 | a third body counts as off the path when `distance > d(p1, b) + d(p2, b)`; the same test recurs at line 227 | any catalog: by the triangle inequality the path is never longer than the detour, so the scan never samples and the search returns 0 days; bodies in a line at 1, 2 and 5 AU give a 1 AU path and a 7 AU detour | `distance < d(p1, b) + d(p2, b)`: the body lies off the straight path | high; not executed | WindowSpec.MovingAsWrittenNeverAccepts | WindowSpec.MovingIntendedWitness |
