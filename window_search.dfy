/** The two launch-window searches as the source runs them: loops that move
    the catalog day by day with `UpdateSolarSystem` and measure distances on
    the objects, proved to compute what `WindowSpec` defines. */
module WindowSearch {
  import opened Numerics
  import opened Planets
  import opened Geometry
  import opened Travel
  import opened Kinematics
  import opened WindowSpec

  /** A chosen body as the search finds it when it starts. */
  function EndpointOf(p: Planet): (e: Endpoint)
    reads p
    ensures e.body == p && e.name == p.planetName && e.radius == p.orbitalRadius
    ensures e.angle0 == p.angularPosition && e.speed == p.escapeVelocity
  {
    Endpoint(p, p.planetName, p.orbitalRadius, p.angularPosition, p.escapeVelocity)
  }

  /** The selection loop that picks a chosen body for one typed name: the
      loop has no `break`, so the last catalog planet named `input + ":"`
      wins, and a new default planet stands in when no planet has the name.
      The source runs it for both names in one loop; the two selections do
      not interfere. */
  method SelectPlanet(planets: seq<Planet>, input: string) returns (p: Planet)
    ensures (forall k :: 0 <= k < |planets| ==> planets[k].planetName != input + ":") ==>
              fresh(p) && p.Static() == Fields("", 0, 0.0, 0.0, 0, 0.0) && p.angularPosition == 0.0
    ensures (exists k :: 0 <= k < |planets| && planets[k].planetName == input + ":") ==>
              exists k :: 0 <= k < |planets| && p == planets[k] && planets[k].planetName == input + ":" &&
                          forall j :: k < j < |planets| ==> planets[j].planetName != input + ":"
  {
    var target := input + ":";
    p := new Planet.Empty();
    ghost var at := -1;
    var i := 0;
    while i < |planets|
      invariant 0 <= i <= |planets| && -1 <= at < i
      invariant at == -1 ==> fresh(p) && p.Static() == Fields("", 0, 0.0, 0.0, 0, 0.0) && p.angularPosition == 0.0
      invariant at == -1 ==> forall j :: 0 <= j < i ==> planets[j].planetName != target
      invariant 0 <= at ==> p == planets[at] && planets[at].planetName == target
      invariant 0 <= at ==> forall j :: at < j < i ==> planets[j].planetName != target
    {
      if planets[i].planetName == target {
        p := planets[i];
        at := i;
      }
      i := i + 1;
    }
  }

  /** `p1` and `p2` are the scene's chosen bodies and still hold its data;
      one outside the catalog still has its starting angle. */
  ghost predicate Chosen(sc: Scene, p1: Planet, p2: Planet)
    reads p1, p2
    requires sc.Valid()
  {
    && p1 == sc.e1.body && p2 == sc.e2.body
    && p1.planetName == sc.e1.name && p1.orbitalRadius == sc.e1.radius && p1.escapeVelocity == sc.e1.speed
    && p2.planetName == sc.e2.name && p2.orbitalRadius == sc.e2.radius && p2.escapeVelocity == sc.e2.speed
    && (p1 !in sc.roster.bodies ==> p1.angularPosition == sc.e1.angle0)
    && (p2 !in sc.roster.bodies ==> p2.angularPosition == sc.e2.angle0)
  }

  /** The objects show the scene on day `s`. */
  ghost predicate At(sc: Scene, planets: seq<Planet>, p1: Planet, p2: Planet, s: real)
    reads planets, p1, p2
    requires sc.Valid()
  {
    && sc.roster.Describes(planets)
    && Chosen(sc, p1, p2)
    && (forall k :: 0 <= k < |planets| ==> planets[k].angularPosition == sc.roster.SyncedAngle(planets[k], s + Epoch))
    && p1.angularPosition == sc.Angle(sc.e1, s)
    && p2.angularPosition == sc.Angle(sc.e2, s)
  }

  /** `UpdateSolarSystem(planets, s)` as the searches call it: afterwards
      the objects show day `s`. */
  method MoveTo(planets: seq<Planet>, p1: Planet, p2: Planet, s: real, ghost sc: Scene)
    requires sc.Valid() && sc.roster.Describes(planets) && Chosen(sc, p1, p2)
    modifies planets
    ensures At(sc, planets, p1, p2, s)
  {
    var _ := UpdateSolarSystem(planets, s, sc.roster);
    if p1 in planets {
      var k :| 0 <= k < |planets| && planets[k] == p1;
      assert p1.Static() == old(p1.Static());
    }
    if p2 in planets {
      var k :| 0 <= k < |planets| && planets[k] == p2;
      assert p2.Static() == old(p2.Static());
    }
  }

  /** On day `s` the distance the code measures between the chosen bodies
      is the scene's. */
  lemma GapAt(sc: Scene, planets: seq<Planet>, p1: Planet, p2: Planet, s: real)
    requires sc.Valid() && At(sc, planets, p1, p2, s)
    ensures Distance(sc.m, p1.orbitalRadius, p1.angularPosition, p2.orbitalRadius, p2.angularPosition) == sc.Gap(s)
  {
  }

  /** On day `s` the detour the code measures through entry `k` is the
      scene's. */
  lemma ViaAt(sc: Scene, planets: seq<Planet>, p1: Planet, p2: Planet, s: real, k: nat)
    requires sc.Valid() && At(sc, planets, p1, p2, s) && k < |planets|
    ensures Distance(sc.m, p1.orbitalRadius, p1.angularPosition, planets[k].orbitalRadius, planets[k].angularPosition)
            + Distance(sc.m, p2.orbitalRadius, p2.angularPosition, planets[k].orbitalRadius, planets[k].angularPosition)
            == sc.Via(s, k)
    ensures (planets[k].planetName == p1.planetName || planets[k].planetName == p2.planetName) == sc.IsEndpoint(k)
  {
  }

  /** `WaitingTimeFreeze`: the first day of the next ten years with the
      smallest distance between `p1` and `p2` among the days whose first
      catalog entry other than them is off the straight path. The catalog is
      left at the last day. */
  method WaitingTimeFreeze(m: MathLib, planets: seq<Planet>, p1: Planet, p2: Planet, ghost r: Roster)
    returns (waitingTime: int32)
    requires r.Valid() && r.Describes(planets)
    modifies planets
    ensures var sc := Scene(m, r, old(EndpointOf(p1)), old(EndpointOf(p2)));
            && waitingTime as int == sc.WindowUpTo(Freeze, Horizon).waiting
            && At(sc, planets, p1, p2, Horizon as real)
  {
    ghost var sc := Scene(m, r, old(EndpointOf(p1)), old(EndpointOf(p2)));
    waitingTime := 0;
    var smallestDistance := InitialSmallest;
    var i := 1;
    while i <= 10 * 365
      invariant 1 <= i <= Horizon + 1
      invariant r.Describes(planets) && Chosen(sc, p1, p2)
      invariant 1 < i ==> At(sc, planets, p1, p2, (i - 1) as real)
      invariant Best(smallestDistance, waitingTime as int) == sc.WindowUpTo(Freeze, i - 1)
    {
      smallestDistance, waitingTime := FreezeStep(m, planets, p1, p2, i, smallestDistance, waitingTime, sc);
      i := i + 1;
    }
    assert i - 1 == Horizon;
    assert waitingTime as int == sc.WindowUpTo(Freeze, Horizon).waiting;
    assert At(sc, planets, p1, p2, Horizon as real);
  }

  /** One day of `WaitingTimeFreeze`: move the catalog, measure, and scan
      when the day is closer than the best one so far. */
  method FreezeStep(m: MathLib, planets: seq<Planet>, p1: Planet, p2: Planet, i: int,
                    smallest: real, waiting: int32, ghost sc: Scene)
    returns (smallest': real, waiting': int32)
    requires sc.Valid() && sc.m == m && 1 <= i <= Horizon
    requires sc.roster.Describes(planets) && Chosen(sc, p1, p2)
    requires Best(smallest, waiting as int) == sc.WindowUpTo(Freeze, i - 1)
    modifies planets
    ensures Best(smallest', waiting' as int) == sc.WindowUpTo(Freeze, i)
    ensures At(sc, planets, p1, p2, i as real)
  {
    smallest', waiting' := smallest, waiting;
    MoveTo(planets, p1, p2, i as real, sc);
    var distance := Distance(m, p1.orbitalRadius, p1.angularPosition, p2.orbitalRadius, p2.angularPosition);
    GapAt(sc, planets, p1, p2, i as real);
    WindowStep(sc, Freeze, i);
    if distance < smallest' {
      smallest', waiting' := FreezeDay(m, planets, p1, p2, i, distance, smallest', waiting', sc);
    }
  }

  /** The scan of one day in `WaitingTimeFreeze`: skips the chosen bodies,
      accepts the day at every entry off the path and stops at the first
      one on it. */
  method FreezeDay(m: MathLib, planets: seq<Planet>, p1: Planet, p2: Planet, i: int, distance: real,
                   smallest: real, waiting: int32, ghost sc: Scene)
    returns (smallest': real, waiting': int32)
    requires sc.Valid() && sc.m == m && 1 <= i <= Horizon
    requires At(sc, planets, p1, p2, i as real) && distance == sc.Gap(i as real)
    ensures Best(smallest', waiting' as int) ==
            if sc.FreezeClear(i as real) then Best(distance, i) else Best(smallest, waiting as int)
  {
    smallest', waiting' := smallest, waiting;
    ghost var skip, off := sc.Skip(), sc.OffPath(i as real);
    var k := 0;
    ghost var decided := false;
    while k < |planets|
      invariant 0 <= k <= |planets|
      invariant decided ==> Best(smallest', waiting' as int) == Best(distance, i) && sc.FreezeClear(i as real)
      invariant !decided ==> Best(smallest', waiting' as int) == Best(smallest, waiting as int)
      invariant !decided ==> sc.FreezeClear(i as real) == FirstDecides(skip, off, k, |planets|)
    {
      var item := planets[k];
      ViaAt(sc, planets, p1, p2, i as real, k);
      assert FirstDecides(skip, off, k, |planets|) ==
             if skip(k) then FirstDecides(skip, off, k + 1, |planets|) else off(k);
      if item.planetName == p1.planetName || item.planetName == p2.planetName {
        assert skip(k);
        k := k + 1;
        continue;
      } else if distance != Distance(m, p1.orbitalRadius, p1.angularPosition, item.orbitalRadius, item.angularPosition)
                            + Distance(m, p2.orbitalRadius, p2.angularPosition, item.orbitalRadius, item.angularPosition) {
        assert !skip(k) && off(k);
        smallest', waiting' := distance, i as int32;
        decided := true;
      } else {
        assert !skip(k) && !off(k);
        break;
      }
      k := k + 1;
    }
  }

  /** `WaitingTimeMoving` (the result is the day, as a float): like the
      freeze search, but a day is accepted when some sample of the journey
      finds a body passing `rule`. `AsWritten` is the source's test. The
      catalog is left at the last day the search moved it to. */
  method WaitingTimeMoving(m: MathLib, planets: seq<Planet>, p1: Planet, p2: Planet, rule: Rule, ghost r: Roster)
    returns (waiting: real)
    requires r.Valid() && r.Describes(planets)
    requires MaxVelocity(p1.escapeVelocity, p2.escapeVelocity) != 0.0
    modifies planets
    ensures var sc := Scene(m, r, old(EndpointOf(p1)), old(EndpointOf(p2)));
            && waiting == sc.WindowUpTo(Moving(rule), Horizon).waiting as real
            && At(sc, planets, p1, p2, sc.MovingSync(rule, Horizon))
  {
    ghost var sc := Scene(m, r, old(EndpointOf(p1)), old(EndpointOf(p2)));
    var waitingTime: int32 := 0;
    var smallestDistance := InitialSmallest;
    var i := 1;
    while i <= 10 * 365
      invariant 1 <= i <= Horizon + 1
      invariant r.Describes(planets) && Chosen(sc, p1, p2)
      invariant 1 < i ==> At(sc, planets, p1, p2, sc.MovingSync(rule, i - 1))
      invariant Best(smallestDistance, waitingTime as int) == sc.WindowUpTo(Moving(rule), i - 1)
    {
      smallestDistance, waitingTime := MovingStep(m, planets, p1, p2, rule, i, smallestDistance, waitingTime, sc);
      i := i + 1;
    }
    waiting := waitingTime as real;
    assert i - 1 == Horizon;
    assert waitingTime as int == sc.WindowUpTo(Moving(rule), Horizon).waiting;
    assert At(sc, planets, p1, p2, sc.MovingSync(rule, Horizon));
  }

  /** One day of `WaitingTimeMoving`: move the catalog, measure, and scan
      when the day is closer than the best one so far. */
  method MovingStep(m: MathLib, planets: seq<Planet>, p1: Planet, p2: Planet, rule: Rule, i: int,
                    smallest: real, waiting: int32, ghost sc: Scene)
    returns (smallest': real, waiting': int32)
    requires sc.CanSearch(Moving(rule)) && sc.m == m && 1 <= i <= Horizon
    requires sc.roster.Describes(planets) && Chosen(sc, p1, p2)
    requires Best(smallest, waiting as int) == sc.WindowUpTo(Moving(rule), i - 1)
    modifies planets
    ensures Best(smallest', waiting' as int) == sc.WindowUpTo(Moving(rule), i)
    ensures At(sc, planets, p1, p2, sc.MovingSync(rule, i))
  {
    smallest', waiting' := smallest, waiting;
    MoveTo(planets, p1, p2, i as real, sc);
    var distance := Distance(m, p1.orbitalRadius, p1.angularPosition, p2.orbitalRadius, p2.angularPosition);
    GapAt(sc, planets, p1, p2, i as real);
    ghost var sync := i as real;
    if distance < smallest' {
      smallest', waiting' := MovingDay(m, planets, p1, p2, rule, i, distance, smallest', waiting', sc);
      sync := sc.ItemScan(rule, distance, 0, Sweep(i as real, false)).sync;
    }
    assert sc.MovingSync(rule, i) == sync;
    assert At(sc, planets, p1, p2, sync);
    WindowStep(sc, Moving(rule), i);
  }

  /** The scan of one day in `WaitingTimeMoving`: every entry other than
      the chosen bodies that passes `rule` where the catalog stands starts a
      sampling of the journey. */
  method MovingDay(m: MathLib, planets: seq<Planet>, p1: Planet, p2: Planet, rule: Rule, i: int, distance: real,
                   smallest: real, waiting: int32, ghost sc: Scene)
    returns (smallest': real, waiting': int32)
    requires sc.Valid() && sc.m == m && 1 <= i <= Horizon
    requires MaxVelocity(sc.e1.speed, sc.e2.speed) != 0.0
    requires At(sc, planets, p1, p2, i as real) && distance == sc.Gap(i as real)
    modifies planets
    ensures var sw := sc.ItemScan(rule, distance, 0, Sweep(i as real, false));
            && Best(smallest', waiting' as int) == (if sw.hit then Best(distance, i) else Best(smallest, waiting as int))
            && At(sc, planets, p1, p2, sw.sync)
  {
    smallest', waiting' := smallest, waiting;
    ghost var base := Best(smallest, waiting as int);
    ghost var sw := Sweep(i as real, false);
    var k := 0;
    while k < |planets|
      invariant 0 <= k <= |planets|
      invariant At(sc, planets, p1, p2, sw.sync)
      invariant sc.ItemScan(rule, distance, 0, Sweep(i as real, false)) == sc.ItemScan(rule, distance, k, sw)
      invariant Best(smallest', waiting' as int) == if sw.hit then Best(distance, i) else base
    {
      smallest', waiting', sw := MovingItem(m, planets, p1, p2, rule, i, distance, k, smallest', waiting', sc, base, sw);
      k := k + 1;
    }
  }

  /** Entry `k` of the scan of one day in `WaitingTimeMoving`. */
  method MovingItem(m: MathLib, planets: seq<Planet>, p1: Planet, p2: Planet, rule: Rule, i: int, distance: real, k: int,
                    smallest: real, waiting: int32, ghost sc: Scene, ghost base: Best, ghost sw: Sweep)
    returns (smallest': real, waiting': int32, ghost sw': Sweep)
    requires sc.Valid() && sc.m == m && 1 <= i <= Horizon
    requires MaxVelocity(sc.e1.speed, sc.e2.speed) != 0.0
    requires 0 <= k < |planets| && At(sc, planets, p1, p2, sw.sync) && distance == sc.Gap(i as real)
    requires Best(smallest, waiting as int) == if sw.hit then Best(distance, i) else base
    modifies planets
    ensures sc.ItemScan(rule, distance, k, sw) == sc.ItemScan(rule, distance, k + 1, sw')
    ensures At(sc, planets, p1, p2, sw'.sync)
    ensures Best(smallest', waiting' as int) == if sw'.hit then Best(distance, i) else base
  {
    smallest', waiting', sw' := smallest, waiting, sw;
    var item := planets[k];
    ViaAt(sc, planets, p1, p2, sw.sync, k);
    if item.planetName == p1.planetName || item.planetName == p2.planetName {
    } else if Clear(rule, distance, Distance(m, p1.orbitalRadius, p1.angularPosition, item.orbitalRadius, item.angularPosition)
                                    + Distance(m, p2.orbitalRadius, p2.angularPosition, item.orbitalRadius, item.angularPosition)) {
      assert Clear(rule, distance, sc.Via(sw.sync, k));
      var travelTime := TravelTime(distance, p1.escapeVelocity, p2.escapeVelocity);
      smallest', waiting' := SampleJourney(m, planets, p1, p2, rule, i, distance, travelTime, smallest', waiting', sc, sw.sync);
      ghost var last := sc.Ticks(distance);
      sw' := Sweep(if 1 <= last then last as real else sw.sync, sw.hit || sc.TicksFrom(rule, distance, 1, last));
    } else {
      assert !Clear(rule, distance, sc.Via(sw.sync, k));
    }
  }

  /** The sampling loop: moves the catalog to each sample day 1, 2, ... up
      to the journey's travel time in units of 97920 s, rounded, and accepts the
      day when an entry passes `rule` there. */
  method SampleJourney(m: MathLib, planets: seq<Planet>, p1: Planet, p2: Planet, rule: Rule, i: int, distance: real,
                       travelTime: real, smallest: real, waiting: int32, ghost sc: Scene, ghost s: real)
    returns (smallest': real, waiting': int32)
    requires sc.Valid() && sc.m == m && 1 <= i <= Horizon
    requires MaxVelocity(sc.e1.speed, sc.e2.speed) != 0.0
    requires travelTime == TravelTime(distance, sc.e1.speed, sc.e2.speed)
    requires At(sc, planets, p1, p2, s)
    modifies planets
    ensures var last := sc.Ticks(distance);
            && Best(smallest', waiting' as int) ==
               (if sc.TicksFrom(rule, distance, 1, last) then Best(distance, i) else Best(smallest, waiting as int))
            && At(sc, planets, p1, p2, if 1 <= last then last as real else s)
  {
    smallest', waiting' := smallest, waiting;
    ghost var last := sc.Ticks(distance);
    assert last == RoundHalfEven(travelTime / TickSeconds);
    ghost var shown := s;
    var j := 1;
    while j <= RoundHalfEven(travelTime / TickSeconds)
      invariant 1 <= j && (j <= last + 1 || j == 1)
      invariant shown == if 1 < j then (j - 1) as real else s
      invariant At(sc, planets, p1, p2, shown)
      invariant Best(smallest', waiting' as int) ==
                if sc.TicksFrom(rule, distance, 1, j - 1) then Best(distance, i) else Best(smallest, waiting as int)
    {
      MoveTo(planets, p1, p2, j as real, sc);
      smallest', waiting' := SampleDay(m, planets, p1, p2, rule, i, distance, smallest', waiting', sc, j);
      TicksFromExtend(sc, rule, distance, 1, j);
      shown := j as real;
      j := j + 1;
    }
    if last < 1 {
      assert j == 1;
      assert !sc.TicksFrom(rule, distance, 1, last);
    } else {
      assert j - 1 == last;
    }
  }

  /** One sample of the journey: accepts the day when some entry other
      than the chosen bodies passes `rule` on sample day `j`. */
  method SampleDay(m: MathLib, planets: seq<Planet>, p1: Planet, p2: Planet, rule: Rule, i: int, distance: real,
                   smallest: real, waiting: int32, ghost sc: Scene, j: int)
    returns (smallest': real, waiting': int32)
    requires sc.Valid() && sc.m == m && 1 <= i <= Horizon
    requires At(sc, planets, p1, p2, j as real)
    ensures Best(smallest', waiting' as int) ==
            if sc.AnyClear(rule, distance, j as real, 0) then Best(distance, i) else Best(smallest, waiting as int)
  {
    smallest', waiting' := smallest, waiting;
    var k := 0;
    ghost var hit := false;
    while k < |planets|
      invariant 0 <= k <= |planets|
      invariant sc.AnyClear(rule, distance, j as real, 0) == (hit || sc.AnyClear(rule, distance, j as real, k))
      invariant Best(smallest', waiting' as int) == if hit then Best(distance, i) else Best(smallest, waiting as int)
    {
      var item1 := planets[k];
      ViaAt(sc, planets, p1, p2, j as real, k);
      assert sc.AnyClear(rule, distance, j as real, k) ==
             ((!sc.IsEndpoint(k) && Clear(rule, distance, sc.Via(j as real, k))) || sc.AnyClear(rule, distance, j as real, k + 1));
      if item1.planetName == p1.planetName || item1.planetName == p2.planetName {
      } else if Clear(rule, distance, Distance(m, p1.orbitalRadius, p1.angularPosition, item1.orbitalRadius, item1.angularPosition)
                                      + Distance(m, p2.orbitalRadius, p2.angularPosition, item1.orbitalRadius, item1.angularPosition)) {
        smallest', waiting' := distance, i as int32;
        hit := true;
      }
      k := k + 1;
    }
  }

  /** One more day of a search. */
  lemma WindowStep(sc: Scene, search: Search, n: nat)
    requires sc.CanSearch(search) && 1 <= n
    ensures var b := sc.WindowUpTo(search, n - 1);
            sc.WindowUpTo(search, n) ==
              if sc.Gap(n as real) < b.smallest && sc.Accepts(search, n) then Best(sc.Gap(n as real), n) else b
  {
  }

  /** Sampling up to day `b` hits when sampling up to `b - 1` does or day
      `b` does. */
  lemma {:induction false} TicksFromExtend(sc: Scene, rule: Rule, gap: real, a: int, b: int)
    requires sc.Valid() && a <= b
    ensures sc.TicksFrom(rule, gap, a, b) == (sc.TicksFrom(rule, gap, a, b - 1) || sc.AnyClear(rule, gap, b as real, 0))
    decreases b - a
  {
    if a < b {
      TicksFromExtend(sc, rule, gap, a + 1, b);
    }
  }
}
