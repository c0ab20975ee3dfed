/** What the two launch-window searches compute (`WaitingTimeFreeze` and
    `WaitingTimeMoving`), as definitions over the catalog's static data.

    Both searches step through the next ten years one day at a time, move
    the catalog to that day, and keep the first day with the smallest
    distance between the two chosen bodies among the days whose straight
    path the other bodies do not block. They differ in the blocking test. */
module WindowSpec {
  import opened Numerics
  import opened Planets
  import opened Geometry
  import opened Travel
  import opened Kinematics

  /** Ten years of days. */
  const Horizon: nat := 3650
  /** The smallest distance before any day is accepted, `1e15` AU. */
  const InitialSmallest: real := 1000000000000000.0
  /** The unit, in seconds, in which the moving search counts the journey's
      samples: `68 * 60 * 24`, i.e. 68 times 24 minutes, about 1.13 days. */
  const TickSeconds: real := 97920.0

  /** One of the two chosen bodies: the object, and the name, orbital
      radius, starting angle and escape velocity it holds. The object need
      not be in the catalog; then its angle never changes. */
  datatype Endpoint = Endpoint(body: Planet, name: string, radius: real, angle0: real, speed: real)

  /** The moving search's blocking test: as written a body counts as off
      the path when the path is longer than the detour through it, which
      the triangle inequality rules out; the evident intent is shorter. */
  datatype Rule = AsWritten | Intended

  predicate Clear(rule: Rule, gap: real, via: real) {
    match rule
    case AsWritten => gap > via
    case Intended => gap < via
  }

  datatype Search = Freeze | Moving(rule: Rule)

  /** The search's running result: smallest distance and the day it fell on. */
  datatype Best = Best(smallest: real, waiting: int)

  /** The moving search's position in time (the day the catalog was last
      moved to) and whether some sample cleared the path. */
  datatype Sweep = Sweep(sync: real, hit: bool)

  /** The catalog's static data, the two chosen bodies and the foreign
      numerics: everything a search result depends on. */
  datatype Scene = Scene(m: MathLib, roster: Roster, e1: Endpoint, e2: Endpoint) {

    predicate Valid() {
      roster.Valid()
    }

    /** The moving search divides by the higher escape velocity. */
    predicate CanSearch(search: Search) {
      Valid() && (search.Moving? ==> MaxVelocity(e1.speed, e2.speed) != 0.0)
    }

    /** The angle of a chosen body once the catalog was moved to day `s`. */
    function Angle(e: Endpoint, s: real): real
      requires Valid()
    {
      if e.body in roster.bodies then roster.SyncedAngle(e.body, s + Epoch) else e.angle0
    }

    /** The distance between the two chosen bodies on day `s`. */
    function Gap(s: real): real
      requires Valid()
    {
      Distance(m, e1.radius, Angle(e1, s), e2.radius, Angle(e2, s))
    }

    /** The catalog entry `k` is skipped when it carries a chosen body's name. */
    predicate IsEndpoint(k: nat)
      requires Valid() && k < |roster.bodies|
    {
      roster.names[k] == e1.name || roster.names[k] == e2.name
    }

    /** The detour from one chosen body through catalog entry `k` to the
        other on day `s`. */
    function Via(s: real, k: nat): real
      requires Valid() && k < |roster.bodies|
    {
      var a := roster.SyncedAngle(roster.bodies[k], s + Epoch);
      Distance(m, e1.radius, Angle(e1, s), roster.radii[k], a)
        + Distance(m, e2.radius, Angle(e2, s), roster.radii[k], a)
    }

    /** Entry `q` carries a chosen body's name. */
    function Skip(): nat -> bool
      requires Valid()
    {
      (q: nat) => q < |roster.bodies| && IsEndpoint(q)
    }

    /** Entry `q` does not lie on the straight path on day `s`. */
    function OffPath(s: real): nat -> bool
      requires Valid()
    {
      (q: nat) => q < |roster.bodies| && Gap(s) != Via(s, q)
    }

    /** The freeze search's test of day `s`. */
    predicate FreezeClear(s: real)
      requires Valid()
    {
      FirstDecides(Skip(), OffPath(s), 0, |roster.bodies|)
    }

    /** Some entry from `k` on, other than the chosen bodies, passes `rule`
        for path length `gap` on day `s`. */
    predicate AnyClear(rule: Rule, gap: real, s: real, k: nat)
      requires Valid() && k <= |roster.bodies|
      decreases |roster.bodies| - k
    {
      k < |roster.bodies| && ((!IsEndpoint(k) && Clear(rule, gap, Via(s, k))) || AnyClear(rule, gap, s, k + 1))
    }

    /** On sample day `t`, entry `q` is not a chosen body and passes `rule`. */
    predicate ClearOn(rule: Rule, gap: real, t: int, q: nat)
      requires Valid() && q < |roster.bodies|
    {
      !IsEndpoint(q) && Clear(rule, gap, Via(t as real, q))
    }

    /** The number of samples of a journey over `gap` AU: the travel time
        in units of 97920 s, rounded half to even. */
    function Ticks(gap: real): int
      requires MaxVelocity(e1.speed, e2.speed) != 0.0
    {
      RoundHalfEven(TravelTime(gap, e1.speed, e2.speed) / TickSeconds)
    }

    /** Some sample day from `j` to `last` has an entry passing `rule`. */
    predicate TicksFrom(rule: Rule, gap: real, j: int, last: int)
      requires Valid()
      decreases last - j
    {
      j <= last && (AnyClear(rule, gap, j as real, 0) || TicksFrom(rule, gap, j + 1, last))
    }

    /** The moving search's scan of one day from entry `k` on: each entry
        that passes `rule` at the current position in time starts a sampling
        of the journey, which moves the catalog to each sample day. */
    function ItemScan(rule: Rule, gap: real, k: nat, sw: Sweep): Sweep
      requires Valid() && MaxVelocity(e1.speed, e2.speed) != 0.0 && k <= |roster.bodies|
      decreases |roster.bodies| - k
    {
      if k == |roster.bodies| then sw
      else if IsEndpoint(k) || !Clear(rule, gap, Via(sw.sync, k)) then ItemScan(rule, gap, k + 1, sw)
      else
        var last := Ticks(gap);
        ItemScan(rule, gap, k + 1, Sweep(if 1 <= last then last as real else sw.sync, sw.hit || TicksFrom(rule, gap, 1, last)))
    }

    /** Day `i` is acceptable to `search` (its distance aside). */
    predicate Accepts(search: Search, i: nat)
      requires CanSearch(search)
    {
      match search
      case Freeze => FreezeClear(i as real)
      case Moving(rule) => ItemScan(rule, Gap(i as real), 0, Sweep(i as real, false)).hit
    }

    /** The search's result after days 1 to `n`. */
    function WindowUpTo(search: Search, n: nat): Best
      requires CanSearch(search)
    {
      Pick(DayGap(), DayTest(search), n)
    }

    function DayGap(): nat -> real
      requires Valid()
    {
      (d: nat) => Gap(d as real)
    }

    function DayTest(search: Search): nat -> bool
      requires CanSearch(search)
    {
      (d: nat) => Accepts(search, d)
    }

    /** The day the catalog was last moved to by the moving search after day
        `n`: the day itself, or its last sample. */
    function MovingSync(rule: Rule, n: nat): real
      requires CanSearch(Moving(rule)) && 1 <= n
    {
      var b := WindowUpTo(Moving(rule), n - 1);
      var gap := Gap(n as real);
      if gap < b.smallest then ItemScan(rule, gap, 0, Sweep(n as real, false)).sync else n as real
    }
  }

  /** The day-by-day selection both searches share: a day replaces the
      best one found when it is acceptable and strictly closer. The day
      found is 0 or an acceptable day whose distance is the smallest found. */
  function Pick(gap: nat -> real, ok: nat -> bool, n: nat): (b: Best)
    ensures 0 <= b.waiting <= n && b.smallest <= InitialSmallest
    ensures b.waiting == 0 ==> b.smallest == InitialSmallest
    ensures b.waiting != 0 ==> b.smallest == gap(b.waiting) && ok(b.waiting)
  {
    if n == 0 then Best(InitialSmallest, 0)
    else
      var b := Pick(gap, ok, n - 1);
      if gap(n) < b.smallest && ok(n) then Best(gap(n), n) else b
  }

  /** No acceptable day is closer than the result. */
  lemma {:induction false} PickIsMinimum(gap: nat -> real, ok: nat -> bool, n: nat, d: nat)
    requires 1 <= d <= n && ok(d)
    ensures Pick(gap, ok, n).smallest <= gap(d)
  {
    if d < n {
      PickIsMinimum(gap, ok, n - 1, d);
    }
  }

  /** Every acceptable day before the one found is strictly farther: the
      search keeps the first day of the minimum. */
  lemma {:induction false} PickEarliest(gap: nat -> real, ok: nat -> bool, n: nat, d: nat)
    requires 1 <= d < Pick(gap, ok, n).waiting && ok(d)
    ensures Pick(gap, ok, n).smallest < gap(d)
  {
    var b := Pick(gap, ok, n - 1);
    if Pick(gap, ok, n) == b {
      PickEarliest(gap, ok, n - 1, d);
    } else {
      PickIsMinimum(gap, ok, n - 1, d);
    }
  }

  /** The result is 0 exactly when no acceptable day comes closer than the
      initial bound. */
  lemma {:induction false} PickZeroIffNone(gap: nat -> real, ok: nat -> bool, n: nat)
    ensures Pick(gap, ok, n).waiting == 0 <==>
            forall d :: 1 <= d <= n && ok(d) ==> InitialSmallest <= gap(d)
  {
    if n > 0 {
      PickZeroIffNone(gap, ok, n - 1);
      if Pick(gap, ok, n).waiting == 0 {
        forall d | 1 <= d <= n && ok(d)
          ensures InitialSmallest <= gap(d)
        {
          PickIsMinimum(gap, ok, n, d);
        }
      }
    }
  }

  /** Searching further never yields a larger smallest distance. */
  lemma {:induction false} PickNeverIncreases(gap: nat -> real, ok: nat -> bool, n: nat, n': nat)
    requires n <= n'
    ensures Pick(gap, ok, n').smallest <= Pick(gap, ok, n).smallest
    decreases n' - n
  {
    if n < n' {
      PickNeverIncreases(gap, ok, n, n' - 1);
    }
  }

  /** The freeze search's scan of entries `k` to `n - 1`: entries that
      `skip` selects are passed over, the first other one decides by `off`
      (the scan stops at the first one on the path, and accepts as soon as
      one is off it), and an all-skipped scan fails. */
  predicate FirstDecides(skip: nat -> bool, off: nat -> bool, k: nat, n: nat)
    decreases n - k
  {
    k < n && if skip(k) then FirstDecides(skip, off, k + 1, n) else off(k)
  }

  /** The freeze scan against an independent statement: there is an entry
      that is not skipped and is off the path, with only skipped entries
      before it. */
  lemma {:induction false} FirstDecidesIff(skip: nat -> bool, off: nat -> bool, k: nat, n: nat)
    ensures FirstDecides(skip, off, k, n) <==>
            exists j :: k <= j < n && !skip(j) && off(j) && forall i :: k <= i < j ==> skip(i)
    decreases n - k
  {
    if k < n {
      FirstDecidesIff(skip, off, k + 1, n);
      if skip(k) && exists j :: k <= j < n && !skip(j) && off(j) && forall i :: k <= i < j ==> skip(i) {
        var j :| k <= j < n && !skip(j) && off(j) && forall i :: k <= i < j ==> skip(i);
        assert k + 1 <= j;
      }
    }
  }

  /** A sampling that hits names its sample day and entry. */
  lemma {:induction false} TicksFromWitness(sc: Scene, rule: Rule, gap: real, j: int, last: int)
    requires sc.Valid() && sc.TicksFrom(rule, gap, j, last)
    ensures exists t, q :: j <= t <= last && 0 <= q < |sc.roster.bodies| && sc.ClearOn(rule, gap, t, q)
    decreases last - j
  {
    if sc.AnyClear(rule, gap, j as real, 0) {
      AnyClearWitness(sc, rule, gap, j as real, 0);
      var q :| 0 <= q < |sc.roster.bodies| && !sc.IsEndpoint(q) && Clear(rule, gap, sc.Via(j as real, q));
      assert sc.ClearOn(rule, gap, j, q);
    } else {
      TicksFromWitness(sc, rule, gap, j + 1, last);
    }
  }

  lemma {:induction false} AnyClearWitness(sc: Scene, rule: Rule, gap: real, s: real, k: nat)
    requires sc.Valid() && k <= |sc.roster.bodies| && sc.AnyClear(rule, gap, s, k)
    ensures exists q :: k <= q < |sc.roster.bodies| && !sc.IsEndpoint(q) && Clear(rule, gap, sc.Via(s, q))
    decreases |sc.roster.bodies| - k
  {
    if !(!sc.IsEndpoint(k) && Clear(rule, gap, sc.Via(s, k))) {
      AnyClearWitness(sc, rule, gap, s, k + 1);
    }
  }

  /** A day the moving search accepts has a sample day of the journey and
      an entry, not a chosen body, that passes the blocking test there. */
  lemma {:induction false} ItemScanWitness(sc: Scene, rule: Rule, gap: real, k: nat, sw: Sweep)
    requires sc.Valid() && MaxVelocity(sc.e1.speed, sc.e2.speed) != 0.0 && k <= |sc.roster.bodies|
    requires sc.ItemScan(rule, gap, k, sw).hit && !sw.hit
    ensures exists t, q :: 1 <= t <= sc.Ticks(gap) && 0 <= q < |sc.roster.bodies| && sc.ClearOn(rule, gap, t, q)
    decreases |sc.roster.bodies| - k
  {
    assert k < |sc.roster.bodies|;
    if sc.IsEndpoint(k) || !Clear(rule, gap, sc.Via(sw.sync, k)) {
      assert sc.ItemScan(rule, gap, k, sw) == sc.ItemScan(rule, gap, k + 1, sw);
      ItemScanWitness(sc, rule, gap, k + 1, sw);
    } else {
      var last := sc.Ticks(gap);
      if sc.TicksFrom(rule, gap, 1, last) {
        TicksFromWitness(sc, rule, gap, 1, last);
      } else {
        var next := Sweep(if 1 <= last then last as real else sw.sync, false);
        assert sc.ItemScan(rule, gap, k, sw) == sc.ItemScan(rule, gap, k + 1, next);
        ItemScanWitness(sc, rule, gap, k + 1, next);
      }
    }
  }

  /** With the intended test, the day found by the moving search has a
      sample of the journey at which a body other than the chosen two lies
      off the straight path. */
  lemma MovingIntendedWitness(sc: Scene, n: nat)
    requires sc.CanSearch(Moving(Intended))
    requires sc.WindowUpTo(Moving(Intended), n).waiting != 0
    ensures var b := sc.WindowUpTo(Moving(Intended), n);
            exists t, q :: 1 <= t <= sc.Ticks(b.smallest) && 0 <= q < |sc.roster.bodies| &&
                           sc.ClearOn(Intended, b.smallest, t, q)
  {
    var b := sc.WindowUpTo(Moving(Intended), n);
    assert sc.Accepts(Moving(Intended), b.waiting);
    ItemScanWitness(sc, Intended, b.smallest, 0, Sweep(b.waiting as real, false));
  }

  /** On the day the catalog was moved to, the path between the chosen
      bodies is never longer than the detour through a third one, so the
      written test passes no entry and the scan leaves the day untouched. */
  lemma {:induction false} AsWrittenScanIdle(sc: Scene, s: real, k: nat)
    requires sc.Valid() && MaxVelocity(sc.e1.speed, sc.e2.speed) != 0.0 && k <= |sc.roster.bodies|
    requires sc.m.Sound()
    ensures sc.ItemScan(AsWritten, sc.Gap(s), k, Sweep(s, false)) == Sweep(s, false)
    decreases |sc.roster.bodies| - k
  {
    if k < |sc.roster.bodies| {
      var a := sc.roster.SyncedAngle(sc.roster.bodies[k], s + Epoch);
      DistanceTriangle(sc.m, sc.e1.radius, sc.Angle(sc.e1, s), sc.e2.radius, sc.Angle(sc.e2, s), sc.roster.radii[k], a);
      AsWrittenScanIdle(sc, s, k + 1);
    }
  }

  /** As written, the moving search never accepts a day: its result is
      always 0 days. */
  lemma MovingAsWrittenNeverAccepts(sc: Scene, n: nat)
    requires sc.CanSearch(Moving(AsWritten)) && sc.m.Sound()
    ensures sc.WindowUpTo(Moving(AsWritten), n).waiting == 0
  {
    forall d | 1 <= d <= n
      ensures !sc.DayTest(Moving(AsWritten))(d)
    {
      AsWrittenScanIdle(sc, d as real, 0);
    }
    PickZeroIffNone(sc.DayGap(), sc.DayTest(Moving(AsWritten)), n);
  }

  /** Three bodies in a line, with equal periods so they stay in a line:
      the chosen ones at 1 and 2 AU, a third at 5 AU, escape velocities of
      11000 m/s. */
  function LineScene(m: MathLib, a: Planet, b: Planet, c: Planet): Scene {
    Scene(m, Roster([a, b, c], ["A:", "B:", "C:"], [365, 365, 365], [1.0, 2.0, 5.0]),
          Endpoint(a, "A:", 1.0, 0.0, 11000.0), Endpoint(b, "B:", 2.0, 0.0, 11000.0))
  }

  /** In the line scene the path is 1 AU and the detour through the third
      body 7 AU on every day, and a journey takes at least two samples. */
  lemma LineSceneFacts(m: MathLib, a: Planet, b: Planet, c: Planet)
    requires a != b && b != c && a != c
    ensures var sc := LineScene(m, a, b, c);
            && sc.CanSearch(Moving(Intended)) && sc.CanSearch(Moving(AsWritten))
            && sc.IsEndpoint(0) && sc.IsEndpoint(1) && !sc.IsEndpoint(2)
            && (forall s: real :: sc.Gap(s) == 1.0 && sc.Via(s, 2) == 7.0)
            && 2 <= sc.Ticks(1.0)
  {
    var sc := LineScene(m, a, b, c);
    var r := sc.roster;
    assert r.Valid();
    forall s: real
      ensures sc.Gap(s) == 1.0 && sc.Via(s, 2) == 7.0
    {
      UniformPeriodsAlign(r, a, c, s + Epoch);
      UniformPeriodsAlign(r, b, c, s + Epoch);
    }
    assert TravelTime(1.0, 11000.0, 11000.0) / TickSeconds >= 2.5;
  }

  /** The line scene tells the two tests apart: the 1 AU path is shorter
      than the 7 AU detour, so the intended test accepts the first day,
      while the written one accepts none. */
  lemma MovingScenario(m: MathLib, a: Planet, b: Planet, c: Planet)
    requires a != b && b != c && a != c
    ensures LineScene(m, a, b, c).CanSearch(Moving(Intended))
    ensures LineScene(m, a, b, c).WindowUpTo(Moving(Intended), 1) == Best(1.0, 1)
    ensures LineScene(m, a, b, c).WindowUpTo(Moving(AsWritten), 1) == Best(InitialSmallest, 0)
  {
    var sc := LineScene(m, a, b, c);
    LineSceneFacts(m, a, b, c);
    var last := sc.Ticks(1.0);
    var start := Sweep(1.0, false);
    assert sc.Gap(1 as real) == 1.0;
    assert sc.AnyClear(Intended, 1.0, 1.0, 2);
    assert sc.TicksFrom(Intended, 1.0, 1, last);
    assert sc.ItemScan(Intended, 1.0, 0, start) == sc.ItemScan(Intended, 1.0, 2, start);
    assert sc.ItemScan(Intended, 1.0, 2, start).hit;
    assert sc.ItemScan(AsWritten, 1.0, 0, start) == sc.ItemScan(AsWritten, 1.0, 2, start);
    assert !sc.ItemScan(AsWritten, 1.0, 2, start).hit;
  }

  /** When every period is the same, every body of the catalog ends at the
      same angle. */
  lemma UniformPeriodsAlign(r: Roster, o1: Planet, o2: Planet, t: real)
    requires r.Valid() && o1 in r.bodies && o2 in r.bodies
    requires forall k :: 0 <= k < |r.periods| ==> r.periods[k] == r.periods[0]
    ensures r.SyncedAngle(o1, t) == r.SyncedAngle(o2, t)
  {
    r.MemberTouched(o1);
    r.MemberTouched(o2);
  }
}
