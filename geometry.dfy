/** Distance between two bodies on circular orbits around a common centre
    (`CalculateDistanceBetweenPlanets`). */
module Geometry {
  import opened Numerics
  import opened Planets

  /** The distance between a body at orbital radius `r1` and angle `a1` and
      one at `r2`, `a2`. Equal angles take the shortcut `|r2 - r1|`; other
      pairs go through the trigonometric formula. */
  function Distance(m: MathLib, r1: real, a1: real, r2: real, a2: real): (d: real)
    ensures m.Sound() ==> 0.0 <= d
  {
    if a1 == a2 then
      Abs(r2 - r1)
    else
      var t1 := a1 * Pi / 180.0;
      var t2 := a2 * Pi / 180.0;
      m.sqrt(Sq(r2 * m.cos(t2) - r1 * m.cos(t1)) + Sq(r2 * m.sin(t2) - r1 * m.sin(t1)))
  }

  /** The Euclidean distance between two points. */
  function Euclid(m: MathLib, p: Point, q: Point): real {
    m.sqrt(Sq(q.x - p.x) + Sq(q.y - p.y))
  }

  /** When the two angles are equal the distance is exactly the difference of
      the radii, whatever the trigonometry. */
  lemma DistanceAligned(m: MathLib, r1: real, r2: real, a: real)
    ensures Distance(m, r1, a, r2, a) == Abs(r2 - r1)
  {
  }

  /** The distance does not depend on the order of the two bodies; this holds
      in both branches, without any property of the foreign numerics. */
  lemma DistanceSymmetric(m: MathLib, r1: real, a1: real, r2: real, a2: real)
    ensures Distance(m, r1, a1, r2, a2) == Distance(m, r2, a2, r1, a1)
  {
    if a1 != a2 {
      var t1 := a1 * Pi / 180.0;
      var t2 := a2 * Pi / 180.0;
      assert Sq(r2 * m.cos(t2) - r1 * m.cos(t1)) == Sq(r1 * m.cos(t1) - r2 * m.cos(t2));
      assert Sq(r2 * m.sin(t2) - r1 * m.sin(t1)) == Sq(r1 * m.sin(t1) - r2 * m.sin(t2));
    }
  }

  /** Both branches compute the Euclidean distance between the two drawing
      positions: the equal-angle shortcut agrees with the formula. */
  lemma {:induction false} DistanceIsEuclidean(m: MathLib, r1: real, a1: real, r2: real, a2: real)
    requires m.Sound()
    ensures Distance(m, r1, a1, r2, a2) == Euclid(m, Position(m, r1, a1), Position(m, r2, a2))
  {
    if a1 == a2 {
      assert m.cos(a1 * Pi / 180.0) * m.cos(a1 * Pi / 180.0) + m.sin(a1 * Pi / 180.0) * m.sin(a1 * Pi / 180.0) == 1.0;
      SqrtOfSquare(m, r2 - r1);
      AlignedIsEuclidean(m, r1, r2, a1);
    } else {
      ApartIsEuclidean(m, r1, a1, r2, a2);
    }
  }

  /** The trigonometric branch is the Euclidean distance by definition. */
  lemma ApartIsEuclidean(m: MathLib, r1: real, a1: real, r2: real, a2: real)
    requires a1 != a2
    ensures Distance(m, r1, a1, r2, a2) == Euclid(m, Position(m, r1, a1), Position(m, r2, a2))
  {
  }

  /** The equal-angle shortcut agrees with the Euclidean distance, given the
      two facts about the foreign numerics it rests on: the direction is a
      unit vector, and the root of the squared radius difference is its
      absolute value. */
  lemma AlignedIsEuclidean(m: MathLib, r1: real, r2: real, a: real)
    requires m.cos(a * Pi / 180.0) * m.cos(a * Pi / 180.0) + m.sin(a * Pi / 180.0) * m.sin(a * Pi / 180.0) == 1.0
    requires m.sqrt(Sq(r2 - r1)) == Abs(r2 - r1)
    ensures Distance(m, r1, a, r2, a) == Euclid(m, Position(m, r1, a), Position(m, r2, a))
  {
    calc {
      Euclid(m, Position(m, r1, a), Position(m, r2, a));
      { EuclidAtOneAngle(m, r1, r2, a); }
      m.sqrt(Sq(r2 * m.cos(a * Pi / 180.0) - r1 * m.cos(a * Pi / 180.0)) +
             Sq(r2 * m.sin(a * Pi / 180.0) - r1 * m.sin(a * Pi / 180.0)));
      { AlignedSquares(r1, r2, m.cos(a * Pi / 180.0), m.sin(a * Pi / 180.0));
        SameRoot(m, Sq(r2 * m.cos(a * Pi / 180.0) - r1 * m.cos(a * Pi / 180.0)) +
                    Sq(r2 * m.sin(a * Pi / 180.0) - r1 * m.sin(a * Pi / 180.0)), Sq(r2 - r1)); }
      m.sqrt(Sq(r2 - r1));
      Abs(r2 - r1);
      { DistanceAligned(m, r1, r2, a); }
      Distance(m, r1, a, r2, a);
    }
  }

  /** Equal arguments have equal roots. */
  lemma SameRoot(m: MathLib, x: real, y: real)
    requires x == y
    ensures m.sqrt(x) == m.sqrt(y)
  {
  }

  /** The Euclidean distance between two drawing positions at one angle,
      written out. */
  lemma EuclidAtOneAngle(m: MathLib, r1: real, r2: real, a: real)
    ensures Euclid(m, Position(m, r1, a), Position(m, r2, a)) ==
              m.sqrt(Sq(r2 * m.cos(a * Pi / 180.0) - r1 * m.cos(a * Pi / 180.0)) +
                     Sq(r2 * m.sin(a * Pi / 180.0) - r1 * m.sin(a * Pi / 180.0)))
  {
    assert Position(m, r1, a) == Point(r1 * m.cos(a * Pi / 180.0), r1 * m.sin(a * Pi / 180.0));
    assert Position(m, r2, a) == Point(r2 * m.cos(a * Pi / 180.0), r2 * m.sin(a * Pi / 180.0));
  }

  /** Two points on one ray from the centre: on a unit direction `(c, s)`
      their squared distance is the squared difference of the radii. */
  lemma AlignedSquares(r1: real, r2: real, c: real, s: real)
    requires c * c + s * s == 1.0
    ensures Sq(r2 * c - r1 * c) + Sq(r2 * s - r1 * s) == Sq(r2 - r1)
  {
    calc {
      Sq(r2 * c - r1 * c) + Sq(r2 * s - r1 * s);
      (r2 * c - r1 * c) * (r2 * c - r1 * c) + (r2 * s - r1 * s) * (r2 * s - r1 * s);
      { assert (r2 * c - r1 * c) * (r2 * c - r1 * c) == ((r2 - r1) * (r2 - r1)) * (c * c);
        assert (r2 * s - r1 * s) * (r2 * s - r1 * s) == ((r2 - r1) * (r2 - r1)) * (s * s); }
      ((r2 - r1) * (r2 - r1)) * (c * c) + ((r2 - r1) * (r2 - r1)) * (s * s);
      ((r2 - r1) * (r2 - r1)) * (c * c + s * s);
      (r2 - r1) * (r2 - r1);
      Sq(r2 - r1);
    }
  }

  /** The triangle inequality for the Euclidean distance. */
  lemma EuclidTriangle(m: MathLib, p: Point, q: Point, r: Point)
    requires m.Sound()
    ensures Euclid(m, p, r) <= Euclid(m, p, q) + Euclid(m, q, r)
  {
    var ux, uy := q.x - p.x, q.y - p.y;
    var vx, vy := r.x - q.x, r.y - q.y;
    var a, b := Euclid(m, p, q), Euclid(m, q, r);
    var c := Euclid(m, p, r);
    assert 0.0 <= a && a * a == ux * ux + uy * uy;
    assert 0.0 <= b && b * b == vx * vx + vy * vy;
    assert 0.0 <= c && c * c == (ux + vx) * (ux + vx) + (uy + vy) * (uy + vy);
    var dot := ux * vx + uy * vy;
    assert dot <= a * b by { CauchySchwarz(ux, uy, vx, vy, a, b); }
    assert c * c <= (a + b) * (a + b) by {
      assert c * c == a * a + 2.0 * dot + b * b;
      assert (a + b) * (a + b) == a * a + 2.0 * (a * b) + b * b;
    }
    if a + b < c {
      SquareStrictlyMonotone(a + b, c);
    }
  }

  /** The dot product of two vectors is at most the product of their lengths. */
  lemma CauchySchwarz(ux: real, uy: real, vx: real, vy: real, a: real, b: real)
    requires 0.0 <= a && a * a == ux * ux + uy * uy
    requires 0.0 <= b && b * b == vx * vx + vy * vy
    ensures ux * vx + uy * vy <= a * b
  {
    var dot := ux * vx + uy * vy;
    var ab := a * b;
    assert 0.0 <= ab by { ProductNonNegative(a, b); }
    var cross := ux * vy - uy * vx;
    calc {
      ab * ab;
      { assert (a * b) * (a * b) == (a * a) * (b * b); }
      (a * a) * (b * b);
      { assert a * a == ux * ux + uy * uy; assert b * b == vx * vx + vy * vy; }
      (ux * ux + uy * uy) * (vx * vx + vy * vy);
      { Lagrange(ux, uy, vx, vy, dot, cross); }
      dot * dot + cross * cross;
    }
    assert 0.0 <= Sq(cross);
    if 0.0 < dot {
      RootMonotone(dot, ab);
    }
  }

  /** Lagrange's identity in the plane: the product of two squared lengths
      splits into the squared dot and cross products. */
  lemma Lagrange(ux: real, uy: real, vx: real, vy: real, dot: real, cross: real)
    requires dot == ux * vx + uy * vy && cross == ux * vy - uy * vx
    ensures (ux * ux + uy * uy) * (vx * vx + vy * vy) == dot * dot + cross * cross
  {
  }

  /** No body can be farther from `p1` than the way from `p1` to a third
      body `q` and on from `q` to `p2`. */
  lemma DistanceTriangle(m: MathLib, r1: real, a1: real, r2: real, a2: real, rq: real, aq: real)
    requires m.Sound()
    ensures Distance(m, r1, a1, r2, a2) <= Distance(m, r1, a1, rq, aq) + Distance(m, r2, a2, rq, aq)
  {
    var p1, p2, q := Position(m, r1, a1), Position(m, r2, a2), Position(m, rq, aq);
    DistanceIsEuclidean(m, r1, a1, r2, a2);
    DistanceIsEuclidean(m, r1, a1, rq, aq);
    DistanceIsEuclidean(m, rq, aq, r2, a2);
    DistanceSymmetric(m, r2, a2, rq, aq);
    EuclidTriangle(m, p1, q, p2);
  }

  /** Two bodies at 1 AU and 1.52 AU, both at 0 degrees, are 0.52 AU apart. */
  lemma AlignedScenario(m: MathLib)
    ensures Distance(m, 1.0, 0.0, 1.52, 0.0) == 0.52
  {
  }
}
