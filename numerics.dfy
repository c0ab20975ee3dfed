/** The numeric ground the engine stands on: C#'s 32-bit `int`, its
    truncating integer division and float remainder, `Math.Round`, and the
    foreign square root and trigonometry, which enter the model only through
    the few facts stated in `MathLib.Sound`. Reals stand for the source's
    `float` and `double` values; rounding to single or double precision is
    not modelled. */
module Numerics {

  /** C#'s `int`. */
  newtype int32 = x: int | -0x8000_0000 <= x < 0x8000_0000

  const TwoTo32: int := 0x1_0000_0000

  /** The value of C#'s unchecked 32-bit arithmetic for the exact result `x`. */
  function Wrap32(x: int): (r: int32)
    ensures (r as int - x) % TwoTo32 == 0
    ensures -0x8000_0000 <= x < 0x8000_0000 ==> r as int == x
  {
    var m := x % TwoTo32;
    (if m >= 0x8000_0000 then m - TwoTo32 else m) as int32
  }

  /** C#'s `d / 2` on `int`: the quotient is truncated toward zero. */
  function Half(d: int): (h: int)
    ensures 0 <= d ==> 0 <= h && 2 * h <= d <= 2 * h + 1
    ensures d < 0 ==> h <= 0 && 2 * h - 1 <= d <= 2 * h
  {
    if d >= 0 then d / 2 else -((-d) / 2)
  }

  function Abs(x: real): real {
    if x < 0.0 then -x else x
  }

  function Sq(x: real): (r: real)
    ensures 0.0 <= r
  {
    if x < 0.0 then ProductPositive(-x, -x); x * x
    else ProductNonNegative(x, x); x * x
  }

  /** `d` is a whole number of full turns. */
  predicate WholeTurns(d: real) {
    (d / 360.0).Floor as real == d / 360.0
  }

  /** C#'s `x % 360f`: the remainder has the sign of `x` and `x` minus it
      is a whole number of turns. */
  function Fmod360(x: real): (r: real)
    ensures 0.0 <= x ==> 0.0 <= r < 360.0
    ensures x < 0.0 ==> -360.0 < r <= 0.0
    ensures WholeTurns(x - r)
    decreases if x < 0.0 then 1 else 0
  {
    if x >= 0.0 then
      var k := (x / 360.0).Floor;
      TurnsOf(k);
      x - 360.0 * k as real
    else
      var r := -Fmod360(-x);
      WholeTurnsNegated(-x - -r);
      assert x - r == -(-x - -r);
      r
  }

  lemma TurnsOf(k: int)
    ensures WholeTurns(360.0 * k as real)
  {
    assert (360.0 * k as real) / 360.0 == k as real;
  }

  lemma WholeTurnsNegated(d: real)
    requires WholeTurns(d)
    ensures WholeTurns(-d)
  {
    var k := (d / 360.0).Floor;
    assert d / 360.0 == k as real;
    assert -d / 360.0 == (-k) as real;
    assert ((-k) as real).Floor == -k;
  }

  /** Two angles in one turn that differ by whole turns are equal. */
  lemma WholeTurnsInOneTurn(a: real, b: real)
    requires 0.0 <= a < 360.0 && 0.0 <= b < 360.0
    requires WholeTurns(a - b)
    ensures a == b
  {
    var k := ((a - b) / 360.0).Floor;
    assert -1 < k < 1;
  }

  /** A remainder of a value already inside the first turn is that value. */
  lemma Fmod360OfOneTurn(x: real)
    requires 0.0 <= x < 360.0
    ensures Fmod360(x) == x
  {
    WholeTurnsInOneTurn(Fmod360(x), x);
  }

  /** C#'s `Math.Round(double)`: to the nearest integer, ties to even. */
  function RoundHalfEven(x: real): (n: int)
    ensures Abs(n as real - x) <= 0.5
    ensures Abs(n as real - x) == 0.5 ==> n % 2 == 0
  {
    var f := x.Floor;
    var frac := x - f as real;
    if frac < 0.5 then f
    else if frac > 0.5 then f + 1
    else if f % 2 == 0 then f
    else f + 1
  }

  /** `(float)Math.PI`, up to the precision of the model's reals. */
  const Pi: real := 3.141592653589793

  /** The foreign numerics the source calls: `Math.Sqrt`, `Math.Cos` and
      `Math.Sin` (radians). */
  datatype MathLib = MathLib(sqrt: real -> real, cos: real -> real, sin: real -> real) {
    /** The only facts about them the model relies on. */
    ghost predicate Sound() {
      && (forall x :: 0.0 <= x ==> 0.0 <= sqrt(x) && sqrt(x) * sqrt(x) == x)
      && (forall x :: cos(x) * cos(x) + sin(x) * sin(x) == 1.0)
    }
  }

  /** The square root of a square is the absolute value. */
  lemma SqrtOfSquare(m: MathLib, x: real)
    requires m.Sound()
    ensures m.sqrt(x * x) == Abs(x) && m.sqrt(Sq(x)) == Abs(x)
  {
    RootIsAbs(m.sqrt(x * x), x);
  }

  /** A non-negative number whose square is `x * x` is the absolute value
      of `x`. */
  lemma RootIsAbs(s: real, x: real)
    requires 0.0 <= s && s * s == x * x
    ensures s == Abs(x)
  {
    assert Abs(x) * Abs(x) == x * x;
    SquaresDetermineRoot(s, Abs(x));
  }

  /** Two non-negative numbers with equal squares are equal. */
  lemma SquaresDetermineRoot(s: real, t: real)
    requires 0.0 <= s && 0.0 <= t && s * s == t * t
    ensures s == t
  {
    if s < t {
      SquareStrictlyMonotone(s, t);
    } else if t < s {
      SquareStrictlyMonotone(t, s);
    }
  }

  /** Squaring is strictly increasing on the non-negative reals. */
  lemma SquareStrictlyMonotone(s: real, t: real)
    requires 0.0 <= s < t
    ensures s * s < t * t
  {
    var d := t - s;
    assert t * t == s * s + d * (s + t);
    assert d * (s + t) > 0.0 by { ProductPositive(d, s + t); }
  }

  lemma ProductPositive(a: real, b: real)
    requires 0.0 < a && 0.0 < b
    ensures 0.0 < a * b
  {
  }

  lemma ProductNonNegative(a: real, b: real)
    requires 0.0 <= a && 0.0 <= b
    ensures 0.0 <= a * b
  {
  }

  lemma DivideNonNegative(a: real, r: real)
    requires 0.0 <= a && 0.0 < r
    ensures 0.0 <= a / r
  {
  }

  /** Of two non-negative numbers, the one with the smaller square is the smaller. */
  lemma RootMonotone(x: real, y: real)
    requires 0.0 <= x && 0.0 <= y && x * x <= y * y
    ensures x <= y
  {
    if y < x {
      SquareStrictlyMonotone(y, x);
    }
  }

  /** The square root is monotone. */
  lemma SqrtMonotone(m: MathLib, x: real, y: real)
    requires m.Sound()
    requires 0.0 <= x <= y
    ensures m.sqrt(x) <= m.sqrt(y)
  {
    var s, t := m.sqrt(x), m.sqrt(y);
    assert 0.0 <= s && s * s == x && 0.0 <= t && t * t == y;
    if t < s {
      SquareStrictlyMonotone(t, s);
    }
  }

  /** Bounds on a square root from bounds on its argument. */
  lemma SqrtBetween(m: MathLib, x: real, lo: real, hi: real)
    requires m.Sound()
    requires 0.0 <= lo && 0.0 <= hi
    requires lo * lo <= x <= hi * hi
    ensures lo <= m.sqrt(x) <= hi
  {
    var s := m.sqrt(x);
    assert 0.0 <= s && s * s == x;
    if s < lo {
      SquareStrictlyMonotone(s, lo);
    }
    if hi < s {
      SquareStrictlyMonotone(hi, s);
    }
  }
}
