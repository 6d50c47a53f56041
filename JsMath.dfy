/**
 * The numbers of the route editor, read as exact reals. JavaScript's `Math`
 * object contributes `Math.PI`, `Math.floor`, `Math.round`, `Math.max` and the
 * `%` operator, defined here exactly; its transcendental functions (`sin`,
 * `cos`, `atan2`, `sqrt`) are values of the `Math` datatype that every caller
 * passes in, and nothing is known of them beyond the predicates below, which a
 * lemma names in its `requires` when it needs one.
 */
module JsMath {
  /** `Math.PI`, the decimal JavaScript prints for it */
  const PI: real := 3.141592653589793

  /** The transcendental functions of JavaScript's `Math`, left uninterpreted */
  datatype Math = Math(
    sin: real -> real,
    cos: real -> real,
    atan2: (real, real) -> real,
    sqrt: real -> real)

  /** `Math.sqrt` never yields a negative number */
  ghost predicate SqrtNonNegative(m: Math) {
    forall x :: 0.0 <= m.sqrt(x)
  }

  /** `Math.atan2(y, x)` lies in [0, π/2] when both arguments are non-negative (the lower bound is what is used) */
  ghost predicate Atan2NonNegative(m: Math) {
    forall y, x :: 0.0 <= y && 0.0 <= x ==> 0.0 <= m.atan2(y, x)
  }

  /** `Math.sin(0) === 0` */
  predicate SinOfZero(m: Math) {
    m.sin(0.0) == 0.0
  }

  /** `Math.sin(-x) === -Math.sin(x)`, stated for every pair of opposite arguments */
  ghost predicate SinIsOdd(m: Math) {
    forall x, y :: x + y == 0.0 ==> m.sin(x) == -m.sin(y)
  }

  /** `Math.sin` stays within [-1, 1] */
  ghost predicate SinBounded(m: Math) {
    forall x :: -1.0 <= m.sin(x) <= 1.0
  }

  /** `Math.floor`: the greatest integer not above `x` */
  function Floor(x: real): (r: int)
    ensures r as real <= x < r as real + 1.0
  {
    x.Floor
  }

  /** The integer part of `x`, rounded toward zero (how `%` divides) */
  function Trunc(x: real): (r: int)
    ensures 0.0 <= x ==> r == Floor(x)
    ensures x < 0.0 ==> x <= r as real < x + 1.0
  {
    if 0.0 <= x then Floor(x) else -Floor(-x)
  }

  /** JavaScript's `x % y` on numbers: the remainder of the truncating division, with the sign of `x` */
  function Rem(x: real, y: real): (r: real)
    requires y != 0.0
    ensures 0.0 <= x && 0.0 < y ==> 0.0 <= r < y
  {
    var q := Trunc(x / y);
    RemBounds(x, y, q);
    x - y * (q as real)
  }

  /** The bounds of the remainder: `y * trunc(x / y) <= x < y * (trunc(x / y) + 1)` for non-negative `x` */
  lemma RemBounds(x: real, y: real, q: int)
    requires y != 0.0 && q == Trunc(x / y)
    ensures 0.0 <= x && 0.0 < y ==> 0.0 <= x - y * (q as real) < y
  {
    if 0.0 <= x && 0.0 < y {
      DivBelow(x, y, q as real + 1.0);
      DivAbove(x, y, q as real);
    }
  }

  /** A product with a factor 0 is 0 */
  lemma ZeroProduct(x: real, y: real)
    requires x == 0.0 || y == 0.0
    ensures x * y == 0.0
  {
  }

  /** A non-zero number divided by itself is 1 */
  lemma DivSelf(x: real)
    requires x != 0.0
    ensures x / x == 1.0
  {
    assert x / x * x == x;
  }

  /** `x / y < b` means `x < b * y` when `y` is positive */
  lemma DivBelow(x: real, y: real, b: real)
    requires 0.0 < y && x / y < b
    ensures x < b * y
  {
    assert x == (x / y) * y;
  }

  /** `b <= x / y` means `b * y <= x` when `y` is positive */
  lemma DivAbove(x: real, y: real, b: real)
    requires 0.0 < y && b <= x / y
    ensures b * y <= x
  {
    assert x == (x / y) * y;
  }

  /** `b * y <= x` means `b <= x / y` when `y` is positive */
  lemma AtMostDiv(x: real, y: real, b: real)
    requires 0.0 < y && b * y <= x
    ensures b <= x / y
  {
    if x / y < b {
      DivBelow(x, y, b);
    }
  }

  /** `x < b * y` means `x / y < b` when `y` is positive */
  lemma DivBelowOf(x: real, y: real, b: real)
    requires 0.0 < y && x < b * y
    ensures x / y < b
  {
    if b <= x / y {
      DivAbove(x, y, b);
    }
  }

  /** Flooring a quotient by a positive integer takes the integer quotient of the floor */
  lemma FloorOverInt(t: real, d: int)
    requires 0 < d && 0.0 <= t
    ensures Floor(t / d as real) == Floor(t) / d
  {
    var n := Floor(t);
    var q := n / d;
    assert q * d <= n < q * d + d;
    assert (q * d) as real == q as real * d as real;
    assert ((q + 1) * d) as real == (q as real + 1.0) * d as real;
    AtMostDiv(t, d as real, q as real);
    DivBelowOf(t, d as real, q as real + 1.0);
    FloorUnique(t / d as real, q);
  }

  /** `Math.round`: the nearest integer, a half rounded up */
  function Round(x: real): (r: int)
    ensures r as real - 0.5 <= x < r as real + 0.5
  {
    Floor(x + 0.5)
  }

  /** `Math.max` of two numbers */
  function Max(a: real, b: real): (r: real)
    ensures a <= r && b <= r && (r == a || r == b)
  {
    if a < b then b else a
  }

  /** A floor is determined by the interval it falls in */
  lemma FloorUnique(x: real, k: int)
    requires k as real <= x < k as real + 1.0
    ensures Floor(x) == k
  {
  }
}
