/**
 * Stand-in for JavaScript's global `Math` object.
 *
 * The generators and the matrix libraries call Math.sin, Math.cos, Math.tan, Math.exp,
 * Math.sinh, Math.cosh, Math.sqrt (also behind Math.hypot) and Math.asin. None of these has
 * an exact definition over the reals that Dafny could use, so they are uninterpreted: a
 * `Math` value is passed in, and the few laws a proof relies on are stated as predicates
 * that lemmas require. Nothing about IEEE-754 rounding is modelled.
 */
module JsMath {

  datatype Math = Math(
    sin: real -> real,
    cos: real -> real,
    tan: real -> real,
    exp: real -> real,
    sinh: real -> real,
    cosh: real -> real,
    sqrt: real -> real,
    asin: real -> real)

  /** A value that may be `undefined` (or `null`): an unset option, a missing uniform location. */
  datatype Option<T> = None | Some(value: T)

  /**
   * `x ?? d`: the default replaces only an undefined value. For an array or object argument
   * this is also `x || d`, since those are never falsy.
   */
  function Nullish<T>(x: Option<T>, d: T): T
  {
    match x
    case None => d
    case Some(v) => v
  }

  /**
   * `x || d` for a number: undefined and 0 are falsy, so an explicit 0 is replaced by the
   * default where `??` would keep it; on every other argument the two agree. (NaN, also
   * falsy, is not a real number and is not modelled.)
   */
  function OrNumber(x: Option<real>, d: real): (r: real)
    ensures x == Some(0.0) ==> r == d && Nullish(x, d) == 0.0
    ensures x != Some(0.0) ==> r == Nullish(x, d)
  {
    match x
    case None => d
    case Some(v) => if v == 0.0 then d else v
  }

  /** `!!x` for an optional flag. */
  function Truthy(x: Option<bool>): (r: bool)
    ensures r <==> x == Some(true)
  {
    x.Some? && x.value
  }

  /** Math.PI, the double nearest to pi. */
  const PI: real := 3.141592653589793

  /** sin 0 = 0, cos 0 = 1 and sin² + cos² = 1. */
  ghost predicate TrigLaws(m: Math)
  {
    && m.sin(0.0) == 0.0
    && m.cos(0.0) == 1.0
    && (forall x :: m.sin(x) * m.sin(x) + m.cos(x) * m.cos(x) == 1.0)
  }

  /** sinh 0 = 0, cosh² − sinh² = 1 and cosh ≥ 1. */
  ghost predicate HyperbolicLaws(m: Math)
  {
    && m.sinh(0.0) == 0.0
    && (forall x :: m.cosh(x) * m.cosh(x) - m.sinh(x) * m.sinh(x) == 1.0)
    && (forall x :: m.cosh(x) >= 1.0)
  }

  /** Math.sqrt is the non-negative square root on non-negative arguments, exact at 0. */
  ghost predicate SqrtLaws(m: Math)
  {
    && m.sqrt(0.0) == 0.0
    && (forall x :: x >= 0.0 ==> m.sqrt(x) >= 0.0 && m.sqrt(x) * m.sqrt(x) == x)
  }

  function Abs(x: real): real
  {
    if x < 0.0 then -x else x
  }

  function Min(a: real, b: real): real
  {
    if a <= b then a else b
  }

  function Max(a: real, b: real): real
  {
    if a >= b then a else b
  }

  /** Both sine and cosine stay in [-1, 1] once sin² + cos² = 1. */
  lemma TrigBounded(m: Math, x: real)
    requires TrigLaws(m)
    ensures -1.0 <= m.cos(x) <= 1.0
    ensures -1.0 <= m.sin(x) <= 1.0
  {
    assert m.sin(x) * m.sin(x) + m.cos(x) * m.cos(x) == 1.0;
  }

  /** A positive argument has a positive square root, so dividing by it is defined. */
  lemma SqrtPositive(m: Math, x: real)
    requires SqrtLaws(m)
    requires x > 0.0
    ensures m.sqrt(x) > 0.0
  {
    assert m.sqrt(x) >= 0.0 && m.sqrt(x) * m.sqrt(x) == x;
  }

  lemma SquareNonNegative(x: real)
    ensures x * x >= 0.0
  {
  }

  /** A positive count divided by itself is 1: the last of n steps is at fraction 1. */
  lemma WholeFraction(n: nat)
    requires n > 0
    ensures n as real / n as real == 1.0
  {
  }

  lemma SquarePositive(x: real)
    requires x != 0.0
    ensures x * x > 0.0
  {
    if x < 0.0 {
      assert (-x) * (-x) > 0.0;
    }
  }

  /** A point r·(cos a, sin a) lies on the circle of radius r. */
  lemma OnCircle(m: Math, r: real, a: real)
    requires TrigLaws(m)
    ensures (r * m.cos(a)) * (r * m.cos(a)) + (r * m.sin(a)) * (r * m.sin(a)) == r * r
  {
    var s, c := m.sin(a), m.cos(a);
    assert s * s + c * c == 1.0;
    calc {
      (r * c) * (r * c) + (r * s) * (r * s);
      r * r * (s * s + c * c);
    }
  }

  /** A sum of three squares, not all of zero, is positive. */
  lemma SquaresPositive(a: real, b: real, c: real)
    requires a != 0.0 || b != 0.0 || c != 0.0
    ensures a * a + b * b + c * c > 0.0
  {
    SquareNonNegative(a);
    assert a * a >= 0.0;
    SquareNonNegative(b);
    assert b * b >= 0.0;
    SquareNonNegative(c);
    assert c * c >= 0.0;
    if a != 0.0 {
      SquarePositive(a);
      assert a * a > 0.0;
    } else if b != 0.0 {
      SquarePositive(b);
      assert b * b > 0.0;
    } else {
      SquarePositive(c);
      assert c * c > 0.0;
    }
  }

  /** Dividing s·x·y by a nonzero s gives back x·y. */
  lemma Unscale(s: real, x: real, y: real)
    requires s != 0.0
    ensures (s * x * y) / s == x * y
  {
    assert s * x * y == s * (x * y);
  }

  /** cosh 0 is 1: the one value with cosh² = 1 + sinh² 0 = 1 and cosh ≥ 1. */
  lemma CoshZero(m: Math)
    requires HyperbolicLaws(m)
    ensures m.cosh(0.0) == 1.0
  {
    var h := m.cosh(0.0);
    assert h * h - m.sinh(0.0) * m.sinh(0.0) == 1.0;
    assert (h - 1.0) * (h + 1.0) == 0.0;
  }
}
