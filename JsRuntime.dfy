/** The few pieces of the JavaScript runtime that the simulation relies on:
    `undefined` as an Option, the value of Math.PI, Math.round on reals, and
    the transcendental functions of Math as an oracle passed in by callers. */
module JsRuntime {

  /** A value that may be `undefined` (None). */
  datatype Option<T> = None | Some(value: T)

  /** Math.PI, written out as the decimal JavaScript prints. */
  const PI: real := 3.141592653589793

  /** One full turn, 2 * Math.PI. */
  const TwoPi: real := 2.0 * PI

  /** Math.sqrt, Math.sin, Math.cos and Math.atan2. Their bodies are not part of
      the model: every operation that needs them takes them as a parameter. */
  datatype MathLib = MathLib(
    sqrt: real -> real,
    sin: real -> real,
    cos: real -> real,
    atan2: (real, real) -> real)

  /** Math.sqrt returns the non-negative square root of a non-negative argument. */
  ghost predicate SqrtLaw(m: MathLib) {
    forall x: real :: 0.0 <= x ==> 0.0 <= m.sqrt(x) && m.sqrt(x) * m.sqrt(x) == x
  }

  /** cos and sin of one angle lie on the unit circle. */
  ghost predicate CircleLaw(m: MathLib) {
    forall a: real :: m.cos(a) * m.cos(a) + m.sin(a) * m.sin(a) == 1.0
  }

  /** Math.round: the nearest integer, halves rounded up (towards +infinity).
      The two bounds fix the result uniquely. */
  function Round(x: real): (r: int)
    ensures x - 0.5 < r as real <= x + 0.5
  {
    (x + 0.5).Floor
  }

  /** Math.max and Math.min on two numbers. */
  function MaxInt(a: int, b: int): int { if a >= b then a else b }
  function MinInt(a: int, b: int): int { if a <= b then a else b }
  function MaxReal(a: real, b: real): real { if a >= b then a else b }

  function Abs(x: real): real { if x < 0.0 then -x else x }

  /** For non-negative numbers, comparing square roots is comparing squares:
      the step that turns a test on Math.sqrt into a test on squares. */
  lemma SquaresOrdered(s: real, t: real)
    requires 0.0 <= s && 0.0 <= t
    ensures s < t <==> s * s < t * t
    ensures s <= t <==> s * s <= t * t
  {
    if s < t {
      DifferenceOfSquares(s, t);
    } else if t < s {
      DifferenceOfSquares(t, s);
    }
  }

  /** The square grows strictly with a non-negative base. */
  lemma DifferenceOfSquares(s: real, t: real)
    requires 0.0 <= s < t
    ensures s * s < t * t
  {
    var d := t - s;
    assert t * t == s * s + d * (s + t);
    StrictlyPositiveProduct(d, s + t);
  }

  lemma StrictlyPositiveProduct(a: real, b: real)
    requires 0.0 < a && 0.0 < b
    ensures 0.0 < a * b
  {
  }

  /** Multiplying by a non-negative number keeps an order. */
  lemma MulMonotone(a: real, b: real, c: real)
    requires a <= b && 0.0 <= c
    ensures a * c <= b * c
  {
    assert b * c - a * c == (b - a) * c;
    if a < b && 0.0 < c {
      StrictlyPositiveProduct(b - a, c);
    }
  }

  /** A square root compared with a bound, stated without the square root. */
  lemma SqrtCompare(m: MathLib, x: real, bound: real)
    requires SqrtLaw(m) && 0.0 <= x
    ensures m.sqrt(x) < bound <==> 0.0 < bound && x < bound * bound
    ensures m.sqrt(x) <= bound <==> 0.0 <= bound && x <= bound * bound
  {
    var s := m.sqrt(x);
    assert 0.0 <= s && s * s == x;
    if 0.0 <= bound {
      SquaresOrdered(s, bound);
    }
  }
}
