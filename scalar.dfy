/**
 * The scalar type of the linear-algebra library (`float`/`double`), modelled as exact reals.
 * The transcendental functions of <cmath> are not definable here, so they are passed around
 * as a record of functions; `Lawful` is the one law the proofs rely on.
 */
module Scalar {

  /** sqrt, sin, cos and tan of <cmath>, and the value of M_PI. */
  datatype Math = Math(sqrt: real -> real, sin: real -> real, cos: real -> real,
                       tan: real -> real, pi: real)

  /** sqrt(x) through the record. */
  function Sqrt(m: Math, x: real): real
  {
    m.sqrt(x)
  }

  /** `sqrt` is the non-negative square root on the non-negative reals. */
  ghost predicate Lawful(m: Math)
  {
    forall x: real :: 0.0 <= x ==> 0.0 <= Sqrt(m, x) && Sqrt(m, x) * Sqrt(m, x) == x
  }

  /** std::fmin on non-NaN arguments. */
  function Fmin(a: real, b: real): real
  {
    if a <= b then a else b
  }

  /** std::fmax on non-NaN arguments. */
  function Fmax(a: real, b: real): real
  {
    if a >= b then a else b
  }

  /** pow(-1, i) for an unsigned exponent, which IEEE pow computes exactly. */
  function PowNegOne(i: nat): (r: real)
    ensures r == if i % 2 == 0 then 1.0 else -1.0
  {
    if i == 0 then 1.0 else -PowNegOne(i - 1)
  }

  /** pow(-1, i) for the three exponents of a cross-product loop. */
  lemma PowNegOneSmall()
    ensures PowNegOne(0) == 1.0 && PowNegOne(1) == -1.0 && PowNegOne(2) == 1.0
  {
  }

  /** Squaring is strictly increasing on the non-negative reals. */
  lemma SquareStrictlyIncreasing(p: real, q: real)
    requires 0.0 <= p < q
    ensures p * p < q * q
  {
    calc {
      p * p;
    <= p * q;
    <  q * q;
    }
  }

  /** A lawful sqrt of a square is the absolute value. */
  lemma SqrtOfSquare(m: Math, x: real, y: real)
    requires Lawful(m) && y == x * x
    ensures Sqrt(m, y) == if x >= 0.0 then x else -x
  {
    var s := Sqrt(m, y);
    var a := if x >= 0.0 then x else -x;
    assert 0.0 <= s && s * s == a * a;
    if s < a {
      SquareStrictlyIncreasing(s, a);
    } else if s > a {
      SquareStrictlyIncreasing(a, s);
    }
  }

  /** radians(deg) = deg * pi / 180 (linalg.hpp). */
  function Radians(m: Math, deg: real): real
  {
    deg * m.pi / 180.0
  }
}
