/**
 * `la::vec<N, T>` of src/include/linalg.hpp (and its older copy linalg_templates.hpp) as values:
 * a vector is the sequence of its N components. The loop-built operators of the C++ class are
 * the methods of module LinAlgOps, each proved equal to the function here that specifies it.
 */
module LinAlgVec {
  import opened Wrappers
  import opened Scalar

  type Vector = seq<real>

  /** vec::zero(): N zero components. */
  function Zero(n: nat): (r: Vector)
    ensures |r| == n
  {
    seq(n, _ => 0.0)
  }

  /** The initializer-list constructor: exactly N values, or std::out_of_range. */
  function FromList(list: seq<real>, n: nat): (r: Result<Vector>)
    ensures r.Ok? <==> |list| == n
    ensures r.Ok? ==> |r.value| == n && forall i :: 0 <= i < n ==> r.value[i] == list[i]
  {
    if |list| != n then Throw(OutOfRange) else Ok(list)
  }

  /**
   * The widening constructor vec<N>(v, vals): the M components of `v` followed by the N - M
   * values of `vals`; std::out_of_range when M >= N. The type `std::array<T, N - M>` fixes
   * the length of `vals` whenever M < N.
   */
  function Widen(v: Vector, vals: seq<real>, n: nat): (r: Result<Vector>)
    requires |v| < n ==> |vals| == n - |v|
    ensures r.Throw? <==> |v| >= n
    ensures r.Ok? ==> (|r.value| == n
                       && (forall i :: 0 <= i < |v| ==> r.value[i] == v[i])
                       && (forall i :: |v| <= i < n ==> r.value[i] == vals[i - |v|]))
  {
    if |v| >= n then Throw(OutOfRange) else Ok(v + vals)
  }

  /** vec::operator[]: component `index`, or std::out_of_range when index > N - 1. */
  function At(v: Vector, index: nat): (r: Result<real>)
    ensures r.Throw? <==> index >= |v|
    ensures r.Ok? ==> r.value == v[index]
  {
    if index > |v| - 1 then Throw(OutOfRange) else Ok(v[index])
  }

  /** vec::operator+. */
  function Add(a: Vector, b: Vector): (r: Vector)
    requires |a| == |b|
    ensures |r| == |a|
  {
    seq(|a|, i requires 0 <= i < |a| => a[i] + b[i])
  }

  /** Unary vec::operator-. */
  function Neg(a: Vector): (r: Vector)
    ensures |r| == |a|
  {
    seq(|a|, i requires 0 <= i < |a| => -a[i])
  }

  /** Binary vec::operator-, which the source defines as `*this + -rhs`. */
  function Sub(a: Vector, b: Vector): (r: Vector)
    requires |a| == |b|
    ensures |r| == |a|
  {
    Add(a, Neg(b))
  }

  /** vec::operator/ by a scalar; the divisor must be non-zero for the result to be a real. */
  function Div(a: Vector, s: real): (r: Vector)
    requires s != 0.0
    ensures |r| == |a|
  {
    seq(|a|, i requires 0 <= i < |a| => a[i] / s)
  }

  /** The free operator*(T, vec): scalar times vector. */
  function Scale(s: real, a: Vector): (r: Vector)
    ensures |r| == |a|
  {
    seq(|a|, i requires 0 <= i < |a| => s * a[i])
  }

  /** vec::operator* (dot product), summed from index 0 upwards as the loop does. */
  function Dot(a: Vector, b: Vector): real
    requires |a| == |b|
    decreases |a|
  {
    if |a| == 0 then 0.0 else Dot(a[..|a| - 1], b[..|a| - 1]) + a[|a| - 1] * b[|a| - 1]
  }

  /**
   * vec::operator% AS WRITTEN: the loop visits i = 0, 1, 2 with j = i+1 and k = i+2 (mod 3),
   * and component i is a[j]*b[k] - a[k]*b[j]*pow(-1, i); the sign multiplies only the second
   * product. The loop itself is LinAlgOps.VecCross.
   */
  function Cross(a: Vector, b: Vector): (r: Vector)
    requires |a| == 3 && |b| == 3
    ensures |r| == 3
  {
    [a[1] * b[2] - a[2] * b[1] * PowNegOne(0),
     a[2] * b[0] - a[0] * b[2] * PowNegOne(1),
     a[0] * b[1] - a[1] * b[0] * PowNegOne(2)]
  }

  /** The standard cross product a x b, which vec::operator% is meant to compute. */
  function StdCross(a: Vector, b: Vector): (r: Vector)
    requires |a| == 3 && |b| == 3
    ensures |r| == 3
  {
    [a[1] * b[2] - a[2] * b[1], a[2] * b[0] - a[0] * b[2], a[0] * b[1] - a[1] * b[0]]
  }

  /** vec::norm(): sqrt(v * v). */
  function Norm(m: Math, v: Vector): real
  {
    Sqrt(m, Dot(v, v))
  }

  /** vec::normalized(): v / norm(); the norm must be non-zero. */
  function Normalized(m: Math, v: Vector): (r: Vector)
    requires Norm(m, v) != 0.0
    ensures |r| == |v|
  {
    Div(v, Norm(m, v))
  }

  // ---------------------------------------------------------------- lemmas

  /** `a - b` is computed as `a + (-b)`, which is the componentwise difference. */
  lemma SubIsComponentwise(a: Vector, b: Vector)
    requires |a| == |b|
    ensures forall i :: 0 <= i < |a| ==> Sub(a, b)[i] == a[i] - b[i]
  {
  }

  /** Negation is an involution. */
  lemma NegNeg(a: Vector)
    ensures Neg(Neg(a)) == a
  {
  }

  /** Dot with a vector of three components, unfolded. */
  lemma Dot3(a: Vector, b: Vector)
    requires |a| == 3 && |b| == 3
    ensures Dot(a, b) == a[0] * b[0] + a[1] * b[1] + a[2] * b[2]
  {
    DotPrefixStep(a, b, 0);
    DotPrefixStep(a, b, 1);
    DotPrefixStep(a, b, 2);
    assert a[..0] == [] && b[..0] == [];
    assert a[..3] == a && b[..3] == b;
  }

  /** Dot with a vector of four components, unfolded. */
  lemma Dot4(a: Vector, b: Vector)
    requires |a| == 4 && |b| == 4
    ensures Dot(a, b) == a[0] * b[0] + a[1] * b[1] + a[2] * b[2] + a[3] * b[3]
  {
    Dot3(a[..3], b[..3]);
  }

  /** The definition of Dot, unfolded once. */
  lemma DotLast(a: Vector, b: Vector, p: nat)
    requires |a| == |b| == p + 1
    ensures Dot(a, b) == Dot(a[..p], b[..p]) + a[p] * b[p]
  {
  }

  /** The last step of Dot, for any prefix length. */
  lemma DotPrefixStep(a: Vector, b: Vector, i: nat)
    requires |a| == |b| && i < |a|
    ensures Dot(a[..i + 1], b[..i + 1]) == Dot(a[..i], b[..i]) + a[i] * b[i]
  {
    assert a[..i + 1][..i] == a[..i];
    assert b[..i + 1][..i] == b[..i];
  }

  /** The dot product is symmetric. */
  lemma {:induction false} DotComm(a: Vector, b: Vector)
    requires |a| == |b|
    ensures Dot(a, b) == Dot(b, a)
    decreases |a|
  {
    if |a| > 0 {
      DotComm(a[..|a| - 1], b[..|a| - 1]);
    }
  }

  /** Dot with the zero vector is zero. */
  lemma {:induction false} DotZero(a: Vector)
    ensures Dot(a, Zero(|a|)) == 0.0
    decreases |a|
  {
    if |a| > 0 {
      assert Zero(|a|)[..|a| - 1] == Zero(|a| - 1);
      DotZero(a[..|a| - 1]);
    }
  }

  /** Negating the left operand negates the dot product. */
  lemma {:induction false} DotNeg(a: Vector, b: Vector)
    requires |a| == |b|
    ensures Dot(Neg(a), b) == -Dot(a, b)
    decreases |a|
  {
    if |a| > 0 {
      var n := |a| - 1;
      assert Neg(a)[..n] == Neg(a[..n]);
      DotNeg(a[..n], b[..n]);
      assert Neg(a)[n] * b[n] == -(a[n] * b[n]);
    }
  }

  /** The dot product distributes over vector addition on the right. */
  lemma {:induction false} DotAdd(x: Vector, u: Vector, w: Vector)
    requires |x| == |u| == |w|
    ensures Dot(x, Add(u, w)) == Dot(x, u) + Dot(x, w)
    decreases |x|
  {
    if |x| > 0 {
      var n := |x| - 1;
      assert Add(u, w)[..n] == Add(u[..n], w[..n]);
      DotAdd(x[..n], u[..n], w[..n]);
    }
  }

  /** Scalars come out of the dot product on the right. */
  lemma {:induction false} DotScale(x: Vector, c: real, w: Vector)
    requires |x| == |w|
    ensures Dot(x, Scale(c, w)) == c * Dot(x, w)
    decreases |x|
  {
    if |x| > 0 {
      var n := |x| - 1;
      assert forall k :: 0 <= k < n ==> Scale(c, w)[..n][k] == Scale(c, w[..n])[k];
      assert Scale(c, w)[..n] == Scale(c, w[..n]);
      DotScale(x[..n], c, w[..n]);
      calc {
        Dot(x, Scale(c, w));
        Dot(x[..n], Scale(c, w[..n])) + x[n] * (c * w[n]);
        c * Dot(x[..n], w[..n]) + x[n] * (c * w[n]);
        { assert x[n] * (c * w[n]) == c * (x[n] * w[n]); }
        c * Dot(x[..n], w[..n]) + c * (x[n] * w[n]);
        c * (Dot(x[..n], w[..n]) + x[n] * w[n]);
      }
    }
  }

  /**
   * Components 0 and 2 of vec::operator% are those of the cross product; component 1 is
   * a[2]*b[0] + a[0]*b[2] instead of a[2]*b[0] - a[0]*b[2].
   */
  lemma CrossAsWritten(a: Vector, b: Vector)
    requires |a| == 3 && |b| == 3
    ensures Cross(a, b)[0] == StdCross(a, b)[0]
    ensures Cross(a, b)[2] == StdCross(a, b)[2]
    ensures Cross(a, b)[1] == a[2] * b[0] + a[0] * b[2]
  {
    PowNegOneSmall();
    TimesSign(a[2] * b[1], PowNegOne(0));
    TimesSign(a[0] * b[2], PowNegOne(1));
    TimesSign(a[1] * b[0], PowNegOne(2));
  }

  /** The three components of the cross product. */
  lemma StdCrossComponents(a: Vector, b: Vector)
    requires |a| == 3 && |b| == 3
    ensures StdCross(a, b)[0] == a[1] * b[2] - a[2] * b[1]
    ensures StdCross(a, b)[1] == a[2] * b[0] - a[0] * b[2]
    ensures StdCross(a, b)[2] == a[0] * b[1] - a[1] * b[0]
  {
  }

  /** Multiplying by a sign of one or minus one. */
  lemma TimesSign(x: real, p: real)
    ensures p == 1.0 ==> x * p == x
    ensures p == -1.0 ==> x * p == -x
  {
  }

  /** vec::operator% agrees with the cross product exactly when a[0]*b[2] is zero. */
  lemma CrossCorrectIff(a: Vector, b: Vector)
    requires |a| == 3 && |b| == 3
    ensures Cross(a, b) == StdCross(a, b) <==> a[0] * b[2] == 0.0
  {
    CrossAsWritten(a, b);
    if a[0] * b[2] == 0.0 {
      assert Cross(a, b)[1] == StdCross(a, b)[1];
    } else {
      assert Cross(a, b)[1] != StdCross(a, b)[1];
    }
  }

  /** vec::operator% is not anticommutative: a % b and b % a agree in component 1. */
  lemma CrossSymmetricInY(a: Vector, b: Vector)
    requires |a| == 3 && |b| == 3
    ensures Cross(a, b)[1] == Cross(b, a)[1]
  {
    CrossAsWritten(a, b);
    CrossAsWritten(b, a);
  }

  /** A concrete input on which vec::operator% differs from the cross product: x % z. */
  lemma CrossCounterexample()
    ensures Cross([1.0, 0.0, 0.0], [0.0, 0.0, 1.0]) == [0.0, 1.0, 0.0]
    ensures StdCross([1.0, 0.0, 0.0], [0.0, 0.0, 1.0]) == [0.0, -1.0, 0.0]
  {
    CrossAsWritten([1.0, 0.0, 0.0], [0.0, 0.0, 1.0]);
  }

  /** The corrected cross product is anticommutative. */
  lemma StdCrossAnticommutes(a: Vector, b: Vector)
    requires |a| == 3 && |b| == 3
    ensures StdCross(a, b) == Neg(StdCross(b, a))
  {
  }

  /** The corrected cross product is orthogonal to both of its operands. */
  lemma StdCrossOrthogonal(a: Vector, b: Vector)
    requires |a| == 3 && |b| == 3
    ensures Dot(a, StdCross(a, b)) == 0.0 && Dot(b, StdCross(a, b)) == 0.0
  {
    var c := StdCross(a, b);
    StdCrossTripleProducts(a, b, c);
    Dot3(a, c);
    Dot3(b, c);
  }

  /** The triple products a.(a x b) and b.(a x b), written out on components. */
  lemma StdCrossTripleProducts(a: Vector, b: Vector, c: Vector)
    requires |a| == 3 && |b| == 3 && c == StdCross(a, b)
    ensures a[0] * c[0] + a[1] * c[1] + a[2] * c[2] == 0.0
    ensures b[0] * c[0] + b[1] * c[1] + b[2] * c[2] == 0.0
  {
    StdCrossComponents(a, b);
    TripleProductsVanish(a[0], a[1], a[2], b[0], b[1], b[2], c[0], c[1], c[2]);
  }

  /**
   * With c = x cross y written out on components, x . c and y . c are zero; stated as an
   * implication so that callers supply the components as facts rather than as preconditions.
   */
  lemma TripleProductsVanish(x0: real, x1: real, x2: real, y0: real, y1: real, y2: real,
                             c0: real, c1: real, c2: real)
    ensures c0 == x1 * y2 - x2 * y1 && c1 == x2 * y0 - x0 * y2 && c2 == x0 * y1 - x1 * y0 ==>
              x0 * c0 + x1 * c1 + x2 * c2 == 0.0 && y0 * c0 + y1 * c1 + y2 * c2 == 0.0
  {
    if c0 == x1 * y2 - x2 * y1 && c1 == x2 * y0 - x0 * y2 && c2 == x0 * y1 - x1 * y0 {
      assert x0 * c0 == x0 * x1 * y2 - x0 * x2 * y1;
      assert x1 * c1 == x1 * x2 * y0 - x0 * x1 * y2;
      assert x2 * c2 == x0 * x2 * y1 - x1 * x2 * y0;
      assert y0 * c0 == x1 * y0 * y2 - x2 * y0 * y1;
      assert y1 * c1 == x2 * y0 * y1 - x0 * y1 * y2;
      assert y2 * c2 == x0 * y1 * y2 - x1 * y0 * y2;
    }
  }

  /** Under a lawful sqrt, a normalized vector has unit length. */
  lemma NormalizedIsUnit(m: Math, v: Vector)
    requires Lawful(m) && Norm(m, v) != 0.0
    ensures Dot(Normalized(m, v), Normalized(m, v)) == 1.0
  {
    var s := Norm(m, v);
    DotNonNegative(v);
    assert s * s == Dot(v, v);
    NormalizedIsScale(m, v);
    DotScaleBoth(1.0 / s, v);
    InverseSquared(s);
  }

  /** Under a lawful sqrt, norm() is non-negative and squares to v . v. */
  lemma NormSquared(m: Math, v: Vector)
    requires Lawful(m)
    ensures 0.0 <= Norm(m, v) && Norm(m, v) * Norm(m, v) == Dot(v, v)
  {
    DotNonNegative(v);
  }

  /** Dividing by the norm is scaling by its inverse. */
  lemma NormalizedIsScale(m: Math, v: Vector)
    requires Norm(m, v) != 0.0
    ensures Normalized(m, v) == Scale(1.0 / Norm(m, v), v)
  {
    var s := Norm(m, v);
    var r, q := Normalized(m, v), Scale(1.0 / s, v);
    assert |r| == |q|;
    forall i | 0 <= i < |v|
      ensures r[i] == q[i]
    {
      assert r[i] == v[i] / s;
      assert q[i] == (1.0 / s) * v[i];
    }
  }

  /** Scaling both operands of a dot product scales it by the square. */
  lemma DotScaleBoth(k: real, v: Vector)
    ensures Dot(Scale(k, v), Scale(k, v)) == k * (k * Dot(v, v))
  {
    DotScale(Scale(k, v), k, v);
    DotComm(Scale(k, v), v);
    DotScale(v, k, v);
  }

  /** (1/s) * ((1/s) * (s*s)) is one. */
  lemma InverseSquared(s: real)
    requires s != 0.0
    ensures (1.0 / s) * ((1.0 / s) * (s * s)) == 1.0
  {
    var k := 1.0 / s;
    assert k * s == 1.0;
    calc {
      k * (k * (s * s));
      (k * s) * (k * s);
      1.0;
    }
  }

  /** v * v is never negative. */
  lemma {:induction false} DotNonNegative(v: Vector)
    ensures Dot(v, v) >= 0.0
    decreases |v|
  {
    if |v| > 0 {
      DotNonNegative(v[..|v| - 1]);
      var x := v[|v| - 1];
      assert x * x >= 0.0;
    }
  }
}
