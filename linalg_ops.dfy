/**
 * The loop-built operators of `la::vec` and `la::mat` (src/include/linalg.hpp, identical in
 * linalg_templates.hpp). Each C++ operator starts from a zero `result` buffer and fills it in
 * a `for` loop; each method here does the same on a fresh array and is proved to return the
 * value of the function in LinAlgVec or LinAlgMat that specifies it.
 */
module LinAlgOps {
  import opened Wrappers
  import opened Scalar
  import opened LinAlgVec
  import opened LinAlgMat

  /** The initializer-list constructor: size check, then element-by-element copy. */
  method VecFromList(list: seq<real>, n: nat) returns (r: Result<Vector>)
    ensures r == FromList(list, n)
  {
    if |list| != n {
      return Throw(OutOfRange);
    }
    var data := new real[n](_ => 0.0);
    var index := 0;
    while index < n
      invariant 0 <= index <= n
      invariant data[..index] == list[..index]
    {
      data[index] := list[index];
      index := index + 1;
    }
    assert data[..] == data[..n] && list[..n] == list;
    return Ok(data[..]);
  }

  /** The widening constructor vec<N>(v, vals): size check, then two copy loops. */
  method VecWiden(v: Vector, vals: seq<real>, n: nat) returns (r: Result<Vector>)
    requires |v| < n ==> |vals| == n - |v|
    ensures r == Widen(v, vals, n)
  {
    var m := |v|;
    if m >= n {
      return Throw(OutOfRange);
    }
    var data := new real[n](_ => 0.0);
    for i := 0 to m
      invariant forall t :: 0 <= t < i ==> data[t] == v[t]
    {
      data[i] := v[i];
    }
    for i := 0 to n - m
      invariant forall t :: 0 <= t < m ==> data[t] == v[t]
      invariant forall t :: 0 <= t < i ==> data[t + m] == vals[t]
    {
      data[i + m] := vals[i];
    }
    assert data[..] == v + vals;
    return Ok(data[..]);
  }

  /** vec::operator+. */
  method VecAdd(a: Vector, b: Vector) returns (r: Vector)
    requires |a| == |b|
    ensures r == Add(a, b)
  {
    var result := new real[|a|](_ => 0.0);
    for i := 0 to |a|
      invariant forall t :: 0 <= t < i ==> result[t] == a[t] + b[t]
    {
      result[i] := a[i] + b[i];
    }
    return result[..];
  }

  /** Unary vec::operator-. */
  method VecNeg(a: Vector) returns (r: Vector)
    ensures r == Neg(a)
  {
    var result := new real[|a|](_ => 0.0);
    for i := 0 to |a|
      invariant forall t :: 0 <= t < i ==> result[t] == -a[t]
    {
      result[i] := -a[i];
    }
    return result[..];
  }

  /** Binary vec::operator-: `*this + -rhs`. */
  method VecSub(a: Vector, b: Vector) returns (r: Vector)
    requires |a| == |b|
    ensures r == Sub(a, b)
  {
    var nb := VecNeg(b);
    r := VecAdd(a, nb);
  }

  /** vec::operator* (dot product): `result += data[i] * rhs[i]` from i = 0 upwards. */
  method VecDot(a: Vector, b: Vector) returns (r: real)
    requires |a| == |b|
    ensures r == Dot(a, b)
  {
    r := 0.0;
    for i := 0 to |a|
      invariant r == Dot(a[..i], b[..i])
    {
      DotPrefixStep(a, b, i);
      r := r + a[i] * b[i];
    }
    assert a[..|a|] == a && b[..|a|] == b;
  }

  /** vec::operator/ by a scalar. */
  method VecDiv(a: Vector, s: real) returns (r: Vector)
    requires s != 0.0
    ensures r == Div(a, s)
  {
    var result := new real[|a|](_ => 0.0);
    for i := 0 to |a|
      invariant forall t :: 0 <= t < i ==> result[t] == a[t] / s
    {
      result[i] := a[i] / s;
    }
    return result[..];
  }

  /** The free operator*(T, vec). */
  method VecScale(s: real, a: Vector) returns (r: Vector)
    ensures r == Scale(s, a)
  {
    var result := new real[|a|](_ => 0.0);
    for i := 0 to |a|
      invariant forall t :: 0 <= t < i ==> result[t] == s * a[t]
    {
      result[i] := s * a[i];
    }
    forall t | 0 <= t < |a|
      ensures result[t] == Scale(s, a)[t]
    {
    }
    return result[..];
  }

  /**
   * vec::operator%: i runs over 0, 1, 2 while j and k advance modulo 3 from 1 and 2, and
   * result[i] = data[j] * rhs[k] - data[k] * rhs[j] * pow(-1, i).
   */
  method VecCross(a: Vector, b: Vector) returns (r: Vector)
    requires |a| == 3 && |b| == 3
    ensures r == Cross(a, b)
  {
    var result := new real[3](_ => 0.0);
    var i, j, k := 0, 1, 2;
    while i < 3
      invariant 0 <= i <= 3
      invariant j == (i + 1) % 3 && k == (i + 2) % 3
      invariant i > 0 ==> result[0] == Cross(a, b)[0]
      invariant i > 1 ==> result[1] == Cross(a, b)[1]
      invariant i > 2 ==> result[2] == Cross(a, b)[2]
    {
      result[i] := a[j] * b[k] - a[k] * b[j] * PowNegOne(i);
      i, j, k := i + 1, (j + 1) % 3, (k + 1) % 3;
    }
    return result[..];
  }

  /** mat::operator(): row `index`, gathered column by column, or std::out_of_range. */
  method MatRowAt(a: Matrix, m: nat, index: nat) returns (r: Result<Vector>)
    requires m >= 1 && IsMat(a, m, |a|)
    ensures r == RowAt(a, m, index)
  {
    if index > m - 1 {
      return Throw(OutOfRange);
    }
    var result := new real[|a|](_ => 0.0);
    for i := 0 to |a|
      invariant forall t :: 0 <= t < i ==> result[t] == a[t][index]
    {
      result[i] := a[i][index];
    }
    assert result[..] == Row(a, m, index);
    return Ok(result[..]);
  }

  /**
   * mat::operator+ as written: `result` starts as zeros() and i runs over [0, M); the
   * bounds-checked column accessor throws once i reaches N.
   */
  method MatAddLoop(a: Matrix, b: Matrix, m: nat) returns (r: Result<Matrix>)
    requires IsMat(a, m, |a|) && IsMat(b, m, |a|)
    ensures r == MatAddAsWritten(a, b, m)
  {
    var n := |a|;
    var result := new Vector[n](_ => Zero(m));
    for i := 0 to m
      invariant i <= n
      invariant forall t :: 0 <= t < n ==>
                  result[t] == if t < i then Add(a[t], b[t]) else Zero(m)
    {
      if i > n - 1 {
        return Throw(OutOfRange);
      }
      var s := VecAdd(a[i], b[i]);
      result[i] := s;
    }
    assert MatAddAsWritten(a, b, m).Ok?;
    assert result[..] == MatAddAsWritten(a, b, m).value;
    return Ok(result[..]);
  }

  /** mat::operator*(mat): result[i][j] = (*this)(j) * rhs[i] for each column i and row j. */
  method MatMulLoop(a: Matrix, b: Matrix, m: nat) returns (r: Matrix)
    requires IsMat(a, m, |a|) && IsMat(b, |a|, |b|)
    ensures r == MatMul(a, b, m)
  {
    var spec := MatMul(a, b, m);
    var result := new Vector[|b|](_ => Zero(m));
    for i := 0 to |b|
      invariant forall t :: 0 <= t < i ==> result[t] == spec[t]
      invariant forall t :: i <= t < |b| ==> |result[t]| == m
    {
      for j := 0 to m
        invariant |result[i]| == m
        invariant forall t :: 0 <= t < i ==> result[t] == spec[t]
        invariant forall t :: i < t < |b| ==> |result[t]| == m
        invariant forall t :: 0 <= t < j ==> result[i][t] == spec[i][t]
      {
        var d := VecDot(Row(a, m, j), b[i]);
        result[i] := result[i][j := d];
      }
    }
    return result[..];
  }

  /** mat::operator*(vec) of linalg.hpp: result[i] = (*this)(i) * rhs. */
  method MatVecLoop(a: Matrix, v: Vector, m: nat) returns (r: Vector)
    requires IsMat(a, m, |v|)
    ensures r == MatVec(a, v, m)
  {
    var result := new real[m](_ => 0.0);
    for i := 0 to m
      invariant forall t :: 0 <= t < i ==> result[t] == Dot(Row(a, m, t), v)
    {
      var d := VecDot(Row(a, m, i), v);
      result[i] := d;
    }
    return result[..];
  }

  /** mat::operator/ by a scalar. */
  method MatDivLoop(a: Matrix, s: real) returns (r: Matrix)
    requires s != 0.0
    ensures r == MatDiv(a, s)
  {
    var result := new Vector[|a|](_ => []);
    for i := 0 to |a|
      invariant forall t :: 0 <= t < i ==> result[t] == Div(a[t], s)
    {
      var c := VecDiv(a[i], s);
      result[i] := c;
    }
    return result[..];
  }

  /** Unary mat::operator-. */
  method MatNegLoop(a: Matrix) returns (r: Matrix)
    ensures r == MatNeg(a)
  {
    var result := new Vector[|a|](_ => []);
    for i := 0 to |a|
      invariant forall t :: 0 <= t < i ==> result[t] == Neg(a[t])
    {
      var c := VecNeg(a[i]);
      result[i] := c;
    }
    return result[..];
  }

  /** Binary mat::operator-: `*this + -rhs`, with operator+ as written. */
  method MatSubLoop(a: Matrix, b: Matrix, m: nat) returns (r: Result<Matrix>)
    requires IsMat(a, m, |a|) && IsMat(b, m, |a|)
    ensures r == MatSub(a, b, m)
  {
    var nb := MatNegLoop(b);
    r := MatAddLoop(a, nb, m);
  }

  /** The free operator*(T, mat). */
  method MatScaleLoop(s: real, a: Matrix) returns (r: Matrix)
    ensures r == MatScale(s, a)
  {
    var result := new Vector[|a|](_ => []);
    for i := 0 to |a|
      invariant forall t :: 0 <= t < i ==> result[t] == Scale(s, a[t])
    {
      var c := VecScale(s, a[i]);
      result[i] := c;
    }
    return result[..];
  }

  /** mat::zeros(): each of the N columns set to vec::zero(). */
  method MatZerosLoop(m: nat, n: nat) returns (r: Matrix)
    ensures r == Zeros(m, n)
  {
    var result := new Vector[n](_ => []);
    for i := 0 to n
      invariant forall t :: 0 <= t < i ==> result[t] == Zero(m)
    {
      result[i] := Zero(m);
    }
    return result[..];
  }

  /** mat::identity(): zeros, then identity_matrix[i][i] = 1 for every i. */
  method MatIdentityLoop(n: nat) returns (r: Matrix)
    ensures r == Identity(n)
  {
    var z := MatZerosLoop(n, n);
    var result := new Vector[n](t => if 0 <= t < n then z[t] else []);
    for i := 0 to n
      invariant forall t :: 0 <= t < i ==> result[t] == Unit(n, t)
      invariant forall t :: i <= t < n ==> result[t] == Zero(n)
    {
      result[i] := result[i][i := 1.0];
    }
    return result[..];
  }
}
