/**
 * `la::mat<M, N, T>` of src/include/linalg.hpp (shared with linalg_templates.hpp) as values:
 * a matrix is the sequence of its N columns, each a vector of M components, exactly as the
 * C++ class stores `std::array<vec<M, T>, N> data`. Entry (row r, column c) is `a[c][r]`.
 */
module LinAlgMat {
  import opened Wrappers
  import opened LinAlgVec

  type Matrix = seq<Vector>

  /** `a` is an M x N matrix: N columns of M components. */
  predicate IsMat(a: Matrix, m: nat, n: nat)
  {
    |a| == n && forall c :: 0 <= c < n ==> |a[c]| == m
  }

  /** The j-th unit vector of length n: column j of the identity. */
  function Unit(n: nat, j: nat): (r: Vector)
    ensures |r| == n
  {
    seq(n, k => if k == j then 1.0 else 0.0)
  }

  /** mat::zeros(): N zero columns. */
  function Zeros(m: nat, n: nat): (r: Matrix)
    ensures IsMat(r, m, n)
    ensures forall c, k :: 0 <= c < n && 0 <= k < m ==> r[c][k] == 0.0
  {
    seq(n, _ => Zero(m))
  }

  /** mat::identity(): the zero matrix with 1.0 written on the diagonal. */
  function Identity(n: nat): (r: Matrix)
    ensures IsMat(r, n, n)
  {
    seq(n, c requires 0 <= c => Unit(n, c))
  }

  /** mat::fill (and the initializer-list constructor): exactly N columns, or std::out_of_range. */
  function Fill(list: seq<Vector>, n: nat): (r: Result<Matrix>)
    ensures r.Ok? <==> |list| == n
    ensures r.Ok? ==> r.value == list
  {
    if |list| != n then Throw(OutOfRange) else Ok(list)
  }

  /** mat::operator[]: column `index`, or std::out_of_range when index > N - 1. */
  function Col(a: Matrix, index: nat): (r: Result<Vector>)
    ensures r.Throw? <==> index >= |a|
    ensures r.Ok? ==> r.value == a[index]
  {
    if index > |a| - 1 then Throw(OutOfRange) else Ok(a[index])
  }

  /** Row r of an M x N matrix: (data[0][r], ..., data[N-1][r]). */
  function Row(a: Matrix, m: nat, r: nat): (v: Vector)
    requires IsMat(a, m, |a|) && r < m
    ensures |v| == |a|
  {
    seq(|a|, i requires 0 <= i < |a| => a[i][r])
  }

  /** mat::operator(): row `index`, or std::out_of_range when index > M - 1. */
  function RowAt(a: Matrix, m: nat, index: nat): (r: Result<Vector>)
    requires IsMat(a, m, |a|) && m >= 1
    ensures r.Throw? <==> index >= m
    ensures r.Ok? ==> |r.value| == |a| && forall i :: 0 <= i < |a| ==> r.value[i] == a[i][index]
  {
    if index > m - 1 then Throw(OutOfRange) else Ok(Row(a, m, index))
  }

  /** Column-wise sum of two M x N matrices: what mat::operator+ is meant to compute. */
  function MatAdd(a: Matrix, b: Matrix, m: nat): (r: Matrix)
    requires IsMat(a, m, |a|) && IsMat(b, m, |a|)
    ensures IsMat(r, m, |a|)
  {
    seq(|a|, i requires 0 <= i < |a| => Add(a[i], b[i]))
  }

  /**
   * mat::operator+ AS WRITTEN: `result` starts as zeros() and the loop runs i over [0, M),
   * writing result[i] = a[i] + b[i] through the bounds-checked column accessor. When M > N the
   * accessor throws std::out_of_range at i = N; when M < N columns M..N-1 stay zero.
   */
  function MatAddAsWritten(a: Matrix, b: Matrix, m: nat): (r: Result<Matrix>)
    requires IsMat(a, m, |a|) && IsMat(b, m, |a|)
    ensures r.Ok? ==> IsMat(r.value, m, |a|)
  {
    var n := |a|;
    if m > n then Throw(OutOfRange)
    else Ok(seq(n, i requires 0 <= i < n => if i < m then Add(a[i], b[i]) else Zero(m)))
  }

  /** Unary mat::operator-. */
  function MatNeg(a: Matrix): (r: Matrix)
    ensures |r| == |a| && forall c :: 0 <= c < |a| ==> r[c] == Neg(a[c])
  {
    seq(|a|, i requires 0 <= i < |a| => Neg(a[i]))
  }

  /** Binary mat::operator-, which the source defines as `*this + -rhs`. */
  function MatSub(a: Matrix, b: Matrix, m: nat): (r: Result<Matrix>)
    requires IsMat(a, m, |a|) && IsMat(b, m, |a|)
  {
    MatAddAsWritten(a, MatNeg(b), m)
  }

  /** mat::operator/ by a scalar: every column divided. */
  function MatDiv(a: Matrix, s: real): (r: Matrix)
    requires s != 0.0
    ensures |r| == |a| && forall c :: 0 <= c < |a| ==> r[c] == Div(a[c], s)
  {
    seq(|a|, i requires 0 <= i < |a| => Div(a[i], s))
  }

  /** The free operator*(T, mat): every column scaled. */
  function MatScale(s: real, a: Matrix): (r: Matrix)
    ensures |r| == |a| && forall c :: 0 <= c < |a| ==> r[c] == Scale(s, a[c])
  {
    seq(|a|, i requires 0 <= i < |a| => Scale(s, a[i]))
  }

  /** mat::operator*(vec): component i is row i of the matrix dotted with v. */
  function MatVec(a: Matrix, v: Vector, m: nat): (r: Vector)
    requires IsMat(a, m, |v|)
    ensures |r| == m
  {
    seq(m, i requires 0 <= i < m => Dot(Row(a, m, i), v))
  }

  /** mat::operator*(mat): entry (row j, column i) is row j of `a` dotted with column i of `b`. */
  function MatMul(a: Matrix, b: Matrix, m: nat): (r: Matrix)
    requires IsMat(a, m, |a|) && IsMat(b, |a|, |b|)
    ensures IsMat(r, m, |b|)
  {
    seq(|b|, i requires 0 <= i < |b| => seq(m, j requires 0 <= j < m => Dot(Row(a, m, j), b[i])))
  }

  // ---------------------------------------------------------------- lemmas

  /** Identity has 1.0 on the diagonal and 0.0 elsewhere, and is symmetric. */
  lemma IdentityEntries(n: nat)
    ensures forall c, k :: 0 <= c < n && 0 <= k < n ==>
              Identity(n)[c][k] == (if c == k then 1.0 else 0.0)
    ensures forall j :: 0 <= j < n ==> Row(Identity(n), n, j) == Unit(n, j)
  {
    forall j | 0 <= j < n
      ensures Row(Identity(n), n, j) == Unit(n, j)
    {
    }
  }

  /** For a square matrix the loop bound M equals N, so operator+ is the column-wise sum. */
  lemma MatAddAsWrittenSquare(a: Matrix, b: Matrix, m: nat)
    requires IsMat(a, m, m) && IsMat(b, m, m)
    ensures MatAddAsWritten(a, b, m) == Ok(MatAdd(a, b, m))
  {
    assert MatAddAsWritten(a, b, m).Ok?;
    var r := MatAddAsWritten(a, b, m).value;
    assert forall i :: 0 <= i < m ==> r[i] == MatAdd(a, b, m)[i];
    assert r == MatAdd(a, b, m);
  }

  /** With more rows than columns, operator+ always throws std::out_of_range. */
  lemma MatAddAsWrittenTall(a: Matrix, b: Matrix, m: nat)
    requires IsMat(a, m, |a|) && IsMat(b, m, |a|) && m > |a|
    ensures MatAddAsWritten(a, b, m) == Throw(OutOfRange)
  {
  }

  /**
   * With fewer rows than columns, operator+ sums only the first M columns and leaves the
   * rest zero; it agrees with the column-wise sum exactly when those columns of a + b are zero.
   */
  lemma MatAddAsWrittenWide(a: Matrix, b: Matrix, m: nat)
    requires IsMat(a, m, |a|) && IsMat(b, m, |a|) && m < |a|
    ensures MatAddAsWritten(a, b, m).Ok?
    ensures forall c :: 0 <= c < m ==> MatAddAsWritten(a, b, m).value[c] == MatAdd(a, b, m)[c]
    ensures forall c :: m <= c < |a| ==> MatAddAsWritten(a, b, m).value[c] == Zero(m)
    ensures MatAddAsWritten(a, b, m).value == MatAdd(a, b, m) <==>
              forall c :: m <= c < |a| ==> Add(a[c], b[c]) == Zero(m)
  {
    var r := MatAddAsWritten(a, b, m).value;
    if forall c :: m <= c < |a| ==> Add(a[c], b[c]) == Zero(m) {
      assert forall c :: 0 <= c < |a| ==> r[c] == MatAdd(a, b, m)[c];
    }
    if r == MatAdd(a, b, m) {
      forall c | m <= c < |a|
        ensures Add(a[c], b[c]) == Zero(m)
      {
        assert r[c] == MatAdd(a, b, m)[c];
      }
    }
  }

  /** A 1 x 2 input on which operator+ loses the second column: [1 1] + [1 1] gives [2 0]. */
  lemma MatAddCounterexample()
    ensures MatAddAsWritten([[1.0], [1.0]], [[1.0], [1.0]], 1) == Ok([[2.0], [0.0]])
    ensures MatAdd([[1.0], [1.0]], [[1.0], [1.0]], 1) == [[2.0], [2.0]]
  {
    var a: Matrix := [[1.0], [1.0]];
    assert Add(a[0], a[0]) == [2.0];
    assert Add(a[1], a[1]) == [2.0];
    assert Zero(1) == [0.0];
    assert MatAddAsWritten(a, a, 1).value == [[2.0], [0.0]];
  }

  /** The corrected sum commutes, and adding -b undoes adding b, for every shape M x N. */
  lemma MatAddCancels(a: Matrix, b: Matrix, m: nat)
    requires IsMat(a, m, |a|) && IsMat(b, m, |a|)
    ensures MatAdd(a, b, m) == MatAdd(b, a, m)
    ensures MatAdd(MatAdd(a, b, m), MatNeg(b), m) == a
  {
    var s := MatAdd(a, b, m);
    forall c | 0 <= c < |a|
      ensures s[c] == MatAdd(b, a, m)[c]
      ensures MatAdd(s, MatNeg(b), m)[c] == a[c]
    {
      assert |a[c]| == m && |b[c]| == m;
      assert Add(a[c], b[c]) == Add(b[c], a[c]);
      assert Add(Add(a[c], b[c]), Neg(b[c])) == a[c];
    }
  }

  /** On square matrices, a - b is the entry-wise difference. */
  lemma MatSubSquare(a: Matrix, b: Matrix, m: nat)
    requires IsMat(a, m, m) && IsMat(b, m, m)
    ensures MatSub(a, b, m).Ok?
    ensures forall c, k :: 0 <= c < m && 0 <= k < m ==> MatSub(a, b, m).value[c][k] == a[c][k] - b[c][k]
  {
    MatAddAsWrittenSquare(a, MatNeg(b), m);
  }

  /** Dotting with a unit vector picks out one component, for every prefix length. */
  lemma {:induction false} DotUnitPrefix(v: Vector, j: nat, k: nat)
    requires j < |v| && k <= |v|
    ensures Dot(Unit(|v|, j)[..k], v[..k]) == if j < k then v[j] else 0.0
    decreases k
  {
    if k > 0 {
      DotUnitPrefix(v, j, k - 1);
      DotPrefixStep(Unit(|v|, j), v, k - 1);
    }
  }

  /** Unit(n, j) . v == v[j]. */
  lemma DotUnit(v: Vector, j: nat)
    requires j < |v|
    ensures Dot(Unit(|v|, j), v) == v[j]
  {
    DotUnitPrefix(v, j, |v|);
    assert Unit(|v|, j)[..|v|] == Unit(|v|, j);
    assert v[..|v|] == v;
  }

  /** identity() * v == v. */
  lemma MatVecIdentity(v: Vector)
    ensures MatVec(Identity(|v|), v, |v|) == v
  {
    IdentityEntries(|v|);
    forall i | 0 <= i < |v|
      ensures MatVec(Identity(|v|), v, |v|)[i] == v[i]
    {
      DotUnit(v, i);
    }
  }

  /** Column i of A * B is A * (column i of B). */
  lemma MatMulColumns(a: Matrix, b: Matrix, m: nat)
    requires IsMat(a, m, |a|) && IsMat(b, |a|, |b|)
    ensures forall i :: 0 <= i < |b| ==> MatMul(a, b, m)[i] == MatVec(a, b[i], m)
  {
  }

  /** identity() * A == A. */
  lemma MatMulIdentityLeft(a: Matrix, m: nat)
    requires IsMat(a, m, |a|)
    ensures MatMul(Identity(m), a, m) == a
  {
    forall i | 0 <= i < |a|
      ensures MatMul(Identity(m), a, m)[i] == a[i]
    {
      MatVecIdentity(a[i]);
    }
  }

  /** A * identity() == A. */
  lemma MatMulIdentityRight(a: Matrix, m: nat)
    requires IsMat(a, m, |a|)
    ensures MatMul(a, Identity(|a|), m) == a
  {
    var n := |a|;
    IdentityEntries(n);
    forall i | 0 <= i < n
      ensures MatMul(a, Identity(n), m)[i] == a[i]
    {
      forall j | 0 <= j < m
        ensures MatMul(a, Identity(n), m)[i][j] == a[i][j]
      {
        DotComm(Row(a, m, j), Unit(n, i));
        DotUnit(Row(a, m, j), i);
      }
    }
  }

  /** Dropping the last column of `a` and the last component of `v` peels one term off A * v. */
  lemma MatVecStep(a: Matrix, v: Vector, m: nat, p: nat)
    requires IsMat(a, m, |v|) && |v| == p + 1
    ensures MatVec(a, v, m) == Add(MatVec(a[..p], v[..p], m), Scale(v[p], a[p]))
  {
    var rest := Add(MatVec(a[..p], v[..p], m), Scale(v[p], a[p]));
    forall j | 0 <= j < m
      ensures MatVec(a, v, m)[j] == rest[j]
    {
      var row := Row(a, m, j);
      assert row[..p] == Row(a[..p], m, j);
      DotLast(row, v, p);
      assert row[p] * v[p] == v[p] * a[p][j];
    }
  }

  /** A * (u + w) == A * u + A * w. */
  lemma MatVecAdd(a: Matrix, u: Vector, w: Vector, m: nat)
    requires IsMat(a, m, |u|) && |w| == |u|
    ensures MatVec(a, Add(u, w), m) == Add(MatVec(a, u, m), MatVec(a, w, m))
  {
    forall j | 0 <= j < m
      ensures MatVec(a, Add(u, w), m)[j] == MatVec(a, u, m)[j] + MatVec(a, w, m)[j]
    {
      DotAdd(Row(a, m, j), u, w);
    }
  }
}
