/**
 * The matrix factories of src/include/linalg.hpp: cross_product, scale_matrix,
 * translation_matrix, rotation_matrix, view_matrix and perspective_projection. Each one is a
 * single matrix expression, so each is a function; the columns are written in the order the
 * C++ initializer lists give them.
 */
module LinAlgFactories {
  import opened Scalar
  import opened LinAlgVec
  import opened LinAlgMat

  /** mat<3,3>::cross_product(v): the skew-symmetric matrix K with K * x == v x x. */
  function CrossProductMatrix(v: Vector): (k: Matrix)
    requires |v| == 3
    ensures IsMat(k, 3, 3)
    ensures forall c, r :: 0 <= c < 3 && 0 <= r < 3 ==> k[c][r] == -k[r][c]
  {
    [[0.0, v[2], -v[1]],
     [-v[2], 0.0, v[0]],
     [v[1], -v[0], 0.0]]
  }

  /** mat<4,4>::scale_matrix(s_x, s_y, s_z): diag(s_x, s_y, s_z, 1). */
  function ScaleMatrix(sx: real, sy: real, sz: real): (s: Matrix)
    ensures IsMat(s, 4, 4)
    ensures forall c, r :: 0 <= c < 4 && 0 <= r < 4 ==>
              s[c][r] == (if c != r then 0.0 else [sx, sy, sz, 1.0][r])
  {
    [[sx, 0.0, 0.0, 0.0],
     [0.0, sy, 0.0, 0.0],
     [0.0, 0.0, sz, 0.0],
     [0.0, 0.0, 0.0, 1.0]]
  }

  /** mat<4,4>::translation_matrix(p): the identity with its last column replaced by (p, 1). */
  function TranslationMatrix(p: Vector): (t: Matrix)
    requires |p| == 3
    ensures IsMat(t, 4, 4)
    ensures forall c :: 0 <= c < 3 ==> t[c] == Identity(4)[c]
    ensures t[3] == p + [1.0]
  {
    Identity(4)[3 := p + [1.0]]
  }

  /**
   * mat<4,4>::rotation_matrix(theta, axis): Rodrigues' formula I + sin(theta) K +
   * ((1 - cos(theta)) K) K for K = cross_product(axis), embedded in the upper-left 3x3 block
   * of a 4x4 matrix whose last row and column are those of the identity. The 3x3 sums use
   * mat::operator+, which is the column-wise sum on square matrices (MatAddAsWrittenSquare).
   */
  function RotationMatrix(m: Math, theta: real, axis: Vector): (t: Matrix)
    requires |axis| == 3
    ensures IsMat(t, 4, 4)
    ensures t[3] == [0.0, 0.0, 0.0, 1.0]
    ensures forall c :: 0 <= c < 3 ==> t[c][3] == 0.0
  {
    var k := CrossProductMatrix(axis);
    var r := MatAdd(MatAdd(Identity(3), MatScale(m.sin(theta), k), 3),
                    MatMul(MatScale(1.0 - m.cos(theta), k), k, 3), 3);
    [r[0] + [0.0], r[1] + [0.0], r[2] + [0.0], [0.0, 0.0, 0.0, 1.0]]
  }

  /** The two normalisations in view_matrix divide by non-zero norms. */
  predicate ViewDefined(m: Math, r: Vector, t: Vector, y: Vector)
    requires |r| == 3 && |t| == 3 && |y| == 3
  {
    Norm(m, Sub(t, r)) != 0.0 && Norm(m, Cross(Normalized(m, Sub(t, r)), y)) != 0.0
  }

  /**
   * mat<4,4>::view_matrix(ws_r, ws_t, ws_y): with cs_z = normalized(t - r),
   * cs_x = normalized(cs_z % y) and cs_y = cs_x % cs_z, the columns are (cs_x, -r . cs_x),
   * (cs_y, -r . cs_y), (cs_z, -r . cs_z) and (0, 0, 0, 1). `%` is vec::operator% as written.
   */
  function ViewMatrix(m: Math, r: Vector, t: Vector, y: Vector): (v: Matrix)
    requires |r| == 3 && |t| == 3 && |y| == 3 && ViewDefined(m, r, t, y)
    ensures IsMat(v, 4, 4)
  {
    var z := Normalized(m, Sub(t, r));
    var x := Normalized(m, Cross(z, y));
    var u := Cross(x, z);
    [x + [Dot(Neg(r), x)], u + [Dot(Neg(r), u)], z + [Dot(Neg(r), z)], [0.0, 0.0, 0.0, 1.0]]
  }

  /** The transpose of a square matrix: column i of the result is row i of `a`. */
  function Transpose(a: Matrix, m: nat): (t: Matrix)
    requires IsMat(a, m, m)
    ensures IsMat(t, m, m)
    ensures forall i :: 0 <= i < m ==> Row(t, m, i) == a[i]
  {
    seq(m, i requires 0 <= i < m => Row(a, m, i))
  }

  /**
   * The world-to-camera matrix view_matrix is meant to build under the library's own
   * mat * vec (rows dotted with the vector, translation in the last column, as in
   * translation_matrix): the transpose of the as-written matrix, whose first three ROWS are
   * (cs_x, -r . cs_x), (cs_y, -r . cs_y), (cs_z, -r . cs_z).
   */
  function ViewMatrixCorrected(m: Math, r: Vector, t: Vector, y: Vector): (v: Matrix)
    requires |r| == 3 && |t| == 3 && |y| == 3 && ViewDefined(m, r, t, y)
    ensures IsMat(v, 4, 4)
  {
    Transpose(ViewMatrix(m, r, t, y), 4)
  }

  /** tan(fov_y / 2). */
  function TanHalf(m: Math, fov: real): real
  {
    m.tan(fov / 2.0)
  }

  /** The divisions in perspective_projection are by non-zero values. */
  predicate PerspectiveDefined(m: Math, fov: real, aspect: real, near: real, far: real)
  {
    aspect != 0.0 && TanHalf(m, fov) != 0.0 && far != near
  }

  /**
   * mat<4,4>::perspective_projection AS WRITTEN in linalg.hpp: the third column holds
   * (far - near) / delta_plane, which is 1 for every near and far.
   */
  function Perspective(m: Math, fov: real, aspect: real, near: real, far: real): (p: Matrix)
    requires PerspectiveDefined(m, fov, aspect, near, far)
    ensures IsMat(p, 4, 4)
    ensures p == PerspectiveWith(m, fov, aspect, near, far, 1.0)
  {
    assert (far - near) / (far - near) == 1.0;
    PerspectiveWith(m, fov, aspect, near, far, (far - near) / (far - near))
  }

  /**
   * perspective_projection with (far + near) / delta_plane in the third column, which maps
   * the near plane to depth -1 and the far plane to depth +1 after the divide by w.
   */
  function PerspectiveCorrected(m: Math, fov: real, aspect: real, near: real, far: real)
    : (p: Matrix)
    requires PerspectiveDefined(m, fov, aspect, near, far)
    ensures IsMat(p, 4, 4)
    ensures var q := Perspective(m, fov, aspect, near, far);
            p[0] == q[0] && p[1] == q[1] && p[3] == q[3] && p[2][..2] == q[2][..2]
    ensures p[2][2] != 1.0 <==> near != 0.0
  {
    PerspectiveWith(m, fov, aspect, near, far, (far + near) / (far - near))
  }

  /** The projection matrix with depth scale `a` in row 2 of the third column. */
  function PerspectiveWith(m: Math, fov: real, aspect: real, near: real, far: real, a: real)
    : (p: Matrix)
    requires PerspectiveDefined(m, fov, aspect, near, far)
    ensures IsMat(p, 4, 4)
  {
    var tf := TanHalf(m, fov);
    NonZeroProduct(aspect, tf);
    [[1.0 / (aspect * tf), 0.0, 0.0, 0.0],
     [0.0, 1.0 / tf, 0.0, 0.0],
     [0.0, 0.0, a, 1.0],
     [0.0, 0.0, -2.0 * far * near / (far - near), 0.0]]
  }

  // ---------------------------------------------------------------- lemmas

  lemma NonZeroProduct(a: real, b: real)
    requires a != 0.0 && b != 0.0
    ensures a * b != 0.0
  {
  }

  /** cross_product(v) * x is the standard cross product v x x. */
  lemma CrossProductMatrixIsCross(v: Vector, x: Vector)
    requires |v| == 3 && |x| == 3
    ensures MatVec(CrossProductMatrix(v), x, 3) == StdCross(v, x)
  {
    var k := CrossProductMatrix(v);
    forall i | 0 <= i < 3
      ensures MatVec(k, x, 3)[i] == StdCross(v, x)[i]
    {
      Dot3(Row(k, 3, i), x);
    }
  }

  /** scale_matrix scales the three coordinates of a point and keeps w == 1. */
  lemma ScaleMatrixApply(sx: real, sy: real, sz: real, x: Vector)
    requires |x| == 3
    ensures MatVec(ScaleMatrix(sx, sy, sz), x + [1.0], 4) == [sx * x[0], sy * x[1], sz * x[2], 1.0]
  {
    var s := ScaleMatrix(sx, sy, sz);
    var h := x + [1.0];
    forall j | 0 <= j < 4
      ensures MatVec(s, h, 4)[j] == [sx * x[0], sy * x[1], sz * x[2], 1.0][j]
    {
      Dot4(Row(s, 4, j), h);
    }
  }

  /** translation_matrix(p) * (x, 1) == (x + p, 1). */
  lemma TranslationMatrixApply(p: Vector, x: Vector)
    requires |p| == 3 && |x| == 3
    ensures MatVec(TranslationMatrix(p), x + [1.0], 4) == Add(x, p) + [1.0]
  {
    var t := TranslationMatrix(p);
    var h := x + [1.0];
    IdentityEntries(4);
    forall j | 0 <= j < 4
      ensures MatVec(t, h, 4)[j] == (Add(x, p) + [1.0])[j]
    {
      Dot4(Row(t, 4, j), h);
    }
  }

  /** At an angle with sin == 0 and cos == 1 the rotation matrix is the identity. */
  lemma RotationMatrixZeroAngle(m: Math, theta: real, axis: Vector)
    requires |axis| == 3 && m.sin(theta) == 0.0 && m.cos(theta) == 1.0
    ensures RotationMatrix(m, theta, axis) == Identity(4)
  {
    var k := CrossProductMatrix(axis);
    var z := MatScale(0.0, k);
    assert MatScale(m.sin(theta), k) == z && MatScale(1.0 - m.cos(theta), k) == z;
    IdentityEntries(3);
    IdentityEntries(4);
    var sum := MatAdd(Identity(3), z, 3);
    forall c | 0 <= c < 3
      ensures sum[c] == Identity(3)[c]
    {
      assert forall j :: 0 <= j < 3 ==> z[c][j] == 0.0;
    }
    var kk := MatMul(z, k, 3);
    forall c | 0 <= c < 3
      ensures kk[c] == Zero(3)
    {
      forall j | 0 <= j < 3
        ensures kk[c][j] == 0.0
      {
        Dot3(Row(z, 3, j), k[c]);
      }
    }
    var r := MatAdd(sum, kk, 3);
    forall c | 0 <= c < 3
      ensures r[c] == Identity(3)[c]
    {
    }
    var t := RotationMatrix(m, theta, axis);
    forall c | 0 <= c < 4
      ensures t[c] == Identity(4)[c]
    {
    }
  }

  /** The column (c, -(e . c)) is orthogonal to the homogeneous point (e, 1). */
  lemma HomogeneousZero(c: Vector, e: Vector, k: real)
    requires |c| == 3 && |e| == 3 && k == -Dot(c, e)
    ensures Dot(c + [k], e + [1.0]) == 0.0
  {
    var h := c + [k];
    var g := e + [1.0];
    assert h[..3] == c && g[..3] == e;
    DotLast(h, g, 3);
  }

  /** A column (c, -e . c) as view_matrix builds it takes the eye (e, 1) to 0. */
  lemma HomogeneousEye(c: Vector, e: Vector, k: real)
    requires |c| == 3 && |e| == 3 && k == Dot(Neg(e), c)
    ensures Dot(c + [k], e + [1.0]) == 0.0
  {
    DotNeg(e, c);
    DotComm(e, c);
    HomogeneousZero(c, e, k);
  }

  /** Each of the first three columns of view_matrix is orthogonal to (ws_r, 1). */
  lemma ViewMatrixEye(m: Math, r: Vector, t: Vector, y: Vector)
    requires |r| == 3 && |t| == 3 && |y| == 3 && ViewDefined(m, r, t, y)
    ensures forall i :: 0 <= i < 3 ==> Dot(ViewMatrix(m, r, t, y)[i], r + [1.0]) == 0.0
  {
    var z := Normalized(m, Sub(t, r));
    var x := Normalized(m, Cross(z, y));
    var u := Cross(x, z);
    HomogeneousEye(x, r, Dot(Neg(r), x));
    HomogeneousEye(u, r, Dot(Neg(r), u));
    HomogeneousEye(z, r, Dot(Neg(r), z));
  }

  /** The third column of view_matrix is the unit direction from ws_r to ws_t. */
  lemma ViewMatrixForward(m: Math, r: Vector, t: Vector, y: Vector)
    requires |r| == 3 && |t| == 3 && |y| == 3 && ViewDefined(m, r, t, y) && Lawful(m)
    ensures ViewMatrix(m, r, t, y)[2][..3] == Normalized(m, Sub(t, r))
    ensures Dot(ViewMatrix(m, r, t, y)[2][..3], ViewMatrix(m, r, t, y)[2][..3]) == 1.0
  {
    var z := Normalized(m, Sub(t, r));
    assert ViewMatrix(m, r, t, y)[2][..3] == z;
    NormalizedIsUnit(m, Sub(t, r));
  }

  /**
   * The transpose of a 4 x 4 matrix whose first three columns are orthogonal to (e, 1) and
   * whose last column is (0, 0, 0, 1) sends (e, 1) to (0, 0, 0, 1).
   */
  lemma TransposeSendsToOrigin(a: Matrix, e: Vector)
    requires IsMat(a, 4, 4) && |e| == 3
    requires forall i :: 0 <= i < 3 ==> Dot(a[i], e + [1.0]) == 0.0
    requires a[3] == [0.0, 0.0, 0.0, 1.0]
    ensures MatVec(Transpose(a, 4), e + [1.0], 4) == [0.0, 0.0, 0.0, 1.0]
  {
    Dot4(a[3], e + [1.0]);
  }

  /** The corrected view matrix sends the eye (ws_r, 1) to the origin (0, 0, 0, 1). */
  lemma ViewMatrixCorrectedEye(m: Math, r: Vector, t: Vector, y: Vector)
    requires |r| == 3 && |t| == 3 && |y| == 3 && ViewDefined(m, r, t, y)
    ensures MatVec(ViewMatrixCorrected(m, r, t, y), r + [1.0], 4) == [0.0, 0.0, 0.0, 1.0]
  {
    ViewMatrixEye(m, r, t, y);
    TransposeSendsToOrigin(ViewMatrix(m, r, t, y), r);
  }

  /** A vector of squared length 1 has norm 1 and is its own normalisation. */
  lemma UnitNormalized(m: Math, v: Vector)
    requires Lawful(m) && Dot(v, v) == 1.0
    ensures Norm(m, v) == 1.0 && Normalized(m, v) == v
  {
    SqrtOfSquare(m, 1.0, 1.0);
  }

  /**
   * The axes view_matrix computes for eye (1, 0, 0), target (1, 0, 1) and up (0, 1, 0):
   * cs_z = (0, 0, 1), cs_x = (-1, 0, 0), and cs_y = cs_x % cs_z = (0, -1, 0) with the
   * as-written operator%.
   */
  lemma ExampleViewAxes(m: Math)
    requires Lawful(m)
    ensures Sub([1.0, 0.0, 1.0], [1.0, 0.0, 0.0]) == [0.0, 0.0, 1.0]
    ensures Norm(m, [0.0, 0.0, 1.0]) == 1.0 && Normalized(m, [0.0, 0.0, 1.0]) == [0.0, 0.0, 1.0]
    ensures Cross([0.0, 0.0, 1.0], [0.0, 1.0, 0.0]) == [-1.0, 0.0, 0.0]
    ensures Norm(m, [-1.0, 0.0, 0.0]) == 1.0 && Normalized(m, [-1.0, 0.0, 0.0]) == [-1.0, 0.0, 0.0]
    ensures Cross([-1.0, 0.0, 0.0], [0.0, 0.0, 1.0]) == [0.0, -1.0, 0.0]
  {
    SubIsComponentwise([1.0, 0.0, 1.0], [1.0, 0.0, 0.0]);
    Dot3([0.0, 0.0, 1.0], [0.0, 0.0, 1.0]);
    UnitNormalized(m, [0.0, 0.0, 1.0]);
    CrossAsWritten([0.0, 0.0, 1.0], [0.0, 1.0, 0.0]);
    Dot3([-1.0, 0.0, 0.0], [-1.0, 0.0, 0.0]);
    UnitNormalized(m, [-1.0, 0.0, 0.0]);
    CrossAsWritten([-1.0, 0.0, 0.0], [0.0, 0.0, 1.0]);
  }

  /** view_matrix for eye (1, 0, 0), target (1, 0, 1) and up (0, 1, 0), column by column. */
  lemma ExampleViewMatrix(m: Math)
    requires Lawful(m)
    ensures ViewDefined(m, [1.0, 0.0, 0.0], [1.0, 0.0, 1.0], [0.0, 1.0, 0.0])
    ensures ViewMatrix(m, [1.0, 0.0, 0.0], [1.0, 0.0, 1.0], [0.0, 1.0, 0.0])
            == [[-1.0, 0.0, 0.0, 1.0], [0.0, -1.0, 0.0, 0.0], [0.0, 0.0, 1.0, 0.0],
                [0.0, 0.0, 0.0, 1.0]]
  {
    ExampleViewAxes(m);
    var r, t, y := [1.0, 0.0, 0.0], [1.0, 0.0, 1.0], [0.0, 1.0, 0.0];
    var z := Normalized(m, Sub(t, r));
    assert z == [0.0, 0.0, 1.0];
    var x := Normalized(m, Cross(z, y));
    assert x == [-1.0, 0.0, 0.0];
    var u := Cross(x, z);
    assert u == [0.0, -1.0, 0.0];
    Dot3(Neg(r), x);
    Dot3(Neg(r), u);
    Dot3(Neg(r), z);
    assert ViewMatrix(m, r, t, y) == [x + [1.0], u + [0.0], z + [0.0], [0.0, 0.0, 0.0, 1.0]];
    assert x + [1.0] == [-1.0, 0.0, 0.0, 1.0];
    assert u + [0.0] == [0.0, -1.0, 0.0, 0.0];
    assert z + [0.0] == [0.0, 0.0, 1.0, 0.0];
  }

  /**
   * Under mat * vec, a 4 x 4 matrix with columns (-1, 0, 0, 1), (0, -1, 0, 0), (0, 0, c, 0)
   * and (0, 0, 0, 1) sends (1, 0, 0, 1) to (-1, 0, 0, 2): its last row is (1, 0, 0, 1).
   */
  lemma ExampleViewApply(c: real)
    ensures MatVec([[-1.0, 0.0, 0.0, 1.0], [0.0, -1.0, 0.0, 0.0], [0.0, 0.0, c, 0.0],
                    [0.0, 0.0, 0.0, 1.0]], [1.0, 0.0, 0.0, 1.0], 4)
            == [-1.0, 0.0, 0.0, 2.0]
  {
    var v := [[-1.0, 0.0, 0.0, 1.0], [0.0, -1.0, 0.0, 0.0], [0.0, 0.0, c, 0.0],
              [0.0, 0.0, 0.0, 1.0]];
    var w := [1.0, 0.0, 0.0, 1.0];
    forall i | 0 <= i < 4
      ensures MatVec(v, w, 4)[i] == [-1.0, 0.0, 0.0, 2.0][i]
    {
      Dot4(Row(v, 4, i), w);
    }
  }

  /**
   * As written, view_matrix does not send the eye to the origin under mat * vec: for eye
   * (1, 0, 0), target (1, 0, 1) and up (0, 1, 0) the eye goes to (-1, 0, 0, 2).
   */
  lemma ViewMatrixEyeCounterexample(m: Math)
    requires Lawful(m)
    ensures ViewDefined(m, [1.0, 0.0, 0.0], [1.0, 0.0, 1.0], [0.0, 1.0, 0.0])
    ensures MatVec(ViewMatrix(m, [1.0, 0.0, 0.0], [1.0, 0.0, 1.0], [0.0, 1.0, 0.0]),
                   [1.0, 0.0, 0.0, 1.0], 4)
            == [-1.0, 0.0, 0.0, 2.0]
  {
    ExampleViewMatrix(m);
    ExampleViewApply(1.0);
  }

  /** The clip coordinates of the point (x, y, z, 1) under a projection with depth scale a. */
  lemma PerspectiveWithApply(m: Math, fov: real, aspect: real, near: real, far: real, a: real,
                             x: real, y: real, z: real)
    requires PerspectiveDefined(m, fov, aspect, near, far)
    ensures MatVec(PerspectiveWith(m, fov, aspect, near, far, a), [x, y, z, 1.0], 4)
            == [1.0 / (aspect * TanHalf(m, fov)) * x, 1.0 / TanHalf(m, fov) * y,
                a * z + -2.0 * far * near / (far - near), z]
  {
    var p := PerspectiveWith(m, fov, aspect, near, far, a);
    var h := [x, y, z, 1.0];
    var want := [1.0 / (aspect * TanHalf(m, fov)) * x, 1.0 / TanHalf(m, fov) * y,
                 a * z + -2.0 * far * near / (far - near), z];
    forall j | 0 <= j < 4
      ensures MatVec(p, h, 4)[j] == want[j]
    {
      Dot4(Row(p, 4, j), h);
    }
  }

  /** As written, the depth scale is 1: the clip depth is z - 2 far near / (far - near). */
  lemma PerspectiveDepthAsWritten(m: Math, fov: real, aspect: real, near: real, far: real,
                                  x: real, y: real, z: real)
    requires PerspectiveDefined(m, fov, aspect, near, far)
    ensures MatVec(Perspective(m, fov, aspect, near, far), [x, y, z, 1.0], 4)[2]
            == z - 2.0 * far * near / (far - near)
    ensures MatVec(Perspective(m, fov, aspect, near, far), [x, y, z, 1.0], 4)[3] == z
  {
    assert (far - near) / (far - near) == 1.0;
    PerspectiveWithApply(m, fov, aspect, near, far, 1.0, x, y, z);
  }

  /**
   * With near = 1 and far = 2 the as-written matrix sends a point on the near plane to
   * clip depth -3 with w = 1, outside the [-w, w] range a projection is meant to produce.
   */
  lemma PerspectiveCounterexample(m: Math, fov: real, aspect: real)
    requires PerspectiveDefined(m, fov, aspect, 1.0, 2.0)
    ensures MatVec(Perspective(m, fov, aspect, 1.0, 2.0), [0.0, 0.0, 1.0, 1.0], 4)[2] == -3.0
    ensures MatVec(Perspective(m, fov, aspect, 1.0, 2.0), [0.0, 0.0, 1.0, 1.0], 4)[3] == 1.0
  {
    PerspectiveDepthAsWritten(m, fov, aspect, 1.0, 2.0, 0.0, 0.0, 1.0);
  }

  /** The corrected matrix sends the near plane to depth -w and the far plane to depth +w. */
  lemma PerspectiveCorrectedDepth(m: Math, fov: real, aspect: real, near: real, far: real,
                                  x: real, y: real)
    requires PerspectiveDefined(m, fov, aspect, near, far)
    ensures MatVec(PerspectiveCorrected(m, fov, aspect, near, far), [x, y, near, 1.0], 4)[2]
            == -near
    ensures MatVec(PerspectiveCorrected(m, fov, aspect, near, far), [x, y, far, 1.0], 4)[2]
            == far
  {
    var a := (far + near) / (far - near);
    PerspectiveWithApply(m, fov, aspect, near, far, a, x, y, near);
    PerspectiveWithApply(m, fov, aspect, near, far, a, x, y, far);
    DepthEnds(near, far);
  }

  /** The depth arithmetic of the corrected matrix at z = near and z = far. */
  lemma DepthEnds(near: real, far: real)
    requires far != near
    ensures (far + near) / (far - near) * near + -2.0 * far * near / (far - near) == -near
    ensures (far + near) / (far - near) * far + -2.0 * far * near / (far - near) == far
  {
    var d := far - near;
    var q := 1.0 / d;
    assert (far + near) / d == (far + near) * q;
    assert -2.0 * far * near / d == (-2.0 * far * near) * q;
    assert (far + near) * q * near + (-2.0 * far * near) * q == (near * near - far * near) * q;
    assert (near * near - far * near) == -near * d;
    assert d * q == 1.0;
    assert (far + near) * q * far + (-2.0 * far * near) * q == (far * far - far * near) * q;
    assert (far * far - far * near) == far * d;
  }
}
