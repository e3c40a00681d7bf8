/**
 * The variants that only the older copy src/include/linalg_templates.hpp has: its
 * view_matrix, its perspective_projection and its return-less matrix-times-vector. Everything
 * else in that header is the same as in linalg.hpp and is modelled once, in LinAlgVec,
 * LinAlgMat and LinAlgOps.
 */
module LinAlgOld {
  import opened Wrappers
  import opened Scalar
  import opened LinAlgVec
  import opened LinAlgMat
  import opened LinAlgFactories

  /**
   * mat::operator*(vec) of the old header: the loop fills a local `result` but the function
   * has no return statement, so the caller receives no defined value (None).
   */
  function MatVecOld(a: Matrix, v: Vector, m: nat): (r: Option<Vector>)
    requires IsMat(a, m, |v|)
    ensures r.None?
  {
    None
  }

  /** The two normalisations in the old view_matrix divide by non-zero norms. */
  predicate ViewOldDefined(m: Math, eye: Vector, center: Vector, up: Vector)
    requires |eye| == 3 && |center| == 3 && |up| == 3
  {
    Norm(m, Sub(center, eye)) != 0.0
    && Norm(m, Cross(Normalized(m, Sub(center, eye)), up)) != 0.0
  }

  /**
   * view_matrix(eye, center, up) of the old header: forward = normalized(center - eye),
   * right = normalized(forward % up), new_up = right % forward; the columns are
   * (right, -right . eye), (new_up, -new_up . eye), (-forward, forward . eye), (0, 0, 0, 1).
   */
  function ViewMatrixOld(m: Math, eye: Vector, center: Vector, up: Vector): (v: Matrix)
    requires |eye| == 3 && |center| == 3 && |up| == 3 && ViewOldDefined(m, eye, center, up)
    ensures IsMat(v, 4, 4)
  {
    var forward := Normalized(m, Sub(center, eye));
    var right := Normalized(m, Cross(forward, up));
    var newUp := Cross(right, forward);
    [right + [Dot(Neg(right), eye)],
     newUp + [Dot(Neg(newUp), eye)],
     Neg(forward) + [Dot(forward, eye)],
     [0.0, 0.0, 0.0, 1.0]]
  }

  /**
   * perspective_projection of the old header: third column (0, 0, far / delta, 1) and fourth
   * column (0, 0, -far near / delta, 0), with delta = far - near.
   */
  function PerspectiveOld(m: Math, fov: real, aspect: real, near: real, far: real): (p: Matrix)
    requires PerspectiveDefined(m, fov, aspect, near, far)
    ensures IsMat(p, 4, 4)
    ensures var q := Perspective(m, fov, aspect, near, far);
            p[0] == q[0] && p[1] == q[1] && p[2][3] == q[2][3]
  {
    var tf := TanHalf(m, fov);
    NonZeroProduct(aspect, tf);
    var q := PerspectiveWith(m, fov, aspect, near, far, 1.0);
    assert q == Perspective(m, fov, aspect, near, far);
    assert q[0][0] == 1.0 / (aspect * tf);
    assert q[1][1] == 1.0 / tf;
    [[1.0 / (aspect * tf), 0.0, 0.0, 0.0],
     [0.0, 1.0 / tf, 0.0, 0.0],
     [0.0, 0.0, far / (far - near), 1.0],
     [0.0, 0.0, -far * near / (far - near), 0.0]]
  }

  /**
   * The world-to-camera matrix the old view_matrix is meant to build under mat * vec: the
   * transpose of the as-written matrix, as for the newer view_matrix.
   */
  function ViewMatrixOldCorrected(m: Math, eye: Vector, center: Vector, up: Vector): (v: Matrix)
    requires |eye| == 3 && |center| == 3 && |up| == 3 && ViewOldDefined(m, eye, center, up)
    ensures IsMat(v, 4, 4)
  {
    Transpose(ViewMatrixOld(m, eye, center, up), 4)
  }

  // ---------------------------------------------------------------- lemmas

  /** Each of the first three columns of the old view_matrix is orthogonal to (eye, 1). */
  lemma ViewMatrixOldEye(m: Math, eye: Vector, center: Vector, up: Vector)
    requires |eye| == 3 && |center| == 3 && |up| == 3 && ViewOldDefined(m, eye, center, up)
    ensures forall i :: 0 <= i < 3 ==> Dot(ViewMatrixOld(m, eye, center, up)[i], eye + [1.0]) == 0.0
  {
    var forward := Normalized(m, Sub(center, eye));
    var right := Normalized(m, Cross(forward, up));
    var newUp := Cross(right, forward);
    DotNeg(right, eye);
    HomogeneousZero(right, eye, Dot(Neg(right), eye));
    DotNeg(newUp, eye);
    HomogeneousZero(newUp, eye, Dot(Neg(newUp), eye));
    DotNeg(forward, eye);
    HomogeneousZero(Neg(forward), eye, Dot(forward, eye));
  }

  /** The corrected old view matrix sends the eye (eye, 1) to the origin (0, 0, 0, 1). */
  lemma ViewMatrixOldCorrectedEye(m: Math, eye: Vector, center: Vector, up: Vector)
    requires |eye| == 3 && |center| == 3 && |up| == 3 && ViewOldDefined(m, eye, center, up)
    ensures MatVec(ViewMatrixOldCorrected(m, eye, center, up), eye + [1.0], 4)
            == [0.0, 0.0, 0.0, 1.0]
  {
    ViewMatrixOldEye(m, eye, center, up);
    TransposeSendsToOrigin(ViewMatrixOld(m, eye, center, up), eye);
  }

  /** The old view_matrix for eye (1, 0, 0), center (1, 0, 1) and up (0, 1, 0). */
  lemma ExampleViewMatrixOld(m: Math)
    requires Lawful(m)
    ensures ViewOldDefined(m, [1.0, 0.0, 0.0], [1.0, 0.0, 1.0], [0.0, 1.0, 0.0])
    ensures ViewMatrixOld(m, [1.0, 0.0, 0.0], [1.0, 0.0, 1.0], [0.0, 1.0, 0.0])
            == [[-1.0, 0.0, 0.0, 1.0], [0.0, -1.0, 0.0, 0.0], [0.0, 0.0, -1.0, 0.0],
                [0.0, 0.0, 0.0, 1.0]]
  {
    ExampleViewAxes(m);
    var eye, center, up := [1.0, 0.0, 0.0], [1.0, 0.0, 1.0], [0.0, 1.0, 0.0];
    var forward := Normalized(m, Sub(center, eye));
    assert forward == [0.0, 0.0, 1.0];
    var right := Normalized(m, Cross(forward, up));
    assert right == [-1.0, 0.0, 0.0];
    var newUp := Cross(right, forward);
    assert newUp == [0.0, -1.0, 0.0];
    Dot3(Neg(right), eye);
    Dot3(Neg(newUp), eye);
    Dot3(forward, eye);
    assert Neg(forward) == [0.0, 0.0, -1.0];
    assert ViewMatrixOld(m, eye, center, up)
           == [right + [1.0], newUp + [0.0], Neg(forward) + [0.0], [0.0, 0.0, 0.0, 1.0]];
    assert right + [1.0] == [-1.0, 0.0, 0.0, 1.0];
    assert newUp + [0.0] == [0.0, -1.0, 0.0, 0.0];
    assert Neg(forward) + [0.0] == [0.0, 0.0, -1.0, 0.0];
  }

  /**
   * As written, the old view_matrix does not send the eye to the origin under mat * vec: for
   * eye (1, 0, 0), center (1, 0, 1) and up (0, 1, 0) the eye goes to (-1, 0, 0, 2).
   */
  lemma ViewMatrixOldEyeCounterexample(m: Math)
    requires Lawful(m)
    ensures ViewOldDefined(m, [1.0, 0.0, 0.0], [1.0, 0.0, 1.0], [0.0, 1.0, 0.0])
    ensures MatVec(ViewMatrixOld(m, [1.0, 0.0, 0.0], [1.0, 0.0, 1.0], [0.0, 1.0, 0.0]),
                   [1.0, 0.0, 0.0, 1.0], 4)
            == [-1.0, 0.0, 0.0, 2.0]
  {
    ExampleViewMatrixOld(m);
    ExampleViewApply(-1.0);
  }

  /** The third column of the old view_matrix points from center back to eye. */
  lemma ViewMatrixOldBackward(m: Math, eye: Vector, center: Vector, up: Vector)
    requires |eye| == 3 && |center| == 3 && |up| == 3 && ViewOldDefined(m, eye, center, up)
    ensures ViewMatrixOld(m, eye, center, up)[2][..3] == Neg(Normalized(m, Sub(center, eye)))
  {
    var f := Neg(Normalized(m, Sub(center, eye)));
    assert ViewMatrixOld(m, eye, center, up)[2] == f + [Dot(Normalized(m, Sub(center, eye)), eye)];
  }

  /** Clip depth and w of the point (x, y, z, 1) under the old projection. */
  lemma PerspectiveOldApply(m: Math, fov: real, aspect: real, near: real, far: real,
                            x: real, y: real, z: real)
    requires PerspectiveDefined(m, fov, aspect, near, far)
    ensures MatVec(PerspectiveOld(m, fov, aspect, near, far), [x, y, z, 1.0], 4)
            == [1.0 / (aspect * TanHalf(m, fov)) * x, 1.0 / TanHalf(m, fov) * y,
                far / (far - near) * z + -far * near / (far - near), z]
  {
    var p := PerspectiveOld(m, fov, aspect, near, far);
    var h := [x, y, z, 1.0];
    var want := [1.0 / (aspect * TanHalf(m, fov)) * x, 1.0 / TanHalf(m, fov) * y,
                 far / (far - near) * z + -far * near / (far - near), z];
    forall j | 0 <= j < 4
      ensures MatVec(p, h, 4)[j] == want[j]
    {
      Dot4(Row(p, 4, j), h);
    }
  }

  /** The old projection sends the near plane to depth 0 and the far plane to depth w. */
  lemma PerspectiveOldDepth(m: Math, fov: real, aspect: real, near: real, far: real,
                            x: real, y: real)
    requires PerspectiveDefined(m, fov, aspect, near, far)
    ensures MatVec(PerspectiveOld(m, fov, aspect, near, far), [x, y, near, 1.0], 4)[2] == 0.0
    ensures MatVec(PerspectiveOld(m, fov, aspect, near, far), [x, y, far, 1.0], 4)[2] == far
    ensures MatVec(PerspectiveOld(m, fov, aspect, near, far), [x, y, far, 1.0], 4)[3] == far
  {
    PerspectiveOldApply(m, fov, aspect, near, far, x, y, near);
    PerspectiveOldApply(m, fov, aspect, near, far, x, y, far);
    ZeroToOneEnds(near, far);
  }

  /** The depth arithmetic of the old projection at z = near and z = far. */
  lemma ZeroToOneEnds(near: real, far: real)
    requires far != near
    ensures far / (far - near) * near + -far * near / (far - near) == 0.0
    ensures far / (far - near) * far + -far * near / (far - near) == far
  {
    var d := far - near;
    var q := 1.0 / d;
    assert far / d == far * q;
    assert -far * near / d == (-far * near) * q;
    assert far * q * far + (-far * near) * q == (far * d) * q;
    assert d * q == 1.0;
  }
}
