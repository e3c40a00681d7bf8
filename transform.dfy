/**
 * str::Transform (src/transform.cpp): a shape tag, a smoothness clamped into [0, 1], a colour,
 * and the size, position and rotation vectors that scale/translate/rotate update in place.
 * model() multiplies the translation, the three axis rotations and the scale into one 4x4
 * matrix.
 */
module Transforms {
  import opened Scalar
  import opened LinAlgVec
  import opened LinAlgMat
  import opened LinAlgFactories

  /** The smoothness the constructor stores: negative becomes 0, above 1 becomes 1. */
  function Clamp(sm: real): (r: real)
    ensures 0.0 <= r <= 1.0
    ensures sm < 0.0 ==> r == 0.0
    ensures sm > 1.0 ==> r == 1.0
    ensures 0.0 <= sm <= 1.0 ==> r == sm
  {
    if sm < 0.0 then 0.0 else if sm > 1.0 then 1.0 else sm
  }

  /** Clamping is idempotent and never moves a value already in range. */
  lemma ClampIdempotent(sm: real)
    ensures Clamp(Clamp(sm)) == Clamp(sm)
    ensures Clamp(sm) == sm <==> 0.0 <= sm <= 1.0
  {
  }

  /** Clamping preserves order. */
  lemma ClampMonotone(a: real, b: real)
    requires a <= b
    ensures Clamp(a) <= Clamp(b)
  {
  }

  /** The three axis rotations of model(): Rz * Ry * Rx, with y turned about (0, -1, 0). */
  function RotationOf(m: Math, rotation: Vector): (r: Matrix)
    requires |rotation| == 3
    ensures IsMat(r, 4, 4)
  {
    var rx := RotationMatrix(m, rotation[0], [1.0, 0.0, 0.0]);
    var ry := RotationMatrix(m, rotation[1], [0.0, -1.0, 0.0]);
    var rz := RotationMatrix(m, rotation[2], [0.0, 0.0, 1.0]);
    MatMul(MatMul(rz, ry, 4), rx, 4)
  }

  /** T * R * S for the given position, rotation and size, multiplied left to right. */
  function ModelOf(m: Math, size: Vector, position: Vector, rotation: Vector): (t: Matrix)
    requires |size| == 3 && |position| == 3 && |rotation| == 3
    ensures IsMat(t, 4, 4)
  {
    var tr := TranslationMatrix(position);
    var s := ScaleMatrix(size[0], size[1], size[2]);
    MatMul(MatMul(tr, RotationOf(m, rotation), 4), s, 4)
  }

  /** An angle at which the rotation factor for that axis is the identity. */
  predicate ZeroAngle(m: Math, theta: real)
  {
    m.sin(theta) == 0.0 && m.cos(theta) == 1.0
  }

  class Transform<Shape> {
    var shape: Shape
    var smoothness: real
    var color: Vector
    var size: Vector
    var position: Vector
    var rotation: Vector

    /** Three-component vectors and a smoothness inside [0, 1]. */
    predicate Valid()
      reads this
    {
      |color| == 3 && |size| == 3 && |position| == 3 && |rotation| == 3
      && 0.0 <= smoothness <= 1.0
    }

    /**
     * Transform(shape, smoothness, color): the smoothness is clamped into [0, 1]; size,
     * position and rotation keep their defaults (1,1,1), (0,0,0) and (0,0,0).
     */
    constructor(sh: Shape, sm: real, col: Vector)
      requires |col| == 3
      ensures Valid()
      ensures shape == sh && smoothness == Clamp(sm) && color == col
      ensures size == [1.0, 1.0, 1.0] && position == Zero(3) && rotation == Zero(3)
    {
      shape := sh;
      var s := sm;
      if s < 0.0 {
        s := 0.0;
      } else if s > 1.0 {
        s := 1.0;
      }
      smoothness := s;
      color := col;
      size := [1.0, 1.0, 1.0];
      position := Zero(3);
      rotation := Zero(3);
    }

    /** model(): T * (Rz * Ry * Rx) * S from the current position, rotation and size. */
    function Model(m: Math): (t: Matrix)
      reads this
      requires Valid()
      ensures IsMat(t, 4, 4)
    {
      ModelOf(m, size, position, rotation)
    }

    /** scale(s): size := size + s; the other fields stay; returns *this. */
    method Scale(s: Vector) returns (self: Transform<Shape>)
      requires Valid() && |s| == 3
      modifies this
      ensures Valid() && self == this
      ensures size == Add(old(size), s)
      ensures position == old(position) && rotation == old(rotation)
      ensures shape == old(shape) && smoothness == old(smoothness) && color == old(color)
    {
      size := Add(size, s);
      self := this;
    }

    /** translate(mag, dir): position := position + mag * normalized(dir); returns *this. */
    method Translate(m: Math, mag: real, dir: Vector) returns (self: Transform<Shape>)
      requires Valid() && |dir| == 3 && Norm(m, dir) != 0.0
      modifies this
      ensures Valid() && self == this
      ensures position == Add(old(position), LinAlgVec.Scale(mag, Normalized(m, dir)))
      ensures size == old(size) && rotation == old(rotation)
      ensures shape == old(shape) && smoothness == old(smoothness) && color == old(color)
    {
      position := Add(position, LinAlgVec.Scale(mag, Normalized(m, dir)));
      self := this;
    }

    /** rotate(r): rotation := rotation + r; returns *this. */
    method Rotate(r: Vector) returns (self: Transform<Shape>)
      requires Valid() && |r| == 3
      modifies this
      ensures Valid() && self == this
      ensures rotation == Add(old(rotation), r)
      ensures size == old(size) && position == old(position)
      ensures shape == old(shape) && smoothness == old(smoothness) && color == old(color)
    {
      rotation := Add(rotation, r);
      self := this;
    }

    /** Two scale calls leave the same size as one call with the summed vector. */
    method ScaleTwice(a: Vector, b: Vector)
      requires Valid() && |a| == 3 && |b| == 3
      modifies this
      ensures Valid() && size == Add(old(size), Add(a, b))
      ensures position == old(position) && rotation == old(rotation)
    {
      var t := Scale(a);
      t := Scale(b);
      AddAssociative(old(size), a, b);
    }

    /** Two rotate calls leave the same rotation as one call with the summed vector. */
    method RotateTwice(a: Vector, b: Vector)
      requires Valid() && |a| == 3 && |b| == 3
      modifies this
      ensures Valid() && rotation == Add(old(rotation), Add(a, b))
      ensures size == old(size) && position == old(position)
    {
      var t := Rotate(a);
      t := Rotate(b);
      AddAssociative(old(rotation), a, b);
    }
  }

  /** Vector addition regroups: (v + a) + b == v + (a + b). */
  lemma AddAssociative(v: Vector, a: Vector, b: Vector)
    requires |v| == |a| == |b|
    ensures Add(Add(v, a), b) == Add(v, Add(a, b))
  {
    forall i | 0 <= i < |v|
      ensures Add(Add(v, a), b)[i] == Add(v, Add(a, b))[i]
    {
    }
  }

  /** The translation matrix leaves a direction (last component 0) where it is. */
  lemma TranslationFixesDirections(p: Vector, v: Vector)
    requires |p| == 3 && |v| == 4 && v[3] == 0.0
    ensures MatVec(TranslationMatrix(p), v, 4) == v
  {
    var t := TranslationMatrix(p);
    IdentityEntries(4);
    forall j | 0 <= j < 4
      ensures MatVec(t, v, 4)[j] == v[j]
    {
      Dot4(Row(t, 4, j), v);
    }
  }

  /** The translation matrix sends the homogeneous origin to (p, 1). */
  lemma TranslationMovesOrigin(p: Vector)
    requires |p| == 3
    ensures MatVec(TranslationMatrix(p), [0.0, 0.0, 0.0, 1.0], 4) == p + [1.0]
  {
    var t := TranslationMatrix(p);
    var o := [0.0, 0.0, 0.0, 1.0];
    IdentityEntries(4);
    forall j | 0 <= j < 4
      ensures MatVec(t, o, 4)[j] == (p + [1.0])[j]
    {
      Dot4(Row(t, 4, j), o);
    }
  }

  /** With every rotation angle at zero, Rz * Ry * Rx is the identity. */
  lemma RotationOfZero(m: Math, rotation: Vector)
    requires |rotation| == 3
    requires ZeroAngle(m, rotation[0]) && ZeroAngle(m, rotation[1]) && ZeroAngle(m, rotation[2])
    ensures RotationOf(m, rotation) == Identity(4)
  {
    RotationMatrixZeroAngle(m, rotation[0], [1.0, 0.0, 0.0]);
    RotationMatrixZeroAngle(m, rotation[1], [0.0, -1.0, 0.0]);
    RotationMatrixZeroAngle(m, rotation[2], [0.0, 0.0, 1.0]);
    IdentityEntries(4);
    MatMulIdentityLeft(Identity(4), 4);
  }

  /**
   * Without rotation, model() is scale then translate: the columns are
   * (sx,0,0,0), (0,sy,0,0), (0,0,sz,0) and (position, 1).
   */
  lemma ModelWithoutRotation(m: Math, size: Vector, position: Vector, rotation: Vector)
    requires |size| == 3 && |position| == 3 && |rotation| == 3
    requires ZeroAngle(m, rotation[0]) && ZeroAngle(m, rotation[1]) && ZeroAngle(m, rotation[2])
    ensures ModelOf(m, size, position, rotation)
            == [[size[0], 0.0, 0.0, 0.0], [0.0, size[1], 0.0, 0.0], [0.0, 0.0, size[2], 0.0],
                position + [1.0]]
  {
    var tr := TranslationMatrix(position);
    var s := ScaleMatrix(size[0], size[1], size[2]);
    RotationOfZero(m, rotation);
    MatMulIdentityRight(tr, 4);
    MatMulColumns(tr, s, 4);
    var want := [[size[0], 0.0, 0.0, 0.0], [0.0, size[1], 0.0, 0.0],
                 [0.0, 0.0, size[2], 0.0], position + [1.0]];
    forall c | 0 <= c < 3
      ensures MatMul(tr, s, 4)[c] == want[c]
    {
      assert s[c] == want[c];
      TranslationFixesDirections(position, s[c]);
    }
    assert s[3] == [0.0, 0.0, 0.0, 1.0];
    TranslationMovesOrigin(position);
  }

  /** A fresh transform's model() is the identity. */
  lemma FreshModelIsIdentity(m: Math)
    requires ZeroAngle(m, 0.0)
    ensures ModelOf(m, [1.0, 1.0, 1.0], Zero(3), Zero(3)) == Identity(4)
  {
    ModelWithoutRotation(m, [1.0, 1.0, 1.0], Zero(3), Zero(3));
    IdentityEntries(4);
    var want := [[1.0, 0.0, 0.0, 0.0], [0.0, 1.0, 0.0, 0.0], [0.0, 0.0, 1.0, 0.0],
                 Zero(3) + [1.0]];
    forall c | 0 <= c < 4
      ensures want[c] == Identity(4)[c]
    {
    }
  }
}
