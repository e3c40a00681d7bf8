/**
 * The ray/primitive tests of src/intersections.cpp: `Sphere` (quadratic discriminant) and
 * `Cube` (slab test against a box given by two opposite corners). `Sphere::operator()` is
 * straight-line code and is a function; `Cube::operator()` fills a matrix and swaps slab
 * bounds in loops, so it is a method proved equal to the function CubeInfo.
 */
module Intersections {
  import opened Wrappers
  import opened Scalar
  import opened LinAlgVec
  import opened LinAlgMat

  /** str::Ray: origin, direction and the colour carried along it. */
  datatype Ray = Ray(origin: Vector, direction: Vector, color: Vector)

  /** Intersection::Info: whether the ray hit, and where, with which normal and colour. */
  datatype Info = Info(hit: bool, point: Vector, normal: Vector, color: Vector)

  datatype Sphere = Sphere(center: Vector, radius: real, color: Vector)

  datatype Cube = Cube(center: Vector, length: real, color: Vector)

  /** `Info{ false }`: the other fields keep their zero defaults. */
  const Miss: Info := Info(false, [0.0, 0.0, 0.0], [0.0, 0.0, 0.0], [0.0, 0.0, 0.0])

  /** All three vectors of the ray are 3-vectors, and the direction can be normalized. */
  predicate ValidRay(m: Math, ray: Ray)
  {
    |ray.origin| == 3 && |ray.direction| == 3 && |ray.color| == 3
    && Norm(m, ray.direction) != 0.0
  }

  predicate ValidSphere(s: Sphere)
  {
    |s.center| == 3 && |s.color| == 3 && s.radius > 0.0
  }

  predicate ValidCube(c: Cube)
  {
    |c.center| == 3 && |c.color| == 3 && c.length > 0.0
  }

  /** Sphere::Sphere: std::runtime_error when the radius is not positive. */
  function NewSphere(c: Vector, r: real, col: Vector): (s: Result<Sphere>)
    ensures s.Throw? <==> r <= 0.0
    ensures s.Throw? ==> s.error == RuntimeError
    ensures s.Ok? ==> s.value == Sphere(c, r, col)
  {
    if r <= 0.0 then Throw(RuntimeError) else Ok(Sphere(c, r, col))
  }

  /** Cube::Cube: std::runtime_error when the side length is not positive. */
  function NewCube(c: Vector, l: real, col: Vector): (r: Result<Cube>)
    ensures r.Throw? <==> l <= 0.0
    ensures r.Throw? ==> r.error == RuntimeError
    ensures r.Ok? ==> r.value == Cube(c, l, col)
  {
    if l <= 0.0 then Throw(RuntimeError) else Ok(Cube(c, l, col))
  }

  // ---------------------------------------------------------------- sphere

  /** The unit direction D = ray.direction.normalized(). */
  function RayDir(m: Math, ray: Ray): (d: Vector)
    requires ValidRay(m, ray)
    ensures |d| == 3
  {
    Normalized(m, ray.direction)
  }

  /** L = ray.origin - center. */
  function SphereL(s: Sphere, ray: Ray): (l: Vector)
    requires ValidSphere(s) && |ray.origin| == 3
    ensures |l| == 3
  {
    Sub(ray.origin, s.center)
  }

  /** b = 2 (L . D). */
  function SphereB(m: Math, s: Sphere, ray: Ray): real
    requires ValidSphere(s) && ValidRay(m, ray)
  {
    2.0 * Dot(SphereL(s, ray), RayDir(m, ray))
  }

  /** c = L . L - radius^2. */
  function SphereC(s: Sphere, ray: Ray): real
    requires ValidSphere(s) && |ray.origin| == 3
  {
    Dot(SphereL(s, ray), SphereL(s, ray)) - s.radius * s.radius
  }

  /** b^2 - 4c. */
  function Discriminant(m: Math, s: Sphere, ray: Ray): real
    requires ValidSphere(s) && ValidRay(m, ray)
  {
    SphereB(m, s, ray) * SphereB(m, s, ray) - 4.0 * SphereC(s, ray)
  }

  /** b^2/4 - c, the radicand of the half-discriminant form the source uses. */
  function SphereQ(m: Math, s: Sphere, ray: Ray): real
    requires ValidSphere(s) && ValidRay(m, ray)
  {
    SphereB(m, s, ray) * SphereB(m, s, ray) / 4.0 - SphereC(s, ray)
  }

  /** sqrt(b^2/4 - c). */
  function SphereSd(m: Math, s: Sphere, ray: Ray): real
    requires ValidSphere(s) && ValidRay(m, ray)
  {
    Sqrt(m, SphereQ(m, s, ray))
  }

  /** t = fmin(-b/2 - sqrt(b^2/4 - c), -b/2 + sqrt(b^2/4 - c)). */
  function SphereT(m: Math, s: Sphere, ray: Ray): real
    requires ValidSphere(s) && ValidRay(m, ray)
  {
    Fmin(-SphereB(m, s, ray) / 2.0 - SphereSd(m, s, ray),
         -SphereB(m, s, ray) / 2.0 + SphereSd(m, s, ray))
  }

  /** P = ray.origin + t D. */
  function SpherePoint(m: Math, s: Sphere, ray: Ray): (p: Vector)
    requires ValidSphere(s) && ValidRay(m, ray)
    ensures |p| == 3
  {
    Add(ray.origin, Scale(SphereT(m, s, ray), RayDir(m, ray)))
  }

  /**
   * Sphere::operator(): a miss (all fields zero) when the discriminant is negative;
   * otherwise the nearer root's point, the normalized radius vector there as normal, and
   * the sum of the ray's and the sphere's colours.
   */
  function SphereHit(m: Math, s: Sphere, ray: Ray): (info: Info)
    requires Lawful(m) && ValidSphere(s) && ValidRay(m, ray)
    ensures info.hit <==> Discriminant(m, s, ray) >= 0.0
    ensures !info.hit ==> info == Miss
    ensures info.hit ==> info.point == SpherePoint(m, s, ray)
                         && info.color == Add(ray.color, s.color)
  {
    if Discriminant(m, s, ray) < 0.0 then Miss
    else
      var p := SpherePoint(m, s, ray);
      SphereRadiusNorm(m, s, ray);
      Info(true, p, Normalized(m, Sub(p, s.center)), Add(ray.color, s.color))
  }

  // ---------------------------------------------------------------- sphere lemmas

  /** The radicand is a quarter of the discriminant. */
  lemma QuarterDiscriminant(m: Math, s: Sphere, ray: Ray)
    requires ValidSphere(s) && ValidRay(m, ray)
    ensures SphereQ(m, s, ray) == Discriminant(m, s, ray) / 4.0
  {
  }

  /** On a hit, t is the smaller of the two roots -b/2 -+ sqrt(b^2/4 - c). */
  lemma SphereNearestRoot(m: Math, s: Sphere, ray: Ray)
    requires Lawful(m) && ValidSphere(s) && ValidRay(m, ray) && Discriminant(m, s, ray) >= 0.0
    ensures SphereT(m, s, ray) == -SphereB(m, s, ray) / 2.0 - SphereSd(m, s, ray)
    ensures SphereSd(m, s, ray) * SphereSd(m, s, ray) == SphereQ(m, s, ray)
  {
    QuarterDiscriminant(m, s, ray);
    assert 0.0 <= SphereSd(m, s, ray);
  }

  /** The nearer root t solves t^2 + b t + c == 0. */
  lemma RootSolves(t: real, b: real, c: real, sd: real)
    requires sd * sd == b * b / 4.0 - c && t == -b / 2.0 - sd
    ensures t * t + b * t + c == 0.0
  {
    assert t + b / 2.0 == -sd;
    assert (t + b / 2.0) * (t + b / 2.0) == sd * sd;
  }

  /** |l + s|^2 == |l|^2 + 2 (l . s) + |s|^2. */
  lemma DotSumSquare(l: Vector, s: Vector)
    requires |l| == |s|
    ensures Dot(Add(l, s), Add(l, s)) == Dot(l, l) + 2.0 * Dot(l, s) + Dot(s, s)
  {
    var w := Add(l, s);
    DotAdd(w, l, s);
    DotComm(w, l);
    DotComm(w, s);
    DotAdd(l, l, s);
    DotAdd(s, l, s);
    DotComm(s, l);
  }

  /** The scalar step: with ls = t ld, ss = t (t dd), dd = 1 and b = 2 ld. */
  lemma RayArithmetic(ww: real, ll: real, ls: real, ss: real, ld: real, dd: real, t: real,
                      b: real)
    requires ww == ll + 2.0 * ls + ss && ls == t * ld && ss == t * (t * dd)
    requires dd == 1.0 && b == 2.0 * ld
    ensures ww == ll + b * t + t * t
  {
  }

  /** For |d| = 1 and b = 2 (l . d): |l + t d|^2 == |l|^2 + b t + t^2. */
  lemma OnRayVector(l: Vector, d: Vector, t: real, b: real)
    requires |l| == |d|
    requires Dot(d, d) == 1.0 && b == 2.0 * Dot(l, d)
    ensures Dot(Add(l, Scale(t, d)), Add(l, Scale(t, d))) == Dot(l, l) + b * t + t * t
  {
    DotSumSquare(l, Scale(t, d));
    DotScale(l, t, d);
    DotScaleBoth(t, d);
    RayArithmetic(Dot(Add(l, Scale(t, d)), Add(l, Scale(t, d))), Dot(l, l),
                  Dot(l, Scale(t, d)), Dot(Scale(t, d), Scale(t, d)), Dot(l, d), Dot(d, d),
                  t, b);
  }

  /** P - center == L + t D. */
  lemma SpherePointOffset(m: Math, s: Sphere, ray: Ray)
    requires ValidSphere(s) && ValidRay(m, ray)
    ensures Sub(SpherePoint(m, s, ray), s.center)
            == Add(SphereL(s, ray), Scale(SphereT(m, s, ray), RayDir(m, ray)))
  {
    var w := Sub(SpherePoint(m, s, ray), s.center);
    var v := Add(SphereL(s, ray), Scale(SphereT(m, s, ray), RayDir(m, ray)));
    SubIsComponentwise(SpherePoint(m, s, ray), s.center);
    SubIsComponentwise(ray.origin, s.center);
    forall i | 0 <= i < 3
      ensures w[i] == v[i]
    {
    }
  }

  /** The reported t solves t^2 + b t + c == 0. */
  lemma SphereRootEquation(m: Math, s: Sphere, ray: Ray)
    requires Lawful(m) && ValidSphere(s) && ValidRay(m, ray) && Discriminant(m, s, ray) >= 0.0
    ensures SphereT(m, s, ray) * SphereT(m, s, ray) + SphereB(m, s, ray) * SphereT(m, s, ray)
            + SphereC(s, ray) == 0.0
  {
    SphereNearestRoot(m, s, ray);
    RootSolves(SphereT(m, s, ray), SphereB(m, s, ray), SphereC(s, ray), SphereSd(m, s, ray));
  }

  /** |P - center|^2 == |L|^2 + b t + t^2, since D has unit length. */
  lemma SphereOffsetSquare(m: Math, s: Sphere, ray: Ray)
    requires Lawful(m) && ValidSphere(s) && ValidRay(m, ray)
    ensures Dot(Sub(SpherePoint(m, s, ray), s.center), Sub(SpherePoint(m, s, ray), s.center))
            == Dot(SphereL(s, ray), SphereL(s, ray)) + SphereB(m, s, ray) * SphereT(m, s, ray)
               + SphereT(m, s, ray) * SphereT(m, s, ray)
  {
    SpherePointOffset(m, s, ray);
    NormalizedIsUnit(m, ray.direction);
    OnRayVector(SphereL(s, ray), RayDir(m, ray), SphereT(m, s, ray), SphereB(m, s, ray));
  }

  /** The point the sphere test reports lies on the sphere: |P - center|^2 == radius^2. */
  lemma SpherePointOnSurface(m: Math, s: Sphere, ray: Ray)
    requires Lawful(m) && ValidSphere(s) && ValidRay(m, ray) && Discriminant(m, s, ray) >= 0.0
    ensures var w := Sub(SpherePoint(m, s, ray), s.center);
            Dot(w, w) == s.radius * s.radius
  {
    SphereRootEquation(m, s, ray);
    SphereOffsetSquare(m, s, ray);
  }

  /** The radius vector at the hit point has norm radius, so it can be normalized. */
  lemma SphereRadiusNorm(m: Math, s: Sphere, ray: Ray)
    requires Lawful(m) && ValidSphere(s) && ValidRay(m, ray) && Discriminant(m, s, ray) >= 0.0
    ensures Norm(m, Sub(SpherePoint(m, s, ray), s.center)) == s.radius
  {
    SpherePointOnSurface(m, s, ray);
    SqrtOfSquare(m, s.radius,
      Dot(Sub(SpherePoint(m, s, ray), s.center), Sub(SpherePoint(m, s, ray), s.center)));
  }

  /** A sphere hit's normal has unit length. */
  lemma SphereNormalIsUnit(m: Math, s: Sphere, ray: Ray)
    requires Lawful(m) && ValidSphere(s) && ValidRay(m, ray) && SphereHit(m, s, ray).hit
    ensures Dot(SphereHit(m, s, ray).normal, SphereHit(m, s, ray).normal) == 1.0
  {
    var p := SpherePoint(m, s, ray);
    SphereRadiusNorm(m, s, ray);
    NormalizedIsUnit(m, Sub(p, s.center));
  }

  // ---------------------------------------------------------------- cube

  /** The corner center + length * normalized(dir) of the box. */
  function Corner(m: Math, c: Cube, dir: Vector): (r: Vector)
    requires Lawful(m) && ValidCube(c) && |dir| == 3 && Dot(dir, dir) == 3.0
    ensures |r| == 3
  {
    SqrtThreeNonZero(m, dir);
    Add(c.center, Scale(c.length, Normalized(m, dir)))
  }

  /** r_min = center + length * normalized((-1, 1, -1)). */
  function RMin(m: Math, c: Cube): (r: Vector)
    requires Lawful(m) && ValidCube(c)
    ensures |r| == 3
  {
    CornerDirections();
    Corner(m, c, [-1.0, 1.0, -1.0])
  }

  /** r_max = center + length * normalized((1, -1, 1)). */
  function RMax(m: Math, c: Cube): (r: Vector)
    requires Lawful(m) && ValidCube(c)
    ensures |r| == 3
  {
    CornerDirections();
    Corner(m, c, [1.0, -1.0, 1.0])
  }

  /** The factor D[i][i]: 1 / dir[i] where dir[i] != 0, else the identity's 1. */
  function InvOrOne(x: real): (r: real)
    ensures x != 0.0 ==> r * x == 1.0
    ensures x == 0.0 ==> r == 1.0
  {
    if x != 0.0 then 1.0 / x else 1.0
  }

  /** The diagonal matrix D of Cube::operator(). */
  function InvDiag(dir: Vector): (d: Matrix)
    requires |dir| == 3
    ensures IsMat(d, 3, 3)
  {
    seq(3, c requires 0 <= c < 3 =>
      seq(3, r requires 0 <= r < 3 => if r == c then InvOrOne(dir[c]) else 0.0))
  }

  /** t_min = D * (r_min - origin), before the swap. */
  function TMin(m: Math, c: Cube, ray: Ray): (t: Vector)
    requires Lawful(m) && ValidCube(c) && ValidRay(m, ray)
    ensures |t| == 3
  {
    MatVec(InvDiag(ray.direction), Sub(RMin(m, c), ray.origin), 3)
  }

  /** t_max = D * (r_max - origin), before the swap. */
  function TMax(m: Math, c: Cube, ray: Ray): (t: Vector)
    requires Lawful(m) && ValidCube(c) && ValidRay(m, ray)
    ensures |t| == 3
  {
    MatVec(InvDiag(ray.direction), Sub(RMax(m, c), ray.origin), 3)
  }

  /** The swap loop leaves the smaller bound of each axis in t_min... */
  function Lower(a: Vector, b: Vector): (r: Vector)
    requires |a| == |b|
    ensures |r| == |a|
  {
    seq(|a|, i requires 0 <= i < |a| => Fmin(a[i], b[i]))
  }

  /** ...and the larger in t_max. */
  function Upper(a: Vector, b: Vector): (r: Vector)
    requires |a| == |b|
    ensures |r| == |a|
  {
    seq(|a|, i requires 0 <= i < |a| => Fmax(a[i], b[i]))
  }

  /** t_enter = fmax(fmax(t_min[0], t_min[1]), t_min[2]). */
  function Enter(lo: Vector): real
    requires |lo| == 3
  {
    Fmax(Fmax(lo[0], lo[1]), lo[2])
  }

  /** t_exit AS WRITTEN: fmin(fmax(t_max[0], t_max[1]), t_max[2]). */
  function ExitAsWritten(hi: Vector): real
    requires |hi| == 3
  {
    Fmin(Fmax(hi[0], hi[1]), hi[2])
  }

  /** t_exit as the slab test needs it: the smallest of the three upper bounds. */
  function Exit(hi: Vector): real
    requires |hi| == 3
  {
    Fmin(Fmin(hi[0], hi[1]), hi[2])
  }

  /** t lies in all three slabs [lo[i], hi[i]]. */
  predicate InAllSlabs(lo: Vector, hi: Vector, t: real)
    requires |lo| == 3 && |hi| == 3
  {
    forall i :: 0 <= i < 3 ==> lo[i] <= t <= hi[i]
  }

  /** The hit condition `t_enter <= t_exit && t_exit >= 0`. */
  predicate SlabsHit(enter: real, exit: real)
  {
    enter <= exit && exit >= 0.0
  }

  /** Cube::face AS WRITTEN: +-X for the first axis whose bound equals t, else zero. */
  function FaceAsWritten(t: real, tv: Vector, d: Vector): (n: Vector)
    requires |tv| == 3 && |d| == 3
    ensures |n| == 3
  {
    if t == tv[0] then (if d[0] < 0.0 then [-1.0, 0.0, 0.0] else [1.0, 0.0, 0.0])
    else if t == tv[1] then (if d[1] < 0.0 then [-1.0, 0.0, 0.0] else [1.0, 0.0, 0.0])
    else if t == tv[2] then (if d[2] < 0.0 then [-1.0, 0.0, 0.0] else [1.0, 0.0, 0.0])
    else [0.0, 0.0, 0.0]
  }

  /** Cube::face with the normal on the axis that was matched, signed as the source signs it. */
  function Face(t: real, tv: Vector, d: Vector): (n: Vector)
    requires |tv| == 3 && |d| == 3
    ensures |n| == 3
  {
    if t == tv[0] then AxisNormal(0, d[0])
    else if t == tv[1] then AxisNormal(1, d[1])
    else if t == tv[2] then AxisNormal(2, d[2])
    else [0.0, 0.0, 0.0]
  }

  /** The unit vector on `axis`, negated when the direction component is negative. */
  function AxisNormal(axis: nat, di: real): (n: Vector)
    requires axis < 3
    ensures |n| == 3
  {
    var s := if di < 0.0 then -1.0 else 1.0;
    seq(3, k => if k == axis then s else 0.0)
  }

  /** t_min after the swap loop. */
  function CubeLo(m: Math, c: Cube, ray: Ray): (lo: Vector)
    requires Lawful(m) && ValidCube(c) && ValidRay(m, ray)
    ensures |lo| == 3
  {
    Lower(TMin(m, c, ray), TMax(m, c, ray))
  }

  /** t_max after the swap loop. */
  function CubeHi(m: Math, c: Cube, ray: Ray): (hi: Vector)
    requires Lawful(m) && ValidCube(c) && ValidRay(m, ray)
    ensures |hi| == 3
  {
    Upper(TMin(m, c, ray), TMax(m, c, ray))
  }

  /**
   * Cube::operator() as a value. With `asWritten` it uses the source's t_exit and face;
   * without, the corrected Exit and Face.
   */
  function CubeInfo(m: Math, c: Cube, ray: Ray, asWritten: bool): (info: Info)
    requires Lawful(m) && ValidCube(c) && ValidRay(m, ray)
    ensures info.hit <==> SlabsHit(Enter(CubeLo(m, c, ray)),
                                   if asWritten then ExitAsWritten(CubeHi(m, c, ray))
                                   else Exit(CubeHi(m, c, ray)))
    ensures !info.hit ==> info == Miss
    ensures info.hit ==> info.color == Add(ray.color, c.color)
  {
    var lo, hi := CubeLo(m, c, ray), CubeHi(m, c, ray);
    var enter := Enter(lo);
    var exit := if asWritten then ExitAsWritten(hi) else Exit(hi);
    if !SlabsHit(enter, exit) then Miss
    else
      var dir := RayDir(m, ray);
      var normal := if asWritten then FaceAsWritten(enter, lo, dir) else Face(enter, lo, dir);
      Info(true, Add(ray.origin, Scale(enter, dir)), normal, Add(ray.color, c.color))
  }

  // ---------------------------------------------------------------- cube loops

  /** D = identity(); for each i, D[i][i] = 1 / direction[i] where direction[i] != 0. */
  method InverseDirection(dir: Vector) returns (d: Matrix)
    requires |dir| == 3
    ensures d == InvDiag(dir)
  {
    var cols := new Vector[3](i => Unit(3, i));
    for i := 0 to 3
      invariant forall k :: 0 <= k < i ==> cols[k] == InvDiag(dir)[k]
      invariant forall k :: i <= k < 3 ==> cols[k] == Unit(3, k)
    {
      if dir[i] != 0.0 {
        cols[i] := cols[i][i := 1.0 / dir[i]];
      }
    }
    return cols[..];
  }

  /** The swap loop: `if (t_min[i] > t_max[i]) std::swap(t_min[i], t_max[i])`, in place. */
  method OrderSlabs(tmin: array<real>, tmax: array<real>)
    requires tmin.Length == 3 && tmax.Length == 3 && tmin != tmax
    modifies tmin, tmax
    ensures tmin[..] == Lower(old(tmin[..]), old(tmax[..]))
    ensures tmax[..] == Upper(old(tmin[..]), old(tmax[..]))
  {
    for i := 0 to 3
      invariant forall k :: 0 <= k < i ==>
                  tmin[k] == Fmin(old(tmin[k]), old(tmax[k])) && tmax[k] == Fmax(old(tmin[k]), old(tmax[k]))
      invariant forall k :: i <= k < 3 ==> tmin[k] == old(tmin[k]) && tmax[k] == old(tmax[k])
    {
      if tmin[i] > tmax[i] {
        tmin[i], tmax[i] := tmax[i], tmin[i];
      }
    }
  }

  /** Cube::face: the early-return loop over the three axes, as written. */
  method FaceLoop(t: real, tv: Vector, d: Vector) returns (n: Vector)
    requires |tv| == 3 && |d| == 3
    ensures n == FaceAsWritten(t, tv, d)
  {
    for i := 0 to 3
      invariant forall k :: 0 <= k < i ==> t != tv[k]
    {
      if t != tv[i] {
        continue;
      }
      return if d[i] < 0.0 then [-1.0, 0.0, 0.0] else [1.0, 0.0, 0.0];
    }
    return [0.0, 0.0, 0.0];
  }

  /**
   * The first half of Cube::operator(): t_min and t_max from D (r_min - origin) and
   * D (r_max - origin), swapped per axis so that t_min holds the smaller bounds.
   */
  method CubeSlabs(m: Math, c: Cube, ray: Ray) returns (lo: Vector, hi: Vector)
    requires Lawful(m) && ValidCube(c) && ValidRay(m, ray)
    ensures lo == CubeLo(m, c, ray) && hi == CubeHi(m, c, ray)
  {
    var d := InverseDirection(ray.direction);
    var a := MatVec(d, Sub(RMin(m, c), ray.origin), 3);
    var b := MatVec(d, Sub(RMax(m, c), ray.origin), 3);
    var tmin := new real[3](i => if 0 <= i < 3 then a[i] else 0.0);
    var tmax := new real[3](i => if 0 <= i < 3 then b[i] else 0.0);
    assert tmin[..] == a && tmax[..] == b;
    OrderSlabs(tmin, tmax);
    lo, hi := tmin[..], tmax[..];
  }

  /** Cube::operator(), as written. */
  method CubeHit(m: Math, c: Cube, ray: Ray) returns (info: Info)
    requires Lawful(m) && ValidCube(c) && ValidRay(m, ray)
    ensures info == CubeInfo(m, c, ray, true)
  {
    var lo, hi := CubeSlabs(m, c, ray);
    var enter := Fmax(Fmax(lo[0], lo[1]), lo[2]);
    var exit := Fmin(Fmax(hi[0], hi[1]), hi[2]);
    if !(enter <= exit && exit >= 0.0) {
      return Miss;
    }
    var dir := RayDir(m, ray);
    var normal := FaceLoop(enter, lo, dir);
    return Info(true, Add(ray.origin, Scale(enter, dir)), normal, Add(ray.color, c.color));
  }

  // ---------------------------------------------------------------- cube lemmas

  /** The two corner directions have squared length 3. */
  lemma CornerDirections()
    ensures Dot([-1.0, 1.0, -1.0], [-1.0, 1.0, -1.0]) == 3.0
    ensures Dot([1.0, -1.0, 1.0], [1.0, -1.0, 1.0]) == 3.0
  {
    Dot3([-1.0, 1.0, -1.0], [-1.0, 1.0, -1.0]);
    Dot3([1.0, -1.0, 1.0], [1.0, -1.0, 1.0]);
  }

  /** A vector of squared length 3 has a non-zero norm under a lawful sqrt. */
  lemma SqrtThreeNonZero(m: Math, dir: Vector)
    requires Lawful(m) && Dot(dir, dir) == 3.0
    ensures Norm(m, dir) != 0.0
  {
    var s := Sqrt(m, 3.0);
    assert s * s == 3.0;
  }

  /** D * v divides each component by the direction where it is non-zero. */
  lemma InvDiagApply(dir: Vector, v: Vector)
    requires |dir| == 3 && |v| == 3
    ensures forall i :: 0 <= i < 3 ==> MatVec(InvDiag(dir), v, 3)[i] == InvOrOne(dir[i]) * v[i]
  {
    var d := InvDiag(dir);
    forall i | 0 <= i < 3
      ensures MatVec(d, v, 3)[i] == InvOrOne(dir[i]) * v[i]
    {
      Dot3(Row(d, 3, i), v);
    }
  }

  /** After the swap, each axis' lower bound is at most its upper bound, from the same pair. */
  lemma SlabsOrdered(a: Vector, b: Vector)
    requires |a| == |b|
    ensures forall i :: 0 <= i < |a| ==> Lower(a, b)[i] <= Upper(a, b)[i]
    ensures forall i :: 0 <= i < |a| ==>
              (Lower(a, b)[i] == a[i] && Upper(a, b)[i] == b[i])
              || (Lower(a, b)[i] == b[i] && Upper(a, b)[i] == a[i])
  {
  }

  /** The corrected exit is the smallest upper bound. */
  lemma ExitIsMin(hi: Vector)
    requires |hi| == 3
    ensures forall i :: 0 <= i < 3 ==> Exit(hi) <= hi[i]
    ensures Exit(hi) == hi[0] || Exit(hi) == hi[1] || Exit(hi) == hi[2]
  {
  }

  /**
   * With the corrected exit, the slab test reports a hit exactly when some t >= 0 lies in
   * all three slabs [lo[i], hi[i]].
   */
  lemma {:induction false} SlabsHitIff(lo: Vector, hi: Vector)
    requires |lo| == 3 && |hi| == 3
    ensures SlabsHit(Enter(lo), Exit(hi)) <==> exists t :: t >= 0.0 && InAllSlabs(lo, hi, t)
  {
    ExitIsMin(hi);
    if SlabsHit(Enter(lo), Exit(hi)) {
      var t := Fmax(Enter(lo), 0.0);
      assert InAllSlabs(lo, hi, t);
    }
    if exists t :: t >= 0.0 && InAllSlabs(lo, hi, t) {
      var t :| t >= 0.0 && InAllSlabs(lo, hi, t);
      assert lo[0] <= t && lo[1] <= t && lo[2] <= t;
      assert t <= hi[0] && t <= hi[1] && t <= hi[2];
    }
  }

  /**
   * As written, t_exit can exceed an upper bound: with t_min = (0, 2, 0) and
   * t_max = (1, 3, 3) it reports a hit (enter 2, exit 3), though no t lies in the x slab
   * [0, 1] and the y slab [2, 3] at once.
   */
  lemma ExitCounterexample()
    ensures SlabsHit(Enter([0.0, 2.0, 0.0]), ExitAsWritten([1.0, 3.0, 3.0]))
    ensures !SlabsHit(Enter([0.0, 2.0, 0.0]), Exit([1.0, 3.0, 3.0]))
    ensures !exists t :: t >= 0.0 && InAllSlabs([0.0, 2.0, 0.0], [1.0, 3.0, 3.0], t)
  {
    SlabsHitIff([0.0, 2.0, 0.0], [1.0, 3.0, 3.0]);
  }

  /** As written, face never yields a Y or Z normal. */
  lemma FaceAsWrittenOnlyX(t: real, tv: Vector, d: Vector)
    requires |tv| == 3 && |d| == 3
    ensures FaceAsWritten(t, tv, d)[1] == 0.0 && FaceAsWritten(t, tv, d)[2] == 0.0
    ensures FaceAsWritten(t, tv, d)[0] != 0.0 <==> (t == tv[0] || t == tv[1] || t == tv[2])
  {
  }

  /** The corrected face is the signed unit normal on the first axis whose bound equals t. */
  lemma FaceOnMatchedAxis(t: real, tv: Vector, d: Vector, i: nat)
    requires |tv| == 3 && |d| == 3 && i < 3 && t == tv[i]
    requires forall k :: 0 <= k < i ==> t != tv[k]
    ensures Face(t, tv, d) == AxisNormal(i, d[i])
    ensures Face(t, tv, d)[i] == (if d[i] < 0.0 then -1.0 else 1.0)
    ensures forall k :: 0 <= k < 3 && k != i ==> Face(t, tv, d)[k] == 0.0
  {
  }

  /** Entering through the y slab: as written the normal is on X; corrected it is on Y. */
  lemma FaceCounterexample()
    ensures FaceAsWritten(1.0, [0.0, 1.0, 0.0], [1.0, 1.0, 1.0]) == [1.0, 0.0, 0.0]
    ensures Face(1.0, [0.0, 1.0, 0.0], [1.0, 1.0, 1.0]) == [0.0, 1.0, 0.0]
  {
    assert AxisNormal(1, 1.0) == [0.0, 1.0, 0.0];
  }

  /** The corrected cube reports a hit exactly when a t >= 0 lies in all three slabs. */
  lemma CubeHitIff(m: Math, c: Cube, ray: Ray)
    requires Lawful(m) && ValidCube(c) && ValidRay(m, ray)
    ensures CubeInfo(m, c, ray, false).hit <==>
              exists t :: t >= 0.0 && InAllSlabs(CubeLo(m, c, ray), CubeHi(m, c, ray), t)
  {
    SlabsHitIff(CubeLo(m, c, ray), CubeHi(m, c, ray));
  }
}
