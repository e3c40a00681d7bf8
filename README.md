# STR core, modelled in Dafny

STR is a small Vulkan renderer whose scene objects are tested analytically against rays. This project models its core logic and proves
properties of that logic. The core has four parts:

- **The fixed-size linear-algebra library.** `la::vec<N>` and `la::mat<M,N>` are modelled as
  `seq<real>` and as a sequence of columns. The files are `linalg_vec.dfy`, `linalg_mat.dfy`,
  `linalg_factories.dfy` and `linalg_ops.dfy`.
  - `linalg_ops.dfy` holds the loop-built operators, each proved equal to its specification
    function.
  - `linalg_objects.dfy` holds the in-place members (`operator=`, `fill`, `[]`) as classes
    over arrays.
  - `linalg_old.dfy` holds the older copy's `view_matrix`, `perspective_projection` and
    matrix × vector.
- **The ray/primitive tests** of `Sphere` and `Cube` (`intersections.dfy`).
- **`Transform`** (`transform.dfy`): the smoothness clamp, the in-place `scale`, `translate`
  and `rotate`, and `model()`.
- **The algorithms inside the Vulkan glue code:**
  - the triangulated grids of `viewportPlane` and `plane` (`grid.dfy`);
  - the frame counter and the result classification of the renderer (`renderer.dfy`);
  - memory-type selection and aligned offset packing (`memory.dfy`);
  - the camera's near plane, buffer layout and SSBO upload (`camera.dfy`);
  - the material's uniform registry, offsets and descriptor writes (`material.dfy`);
  - the graphics object's builders, assignments, index-buffer offset and queue-family choice
    (`graphics.dfy`).

Scalars are `real`. Floating-point rounding is not modelled, so algebraic laws hold exactly.
`sqrt`, `sin`, `cos` and `tan` are fields of a `Math` value passed as a parameter. Where a proof
needs a fact about them, `Lawful(m)` states it: `sqrt(x) >= 0` and `sqrt(x)^2 == x` for
`x >= 0`.

Vulkan objects are replaced by the values they report:
- memory requirements (size, alignment, memory-type bits);
- the property flags of the memory types;
- `vk::Result` codes;
- which queue families exist.

Device memory is a map from offset to the record written there.

Errors that the C++ signals by throwing become `Result`/`Outcome` values:
- `OutOfRange` stands for `std::out_of_range`;
- `RuntimeError` stands for `std::runtime_error`.

## Model

| member | source | states |
|---|---|---|
| LinAlgVec.FromList | src/include/linalg.hpp:15-24 | the list constructor succeeds iff the list has exactly N values; then component i is the i-th value; otherwise out_of_range |
| LinAlgOps.VecFromList | src/include/linalg.hpp:15-24 | the element-copy loop yields exactly FromList, throw included |
| LinAlgVec.Widen | src/include/linalg.hpp:29-45 | the widening constructor throws iff M >= N; otherwise components 0..M-1 come from v and M..N-1 from vals |
| LinAlgOps.VecWiden | src/include/linalg.hpp:29-45 | the two copy loops yield exactly Widen |
| LinAlgVec.At | src/include/linalg.hpp:60-76 | indexing throws out_of_range iff index > N-1; otherwise it returns that component |
| LinAlgObjects.Vec.constructor | src/include/linalg.hpp:9-13 | a default vector holds N zeros |
| LinAlgObjects.Vec.Assign | src/include/linalg.hpp:47-58 | operator= with the wrong number of values throws and changes nothing; otherwise the contents become the list |
| LinAlgObjects.Vec.Get | src/include/linalg.hpp:69-76 | const operator[] returns the component or throws, as At says |
| LinAlgObjects.Vec.Set | src/include/linalg.hpp:60-67 | writing through operator[] changes exactly that component; out of range it throws and changes nothing |
| LinAlgOps.VecAdd | src/include/linalg.hpp:78-87 | the loop yields the componentwise sum Add |
| LinAlgVec.SubIsComponentwise | src/include/linalg.hpp:89-93 | a - b, defined as a + (-b), has components a[i] - b[i] |
| LinAlgOps.VecSub | src/include/linalg.hpp:89-93 | operator- yields Sub |
| LinAlgOps.VecNeg | src/include/linalg.hpp:117-126 | the loop yields the componentwise negation Neg |
| LinAlgVec.NegNeg | src/include/linalg.hpp:117-126 | negating twice gives the vector back |
| LinAlgOps.VecDot | src/include/linalg.hpp:95-104 | the accumulation loop yields Dot, the sum of a[i] * b[i] |
| LinAlgVec.Dot3 | src/include/linalg.hpp:95-104 | for 3-vectors the dot product is a0 b0 + a1 b1 + a2 b2 |
| LinAlgVec.DotComm | src/include/linalg.hpp:95-104 | the dot product is symmetric |
| LinAlgVec.DotZero | src/include/linalg.hpp:95-104 | the dot product with zero() is 0 |
| LinAlgVec.DotNeg | src/include/linalg.hpp:95-126 | (-a) . b == -(a . b) |
| LinAlgVec.DotAdd | src/include/linalg.hpp:78-104 | x . (u + w) == x . u + x . w |
| LinAlgVec.DotScale | src/include/linalg.hpp:95-104 | x . (c w) == c (x . w) |
| LinAlgVec.DotNonNegative | src/include/linalg.hpp:95-104 | v . v >= 0 |
| LinAlgOps.VecDiv | src/include/linalg.hpp:106-115 | the loop yields every component divided by the scalar |
| LinAlgOps.VecScale | src/include/linalg.hpp:413-422 | scalar * vec yields every component multiplied by the scalar |
| Scalar.PowNegOne | src/include/linalg.hpp:135 | pow(-1, i) is 1 for even i and -1 for odd i |
| LinAlgOps.VecCross | src/include/linalg.hpp:128-138 | the loop with rotating indices j, k yields Cross, the formula as written |
| LinAlgVec.CrossAsWritten | src/include/linalg.hpp:134-135 | components 0 and 2 of a % b are the standard cross product; component 1 is a[2] b[0] + a[0] b[2] |
| LinAlgVec.CrossCorrectIff | src/include/linalg.hpp:134-135 | a % b equals the standard cross product iff a[0] b[2] == 0 |
| LinAlgVec.CrossSymmetricInY | src/include/linalg.hpp:134-135 | a % b and b % a agree in y instead of being negated |
| LinAlgVec.CrossCounterexample | src/include/linalg.hpp:134-135 | x % z gives (0, 1, 0) where the cross product is (0, -1, 0) |
| LinAlgVec.StdCrossComponents | src/include/linalg.hpp:134-135 | the corrected cross product has the textbook components |
| LinAlgVec.StdCrossAnticommutes | src/include/linalg.hpp:134-135 | the corrected cross product anticommutes |
| LinAlgVec.StdCrossOrthogonal | src/include/linalg.hpp:134-135 | the corrected a x b is orthogonal to a and to b |
| LinAlgVec.NormSquared | src/include/linalg.hpp:146-150 | under a lawful sqrt, norm() is non-negative and its square is v . v |
| LinAlgVec.Normalized | src/include/linalg.hpp:152-156 | normalized() keeps the dimension; its value and unit length are stated by NormalizedIsScale and NormalizedIsUnit |
| LinAlgVec.NormalizedIsScale | src/include/linalg.hpp:147-157 | normalized() is the vector divided by its norm sqrt(v . v) |
| LinAlgVec.NormalizedIsUnit | src/include/linalg.hpp:147-157 | under a lawful sqrt a normalized vector has squared length 1 |
| LinAlgMat.Zeros | src/include/linalg.hpp:288-296 | zeros() is M x N with every entry 0 |
| LinAlgOps.MatZerosLoop | src/include/linalg.hpp:288-296 | the column loop yields Zeros |
| LinAlgMat.IdentityEntries | src/include/linalg.hpp:298-309 | identity() has 1 where column == row and 0 elsewhere; its rows are unit vectors |
| LinAlgOps.MatIdentityLoop | src/include/linalg.hpp:298-309 | setting the diagonal of zeros() in a loop yields Identity |
| LinAlgMat.Fill | src/include/linalg.hpp:402-411 | fill succeeds iff the list has exactly N columns, and then the matrix is that list |
| LinAlgObjects.Mat.constructor | src/include/linalg.hpp:159-163 | a default matrix is zeros() |
| LinAlgObjects.Mat.Fill | src/include/linalg.hpp:402-411 | fill in place: the wrong column count throws and changes nothing; otherwise the columns become the list |
| LinAlgObjects.Mat.AssignAsWritten | src/include/linalg.hpp:171-175 | operator= fills the matrix but returns no reference to it |
| LinAlgObjects.Mat.Assign | src/include/linalg.hpp:171-175 | the corrected operator= fills and returns *this |
| LinAlgMat.Col | src/include/linalg.hpp:177-193 | mat[i] throws iff i > N-1; otherwise it is column i |
| LinAlgObjects.Mat.GetCol | src/include/linalg.hpp:186-193 | const mat[i] reads the column or throws, as Col says |
| LinAlgObjects.Mat.SetCol | src/include/linalg.hpp:177-184 | writing through mat[i] replaces exactly column i; out of range it throws and changes nothing |
| LinAlgMat.RowAt | src/include/linalg.hpp:195-221 | mat(r) throws iff r > M-1; otherwise it is (data[0][r], ..., data[N-1][r]) |
| LinAlgOps.MatRowAt | src/include/linalg.hpp:195-207 | the gathering loop yields RowAt |
| LinAlgObjects.Mat.GetRow | src/include/linalg.hpp:209-221 | mat(r) on the object reads the row, as RowAt says |
| LinAlgOps.MatAddLoop | src/include/linalg.hpp:223-232 | operator+ as written (loop over M columns) yields MatAddAsWritten |
| LinAlgMat.MatAddAsWrittenSquare | src/include/linalg.hpp:223-232 | for square matrices operator+ is the entrywise sum |
| LinAlgMat.MatAddAsWrittenTall | src/include/linalg.hpp:228-229 | with M > N the loop indexes column N and throws out_of_range |
| LinAlgMat.MatAddAsWrittenWide | src/include/linalg.hpp:228-229 | with M < N columns M..N-1 stay zero, so the result is the sum iff those columns sum to zero |
| LinAlgMat.MatAddCounterexample | src/include/linalg.hpp:228 | a 1 x 2 sum loses its second column |
| LinAlgMat.MatAddCancels | src/include/linalg.hpp:223-238 | the corrected column-wise sum over all N columns commutes, and (A + B) + (-B) == A for every shape |
| LinAlgMat.MatSubSquare | src/include/linalg.hpp:234-238 | A - B, defined as A + (-B), is entrywise a - b for square matrices |
| LinAlgOps.MatSubLoop | src/include/linalg.hpp:234-238 | operator- yields MatSub |
| LinAlgOps.MatNegLoop | src/include/linalg.hpp:277-286 | unary minus negates every column |
| LinAlgOps.MatDivLoop | src/include/linalg.hpp:266-275 | mat / s divides every column |
| LinAlgOps.MatScaleLoop | src/include/linalg.hpp:424-433 | s * mat scales every column |
| LinAlgOps.MatMulLoop | src/include/linalg.hpp:240-253 | the nested loop (A*B)[i][j] = A(j) . B[i] yields MatMul |
| LinAlgMat.MatMulColumns | src/include/linalg.hpp:240-264 | column i of A*B is A * (column i of B) |
| LinAlgOps.MatVecLoop | src/include/linalg.hpp:255-264 | (A*v)[i] = A(i) . v, in a loop, yields MatVec |
| LinAlgMat.MatVecIdentity | src/include/linalg.hpp:255-264 | identity() * v == v |
| LinAlgMat.MatMulIdentityLeft | src/include/linalg.hpp:240-253 | identity() * A == A |
| LinAlgMat.MatMulIdentityRight | src/include/linalg.hpp:240-253 | A * identity() == A |
| LinAlgMat.MatVecAdd | src/include/linalg.hpp:255-264 | A * (u + w) == A*u + A*w |
| LinAlgFactories.CrossProductMatrix | src/include/linalg.hpp:384-394 | cross_product(v) is 3 x 3 and skew-symmetric |
| LinAlgFactories.CrossProductMatrixIsCross | src/include/linalg.hpp:384-394 | cross_product(v) * x is the standard cross product v x x |
| LinAlgFactories.ScaleMatrix | src/include/linalg.hpp:344-355 | scale_matrix is diag(sx, sy, sz, 1) |
| LinAlgFactories.ScaleMatrixApply | src/include/linalg.hpp:344-355 | scale_matrix * (x, 1) == (sx x0, sy x1, sz x2, 1) |
| LinAlgFactories.TranslationMatrix | src/include/linalg.hpp:357-366 | translation_matrix(p) is the identity with its last column replaced by (p, 1) |
| LinAlgFactories.TranslationMatrixApply | src/include/linalg.hpp:357-366 | translation_matrix(p) * (x, 1) == (x + p, 1) |
| LinAlgFactories.RotationMatrix | src/include/linalg.hpp:368-382 | rotation_matrix is 4 x 4, with last column (0,0,0,1) and 0 in the last row of the other columns |
| LinAlgFactories.RotationMatrixZeroAngle | src/include/linalg.hpp:368-382 | at an angle with sin 0 and cos 1 Rodrigues' formula gives the identity |
| LinAlgFactories.ViewMatrix | src/include/linalg.hpp:311-326 | view_matrix is 4 x 4; what its columns hold is stated by ViewMatrixEye and ViewMatrixForward |
| LinAlgFactories.ViewMatrixCorrected | src/include/linalg.hpp:311-326 | corrected: the transpose of view_matrix, 4 x 4; where it sends the eye is stated by ViewMatrixCorrectedEye |
| LinAlgFactories.ViewMatrixEye | src/include/linalg.hpp:311-326 | each of the first three columns of view_matrix, (cs, -ws_r . cs), is orthogonal to the eye (ws_r, 1) |
| LinAlgFactories.ViewMatrixEyeCounterexample | src/include/linalg.hpp:319-324 | as written, for eye (1, 0, 0), target (1, 0, 1) and up (0, 1, 0), view_matrix * (eye, 1) is (-1, 0, 0, 2), not the origin (0, 0, 0, 1) |
| LinAlgFactories.ViewMatrixCorrectedEye | src/include/linalg.hpp:319-324 | corrected: the transposed view matrix sends (ws_r, 1) to (0, 0, 0, 1) for every eye, target and up |
| LinAlgFactories.ViewMatrixForward | src/include/linalg.hpp:311-326 | the third column starts with normalized(ws_t - ws_r), of length 1 |
| LinAlgFactories.Perspective | src/include/linalg.hpp:328-342 | perspective_projection as written is the projection with depth scale exactly 1, whatever near and far are |
| LinAlgFactories.PerspectiveCorrected | src/include/linalg.hpp:328-342 | the corrected projection differs from the as-written one only in its depth scale, which differs from 1 iff near != 0 |
| LinAlgFactories.PerspectiveWithApply | src/include/linalg.hpp:328-342 | the projection scales x by 1/(aspect tan), y by 1/tan, keeps z as w, and sets depth a z - 2 far near / (far - near) |
| LinAlgFactories.PerspectiveDepthAsWritten | src/include/linalg.hpp:339-340 | as written, (far - near) / delta is 1, so depth is z - 2 far near / (far - near) |
| LinAlgFactories.PerspectiveCounterexample | src/include/linalg.hpp:339 | near 1, far 2: a point on the near plane gets depth -3, not -near |
| LinAlgFactories.PerspectiveCorrectedDepth | src/include/linalg.hpp:339-340 | with (far + near) / (far - near) the near plane maps to depth -near and the far plane to far (-1 and 1 after the divide) |
| LinAlgOld.MatVecOld | src/include/linalg_templates.hpp:257-264 | the older matrix x vector computes a result but returns nothing |
| LinAlgOld.ViewMatrixOld | src/include/linalg_templates.hpp:311-326 | the older view_matrix is 4 x 4; what its columns hold is stated by ViewMatrixOldEye and ViewMatrixOldBackward |
| LinAlgOld.ViewMatrixOldCorrected | src/include/linalg_templates.hpp:311-326 | corrected: the transpose of the older view_matrix, 4 x 4; see ViewMatrixOldCorrectedEye |
| LinAlgOld.ViewMatrixOldEye | src/include/linalg_templates.hpp:311-326 | each of the first three columns of the older view_matrix is orthogonal to (eye, 1) |
| LinAlgOld.ViewMatrixOldEyeCounterexample | src/include/linalg_templates.hpp:319-324 | as written, for eye (1, 0, 0), center (1, 0, 1) and up (0, 1, 0), the older view_matrix * (eye, 1) is (-1, 0, 0, 2) |
| LinAlgOld.ViewMatrixOldCorrectedEye | src/include/linalg_templates.hpp:319-324 | corrected: the transposed older view matrix sends (eye, 1) to (0, 0, 0, 1) for every eye, center and up |
| LinAlgOld.ViewMatrixOldBackward | src/include/linalg_templates.hpp:316-323 | the older view_matrix's third column starts with -normalized(center - eye) |
| LinAlgOld.PerspectiveOld | src/include/linalg_templates.hpp:328-342 | the older projection scales x and y exactly as the newer one and also copies z into w |
| LinAlgOld.PerspectiveOldApply | src/include/linalg_templates.hpp:328-342 | the older projection has third column (0,0,far/delta,1) and fourth column (0,0,-far near/delta,0) |
| LinAlgOld.PerspectiveOldDepth | src/include/linalg_templates.hpp:339-340 | the older projection maps the near plane to depth 0 and the far plane to far with w = far (0 and 1 after the divide) |
| Intersections.NewSphere | src/intersections.cpp:7-10 | the Sphere constructor throws runtime_error iff radius <= 0 |
| Intersections.NewCube | src/intersections.cpp:30-33 | the Cube constructor throws runtime_error iff length <= 0 |
| Intersections.SphereHit | src/intersections.cpp:12-28 | a hit iff b^2 - 4c >= 0; a miss is Info{false} with zero defaults; a hit has point origin + t D and colour ray + sphere |
| Intersections.QuarterDiscriminant | src/intersections.cpp:19-23 | the radicand b^2/4 - c is a quarter of the discriminant |
| Intersections.SphereNearestRoot | src/intersections.cpp:23-24 | t is the smaller root -b/2 - sqrt(b^2/4 - c) |
| Intersections.SphereRootEquation | src/intersections.cpp:17-24 | t solves t^2 + b t + c == 0 |
| Intersections.SpherePointOffset | src/intersections.cpp:14-26 | P - center == L + t D |
| Intersections.SpherePointOnSurface | src/intersections.cpp:12-26 | the hit point lies on the sphere: squared distance from the centre is r^2 |
| Intersections.SphereRadiusNorm | src/intersections.cpp:26-27 | the distance from the centre to the hit point is the radius |
| Intersections.SphereNormalIsUnit | src/intersections.cpp:27 | the normal returned on a hit has length 1 |
| Intersections.InvOrOne | src/intersections.cpp:40-42 | D[i][i] is the inverse of dir[i] where dir[i] != 0 and 1 otherwise |
| Intersections.InverseDirection | src/intersections.cpp:40-42 | the loop over the identity yields the diagonal matrix InvDiag |
| Intersections.InvDiagApply | src/intersections.cpp:40-45 | D * v multiplies each component by D[i][i] |
| Intersections.OrderSlabs | src/intersections.cpp:47-48 | the in-place swap loop leaves the per-axis minima in t_min and the maxima in t_max |
| Intersections.SlabsOrdered | src/intersections.cpp:47-48 | after the swap t_min[i] <= t_max[i], and each pair is the original pair in some order |
| Intersections.CubeSlabs | src/intersections.cpp:37-48 | t_min and t_max are the swapped D (r_min - origin) and D (r_max - origin) |
| Intersections.CubeInfo | src/intersections.cpp:35-57 | a hit iff t_enter <= t_exit and t_exit >= 0; a miss is Info{false}; a hit has colour ray + cube |
| Intersections.CubeHit | src/intersections.cpp:35-57 | Cube::operator() as written yields CubeInfo with the source's t_exit and face |
| Intersections.ExitCounterexample | src/intersections.cpp:51 | slabs [0,1], [2,3], [0,3]: the as-written t_exit reports a hit though no t lies in all three slabs |
| Intersections.ExitIsMin | src/intersections.cpp:51 | the corrected t_exit is the least of the three upper bounds |
| Intersections.SlabsHitIff | src/intersections.cpp:50-53 | with the corrected t_exit the test passes iff some t >= 0 lies in every slab |
| Intersections.CubeHitIff | src/intersections.cpp:35-57 | the corrected cube test hits iff some t >= 0 lies in all three slabs |
| Intersections.FaceLoop | src/intersections.cpp:59-69 | the early-return loop yields FaceAsWritten |
| Intersections.FaceAsWrittenOnlyX | src/intersections.cpp:59-69 | face as written has zero y and z, and a non-zero x iff t matches some t_vec[i] |
| Intersections.FaceCounterexample | src/intersections.cpp:65 | a hit on the y slab gets normal (1, 0, 0) instead of (0, 1, 0) |
| Intersections.FaceOnMatchedAxis | src/intersections.cpp:59-69 | the corrected face is the unit normal of the first matching axis i, with the sign of D[i] |
| Transforms.Clamp | src/transform.cpp:10-13 | the smoothness is in [0, 1]: negative becomes 0, above 1 becomes 1, otherwise unchanged |
| Transforms.ClampIdempotent | src/transform.cpp:10-13 | clamping twice equals clamping once; clamping fixes exactly the values in [0, 1] |
| Transforms.ClampMonotone | src/transform.cpp:10-13 | clamping preserves order |
| Transforms.Transform.constructor | src/transform.cpp:6-15 | the shape and colour are stored and the smoothness clamped; size (1,1,1), position and rotation zero |
| Transforms.Transform.Scale | src/transform.cpp:30-34 | size := size + s; every other field unchanged; returns this |
| Transforms.Transform.Translate | src/transform.cpp:36-40 | position := position + mag normalized(dir); every other field unchanged; returns this |
| Transforms.Transform.Rotate | src/transform.cpp:42-46 | rotation := rotation + r; every other field unchanged; returns this |
| Transforms.Transform.ScaleTwice | src/transform.cpp:30-34 | two scale calls equal one with the summed vector |
| Transforms.Transform.RotateTwice | src/transform.cpp:42-46 | two rotate calls equal one with the summed vector |
| Transforms.AddAssociative | src/transform.cpp:32 | repeated vector additions regroup |
| Transforms.TranslationFixesDirections | src/transform.cpp:23 | T leaves directions (w = 0) unchanged |
| Transforms.TranslationMovesOrigin | src/transform.cpp:23 | T sends the homogeneous origin to (position, 1) |
| Transforms.RotationOf | src/transform.cpp:19-24 | Rz * Ry * Rx is 4 x 4; at zero angles it is the identity (RotationOfZero) |
| Transforms.ModelOf | src/transform.cpp:17-28 | T * R * S is 4 x 4; without rotation its columns are given by ModelWithoutRotation |
| Transforms.Transform.Model | src/transform.cpp:17-28 | model() of the transform's fields is 4 x 4; a fresh transform's is the identity (FreshModelIsIdentity) |
| Transforms.RotationOfZero | src/transform.cpp:19-24 | with every angle at zero, Rz * Ry * Rx is the identity |
| Transforms.ModelWithoutRotation | src/transform.cpp:17-28 | without rotation, model() has columns (sx,0,0,0), (0,sy,0,0), (0,0,sz,0), (position, 1) |
| Transforms.FreshModelIsIdentity | src/transform.cpp:17-28 | a fresh transform's model() is the identity |
| Grid.BuildGrid | src/renderer.cpp:18-33 | the nested loops emit exactly GridPoints (row-major) and GridIndices (six per cell) |
| Grid.AppendRow | src/renderer.cpp:20-32 | the inner loop appends row i's cols + 1 vertices, and its cols cells unless i == rows |
| Grid.ViewportPlane | src/renderer.cpp:8-36 | viewportPlane is the grid with dx = 2/cols, dy = 2/rows and depth 0.1 |
| Grid.Plane | src/main.cpp:28-56 | plane(width, height) is the same grid in two dimensions, rows = height and cols = width |
| Grid.RowPointsAt | src/renderer.cpp:20-22 | a row of n vertices has n entries, vertex j at position j |
| Grid.PointsLength | src/renderer.cpp:18-22 | the grid has (rows + 1)(cols + 1) vertices |
| Grid.PointAt | src/main.cpp:38-42 | vertex (i, j) sits at i (cols + 1) + j and is (j dx - 1, i dy - 1) plus the tail |
| Grid.GridCorners | src/renderer.cpp:15-22 | with dx = 2/cols and dy = 2/rows the corners are (-1, -1) and (1, 1) |
| Grid.RowCellsAt | src/renderer.cpp:24-31 | a row of n cells has 6n indices; cell j starts at 6j |
| Grid.CellsLength | src/main.cpp:44-51 | the grid has 6 rows cols indices |
| Grid.CellAt | src/renderer.cpp:24-31 | the indices of cell (i, j) start at 6 (i cols + j) |
| Grid.CellShape | src/renderer.cpp:26-31 | triangles (topL, botL, topR), (topR, botL, botR), with topR = topL + 1, botL = topL + cols + 1, botR = botL + 1 |
| Grid.CellInRange | src/main.cpp:46-51 | each index of a cell is below (rows + 1)(cols + 1) |
| Grid.RowCellsInRange | src/renderer.cpp:26-31 | every index of a row of cells is below the vertex count |
| Grid.CellsInRange | src/renderer.cpp:26-31 | every index of the first n cell rows is below the vertex count |
| Grid.GridIndicesInRange | src/renderer.cpp:18-31 | every emitted index names an emitted vertex |
| Renderers.CheckResult | src/renderer.cpp:126-132 | success proceeds; out-of-date and suboptimal recreate the swapchain; every other result throws runtime_error |
| Renderers.Renderer.Check | src/renderer.cpp:126-132 | checkResult throws iff the result is not tolerated; it counts one swapchain recreation exactly for out-of-date and suboptimal |
| Renderers.NextFrame | src/renderer.cpp:79 | (frame + 1) mod flight stays below flight; it is 0 exactly after the last frame and frame + 1 otherwise |
| Renderers.FrameAfter | src/renderer.cpp:79 | the frame index after k updates stays below flight |
| Renderers.FrameAfterIsMod | src/renderer.cpp:79 | after k updates from 0 the frame index is k mod flight |
| Renderers.Renderer.constructor | src/include/renderer.hpp:45 | the frame index starts at 0, below the number of frames in flight |
| Renderers.Renderer.Update | src/renderer.cpp:38-80 | update throws iff a check throws, leaving the frame index; otherwise it advances the frame index by NextFrame; frame < flight is kept; recreations grows by one for an out-of-date or suboptimal acquire, and by one more for such a present when the acquire did not throw |
| Memory.FindIndex | src/camera.cpp:190-208 | the scan returns FirstSuitable: the least allowed type whose flags contain the request, or runtime_error |
| Memory.FirstSuitableIsLeast | src/material.cpp:142-160 | the result is suitable and no smaller index is; it throws runtime_error iff no index is suitable |
| Memory.WiderFilterFindsNoLater | src/graphics.cpp:113-117 | OR-ing more bits into the filter never loses a type and never picks a later one |
| Memory.AlignedUpBounds | src/camera.cpp:387-388 | the aligned size is a multiple of the alignment in [size, size + alignment) |
| Memory.AlignedUpIsLeast | src/camera.cpp:387-388 | no multiple of the alignment lies between size and the aligned size |
| Memory.AlignedUpFixesMultiples | src/camera.cpp:387-388 | an aligned size is left where it is |
| Memory.AlignUp | src/material.cpp:314-315 | the `++size` loop stops at AlignedUp(size, alignment) |
| Memory.PackOffsets | src/camera.cpp:382-392 | the packing loop yields Pack: one offset per buffer and the final size |
| Memory.PackLayout | src/camera.cpp:382-392 | offsets[0] == 0; each offset is the previous end aligned up; offsets are aligned; the size is the last offset plus the last size |
| Memory.PackDisjoint | src/material.cpp:314-320 | packed buffers never overlap, and every buffer ends within the allocation |
| Memory.UnionOfBitsCovers | src/material.cpp:300-321 | the OR of the memoryTypeBits contains every buffer's bits |
| Memory.UnionOfBitsAllowsEach | src/material.cpp:321 | a type allowed by one buffer is allowed by the union |
| Memory.UnionOfBitsAllowsOnly | src/material.cpp:321 | a type allowed by no buffer is not allowed by the union |
| Memory.IntersectionKeepsBit | src/material.cpp:300-321 | corrected filter: a single bit survives the AND of all memoryTypeBits iff every buffer's bits have it |
| Memory.IntersectionOfBitsAllowsIff | src/material.cpp:300-321 | corrected filter: a memory type passes the AND of all memoryTypeBits iff every buffer accepts it |
| Memory.IntersectionChoiceBindsEach | src/material.cpp:321-335 | corrected filter: the type found for the AND is accepted by every buffer later bound to the shared memory |
| Memory.UnionChoiceCounterexample | src/material.cpp:321-335 | with buffers accepting only type 0 and only type 1, the OR filter picks type 0, which the second buffer does not accept; the AND filter throws |
| Cameras.CameraBuffers | src/camera.cpp:359-380 | the buffer list is vertex, index, then one storage buffer per frame in flight |
| Cameras.NearPlaneHeight | src/camera.cpp:81-87 | the near-plane height 2 np tan(radians(fov)/2) is positive for a positive near distance and a positive tangent, and 0 for np = 0 |
| Cameras.Camera.constructor | src/camera.cpp:29-34 | adjustNearPlane(np) then adjustFOV(fov): npDims = (aspect h, h, np) with h = 2 np tan(radians(fov)/2) |
| Cameras.Camera.AdjustNearPlane | src/camera.cpp:76-79 | only npDims[2] changes |
| Cameras.Camera.AdjustFov | src/camera.cpp:81-87 | the height is 2 np tan(radians(fov)/2) and the width is aspect times the height; npDims[2] is unchanged |
| Cameras.Camera.AllocateUniforms | src/camera.cpp:353-424 | the buffer list, the packed offsets and size, the memory type from the vertex buffer's bits (or runtime_error), and the quad written at offsets 0 and offsets[1] |
| Cameras.Camera.UpdateSsbo | src/camera.cpp:120-135 | corrected: more than STR_MAX_TRANSFORMS transforms throw out_of_range; otherwise frame's SSBO holds the count and the transforms, padded with defaults |
| Cameras.SsboWritesAsWritten | src/camera.cpp:122-125 | definition: the slots the unbounded copy loop writes, slot i for input transform i (its consequence is SsboCopyOverflows) |
| Cameras.SsboCopyOverflows | src/camera.cpp:124-125 | with more transforms than STR_MAX_TRANSFORMS the copy writes a slot past the array's end |
| Cameras.FrameSsbosDisjoint | src/camera.cpp:382-392 | the storage buffers of two frames occupy disjoint ranges |
| Materials.NewInfos | src/include/material_templates.hpp:19-25 | definition: the entries registration appends, the k-th with index base + k, its size and offset 0 (used by Uniforms and FreshRegistry) |
| Materials.RegisteredDomain | src/include/material_templates.hpp:24 | after registration the map's names are the old names plus the registered names |
| Materials.RegisteredKeepsOld | src/include/material_templates.hpp:24 | a name already present keeps its index (emplace does not overwrite) |
| Materials.RegisteredFirstWins | src/include/material_templates.hpp:24 | a new name maps to the index of its first registration |
| Materials.RegisteredBounded | src/include/material_templates.hpp:19-25 | every mapped index names an existing uniformInfo entry |
| Materials.MaterialBuilder.constructor | src/material.cpp:51-54 | a fresh builder has no paths, no names and no uniforms |
| Materials.MaterialBuilder.Shader | src/material.cpp:31-35 | shader appends (stage, path) to paths, changes nothing else, and returns the builder |
| Materials.MaterialBuilder.Uniform | src/include/material_templates.hpp:16-26 | uniform appends one entry with index = old count; the name is added only if absent |
| Materials.MaterialBuilder.Uniforms | src/include/material_templates.hpp:9-14 | uniforms registers the types in argument order and returns the builder |
| Materials.FreshRegistry | src/include/material_templates.hpp:9-26 | on a fresh builder the k-th type gets index k, and its name maps to k unless it appeared earlier |
| Materials.Material.constructor | src/material.cpp:37-42 | Material(builder) copies paths, indexMap and uniformInfo verbatim |
| Materials.Material.Assign | src/material.cpp:44-49 | operator=(builder) copies the same three fields and leaves the GPU state |
| Materials.Material.AllocateUniforms | src/material.cpp:297-336 | each uniform's offset becomes its packed offset, with index and size unchanged; the size is the packed end; the memory type comes from the OR of all bits, or runtime_error with the memory type left as it was |
| Materials.Material.LoadDescriptors | src/material.cpp:338-388 | corrected: one write per (frame, uniform), in that order, to binding uniformInfo[j].index, buffer j, range uniformInfo[j].size |
| Materials.Material.LoadDescriptorsAsWritten | src/material.cpp:356-387 | as written: the writes keep the address of the one loop-local bufferInfo, so updateDescriptorSets reads every buffer and range from the last iteration |
| Materials.SharedSlotOneInfo | src/material.cpp:367-387 | as written, every write updateDescriptorSets reads carries the same buffer and range, the last uniform's |
| Materials.SharedSlotWriteAt | src/material.cpp:367-387 | as written, write (i, j) has frame i's set j and binding index_j but buffer u - 1 and the last uniform's range |
| Materials.SharedSlotAgreesIff | src/material.cpp:367-387 | as written, write (i, j) equals the intended write iff j is the last uniform |
| Materials.SharedSlotCounterexample | src/material.cpp:367-380 | uniforms of 64 and 16 bytes: the first write describes buffer 1 with range 16 instead of buffer 0 with range 64 |
| Materials.FrameWritesLength | src/material.cpp:356-384 | loadDescriptors produces flight x uniforms writes |
| Materials.FrameWriteAt | src/material.cpp:365-383 | corrected: write i u + j targets frame i's set j, binding uniformInfo[j].index, buffer j, range uniformInfo[j].size |
| Materials.UniformWritesAt | src/material.cpp:365-383 | one frame's writes are one per uniform, in order |
| Materials.Material.DescriptorSets | src/material.cpp:71-78 | descriptorSets(frame) is that frame's sets, in order |
| Materials.Material.UpdateUniform | src/include/material_templates.hpp:34-44 | an unknown type is a no-op; otherwise the data is written at uniformInfo[indexMap[name]].offset |
| Materials.Material.UpdateUniforms | src/include/material_templates.hpp:28-32 | the updates are applied in argument order |
| Materials.UpdatedIgnoresUnknown | src/include/material_templates.hpp:37 | updates for unregistered types leave memory unchanged |
| GraphicsObjects.UploadFamily | src/graphics.cpp:157-161 | Transfer if present, else Async if present, else All |
| GraphicsObjects.BufferLayout | src/graphics.cpp:107-112 | the index offset is the vertex size aligned up to the index alignment, and the allocation ends at offset + index size |
| GraphicsObjects.BufferLayoutDisjoint | src/graphics.cpp:142-155 | the vertex range [0, vsize) ends before the aligned index offset, and the index range ends at the allocation size |
| GraphicsObjects.GraphicsBuilder.constructor | src/graphics.cpp:64-67 | a fresh builder holds no vertices and no indices |
| GraphicsObjects.GraphicsBuilder.Vertices | src/graphics.cpp:6-10 | vertices(v) replaces the vertex list and returns the builder |
| GraphicsObjects.GraphicsBuilder.Indices | src/graphics.cpp:12-16 | indices(i) replaces the index list and returns the builder |
| GraphicsObjects.Graphics.FromBuilder | src/graphics.cpp:30-34 | Graphics(builder) takes the builder's lists; indexCount() is the index list's length |
| GraphicsObjects.Graphics.Copy | src/graphics.cpp:18-22 | the copy constructor copies the vertex and index lists |
| GraphicsObjects.Graphics.Assign | src/graphics.cpp:36-44 | copy assignment from itself changes nothing; otherwise it copies both lists; it returns this |
| GraphicsObjects.Graphics.MoveAssign | src/graphics.cpp:46-54 | move assignment takes both lists and leaves a distinct source's lists empty; every other field of both objects is unchanged |
| GraphicsObjects.Graphics.AssignBuilder | src/graphics.cpp:56-62 | operator=(builder) takes the builder's lists; indexCount() is the index list's length |
| GraphicsObjects.Graphics.Initialize | src/graphics.cpp:84-161 | staging and device types from the OR of both buffers' bits (host-visible/coherent, then device-local), or runtime_error; the device layout is Pack of the two buffers; the family is UploadFamily; on runtime_error the device type, layout and family are left as they were, and so is the staging type when the staging search throws |

## Left out

- Floating point is not modelled: scalars are exact reals, so rounding, NaN and infinities
  do not exist in the model. Where the C++ would divide by zero and produce an infinity, the
  model requires a non-zero divisor instead. This covers `operator/`, `normalized()` and the
  grid steps.
- `sqrt`, `sin`, `cos`, `tan` and `radians`' pi are parameters, not computed. Only the sqrt
  law is assumed, and only where `Lawful` is required. `rotation_matrix` is modelled through
  Rodrigues' formula on these parameters.
- Fixed-width integers are not modelled. Indices, sizes and offsets are `nat`, so the
  `unsigned int` indices of the grid cannot wrap (they would for grids beyond 2^32 vertices).
  Device sizes cannot overflow either.
- Materials.Material.AllocateUniforms and GraphicsObjects.Graphics.Initialize keep the OR
  filter as written; the AND filter and its guarantee stand beside them in Memory.
- LinAlgFactories.ViewMatrixCorrected: only the eye is proved to go to the origin. The axes it
  uses come from the as-written operator%, so the model does not claim they are orthonormal.
- Memory.FindIndex: requires at most 32 memory types, the size of Vulkan's memory-type array.
  With that bound, `1 << i` is never shifted past bit 31.
- Vulkan object creation, pipelines, descriptor pools, command buffers and their recording,
  submission, presentation, fences and semaphores are foreign calls. So are shader file
  reading and console printing. What these calls report comes in as parameters:
  requirements, memory types, results, family presence and descriptor-set handles.
- `mapMemory`/`memcpy` are modelled as writing one record at an offset of a map. The byte
  layout of `TransformSSBO`, `Vertex` and `vec<3>`'s alignment is not modelled.
- Renderers.Renderer.Update: acquiring, recording, submitting and presenting are left out.
  The two `vk::Result`s arrive as parameters. The swapchain recreation is counted, not
  performed.
- Grid.ViewportPlane: requires a non-zero width and height. The C++ would divide 2.0 by zero.
  Grid.Plane has the same requirement. `BuildGrid` itself takes any step sizes.
- Transforms.Transform.Translate: requires `dir` to have a non-zero norm. The C++ would
  divide by zero.
- The `Shape` of a transform is a type parameter. The colour cycle and the ECS wiring of the
  engine are left out.
- The camera's `translate`, `rotate`, `setView`, `model`, `view` and projection accessors are
  left out. They only compose `view_matrix`/`rotation_matrix`, which are modelled. The header
  declarations of `Camera` and `Transform` disagree with their `.cpp` files; the model
  follows the `.cpp` files.
- Cameras.Camera.AllocateUniforms: requires a camera that has not allocated yet, because
  `load` calls it once. Repeated calls would append to the C++ buffer and offset vectors.
- STR_MAX_TRANSFORMS is the camera's `capacity` parameter. A default-constructed `Transform`
  is its `blank` parameter.
- Material keys are the type names as strings. The C++ map is keyed by `typeid(T).name()`
  pointers, and two equal names at different addresses would be two keys there.
- Materials.Material.AllocateUniforms: requires one requirement per uniform. The uniform
  buffers themselves are not modelled.
- Materials.Material.LoadDescriptors: takes the allocated descriptor-set handles as a
  parameter. The pool sizes are not modelled. The allocation at `src/material.cpp:358-362`
  asks for |uniformInfo| sets but passes a single layout through `pSetLayouts`, where Vulkan
  reads one layout per set; the model does not capture that allocation.
- Materials.Material.LoadDescriptors: stores each write's buffer and range by value, as
  evidently intended. The C++ stores a pointer to a loop-local `bufferInfo` that is dead when
  `updateDescriptorSets` reads it, which is undefined behaviour. `LoadDescriptorsAsWritten`
  models that pointer as the slot's last contents (see Findings).
- The move constructor of `Graphics` (`src/graphics.cpp:24-28`) is not modelled separately.
  It behaves like `Copy` followed by the emptying shown by `MoveAssign`. A moved-from
  `std::vector` is modelled as empty, though C++ only guarantees a valid state.
- The builder's material setter and the `Graphics` buffer accessors are not modelled.
- The chain `(A * B) * v == A * (B * v)` is not proved.
- View matrices are built from the cross product as written. The properties proved about
  them do not depend on its y component.

## Findings

| source | as written | input that shows it | evidently intended | confidence | as-written member | corrected member |
|---|---|---|---|---|---|---|
| src/include/linalg.hpp:135 | `pow(-1, i)` multiplies only the second product, so the y component is a[2] b[0] + a[0] b[2] | (1,0,0) % (0,0,1) gives (0, 1, 0) | the cross product, (0, -1, 0) | high, not executed | LinAlgVec.CrossCounterexample | LinAlgVec.StdCrossOrthogonal |
| src/include/linalg.hpp:228 | `operator+` loops over M instead of the N columns | a 1 x 2 matrix: the second column stays zero (and M > N throws out_of_range) | sum of all N columns | high, not executed | LinAlgMat.MatAddCounterexample | LinAlgMat.MatAddCancels |
| src/include/linalg.hpp:172-175 | `operator=` falls off the end without `return *this` | any use of the returned reference, e.g. `(m = {...})[0]` | return *this | high, not executed | LinAlgObjects.Mat.AssignAsWritten | LinAlgObjects.Mat.Assign |
| src/include/linalg_templates.hpp:257-264 | matrix x vector computes `result` and never returns it | any `A * v` with the older header | return result | high, not executed | LinAlgOld.MatVecOld | LinAlgOps.MatVecLoop |
| src/intersections.cpp:51 | `t_exit` takes `fmax` of the first two upper bounds | slabs [0,1], [2,3], [0,3]: reported hit, but no t lies in all slabs | min of all three upper bounds | high, not executed | Intersections.ExitCounterexample | Intersections.CubeHitIff |
| src/intersections.cpp:65 | `face` returns (+-1, 0, 0) whatever the matching axis | t equal to t_vec[1]: normal (1, 0, 0) | unit normal of axis i | high, not executed | Intersections.FaceCounterexample | Intersections.FaceOnMatchedAxis |
| src/include/linalg.hpp:339 | third column uses (far - near) / delta, which is 1 | near 1, far 2, z = 1: depth -3, not -1 | (far + near) / (far - near) | medium, not executed | LinAlgFactories.PerspectiveCounterexample | LinAlgFactories.PerspectiveCorrectedDepth |
| src/camera.cpp:124-125 | the copy into `std::array<Transform, STR_MAX_TRANSFORMS>` has no bound check | more than STR_MAX_TRANSFORMS transforms | reject (out_of_range) or clamp | high, not executed | Cameras.SsboCopyOverflows | Cameras.Camera.UpdateSsbo |
| src/material.cpp:367-387 | every write's `pBufferInfo` is the address of the loop-local `bufferInfo`, read after the loops by `updateDescriptorSets` | two uniforms of 64 and 16 bytes: write 0 describes buffer 1, range 16 (undefined behaviour; the dead slot's last contents) | one `DescriptorBufferInfo` per write, kept alive until the update | high, not executed | Materials.SharedSlotCounterexample | Materials.FrameWriteAt |
| src/material.cpp:321 | the memory type filter is the OR of every buffer's memoryTypeBits, and each buffer is then bound to that one allocation (material.cpp:334-335; graphics.cpp:115, 149 likewise) | two buffers accepting only type 0 and only type 1: type 0 is picked, and the second buffer cannot be bound to it | the AND: a type every buffer accepts, or runtime_error | medium, not executed | Memory.UnionChoiceCounterexample | Memory.IntersectionChoiceBindsEach |
| src/include/linalg.hpp:319-324 | view_matrix puts the camera axes in the first three columns and the translation terms -ws_r . cs in the bottom row; mat * vec dots rows with the vector, and translation_matrix keeps its translation in the last column (linalg.hpp:362-363); linalg_templates.hpp:319-324 has the same layout | eye (1, 0, 0), target (1, 0, 1), up (0, 1, 0): the eye goes to (-1, 0, 0, 2) | the transpose: the axes as rows and the translation as the last column, so the eye goes to (0, 0, 0, 1) | high, not executed | LinAlgFactories.ViewMatrixEyeCounterexample | LinAlgFactories.ViewMatrixCorrectedEye |
