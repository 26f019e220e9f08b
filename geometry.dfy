/**
  The vector, matrix and affine-map arithmetic the portal code takes from its
  math library (glam's Vec3, Mat3 and Affine3A, bevy's Transform and HalfSpace),
  stated over the exact reals instead of 32-bit floats.

  Operations that need a square root or that are floating-point algorithms of
  the engine (reciprocal length, scale/rotation decomposition, `look_to`,
  frustum extraction) are not definable here; they are gathered in `Numerics`,
  a record of functions the caller supplies, and `Sound` states the one law of
  them the proofs rely on.
*/
module Geometry {

  /** A vector of three reals. */
  datatype Vec3 = Vec3(x: real, y: real, z: real)

  const Zero: Vec3 := Vec3(0.0, 0.0, 0.0)
  const One: Vec3 := Vec3(1.0, 1.0, 1.0)
  const UnitX: Vec3 := Vec3(1.0, 0.0, 0.0)
  const UnitY: Vec3 := Vec3(0.0, 1.0, 0.0)
  const UnitZ: Vec3 := Vec3(0.0, 0.0, 1.0)

  function Add(a: Vec3, b: Vec3): Vec3 { Vec3(a.x + b.x, a.y + b.y, a.z + b.z) }
  function Sub(a: Vec3, b: Vec3): Vec3 { Vec3(a.x - b.x, a.y - b.y, a.z - b.z) }
  function Neg(a: Vec3): Vec3 { Vec3(-a.x, -a.y, -a.z) }
  function Scale(k: real, a: Vec3): Vec3 { Vec3(k * a.x, k * a.y, k * a.z) }
  function Dot(a: Vec3, b: Vec3): real { a.x * b.x + a.y * b.y + a.z * b.z }
  function Cross(a: Vec3, b: Vec3): Vec3 {
    Vec3(a.y * b.z - a.z * b.y, a.z * b.x - a.x * b.z, a.x * b.y - a.y * b.x)
  }

  /** A 3x3 matrix stored by columns, as glam stores it. */
  datatype Mat3 = Mat3(xAxis: Vec3, yAxis: Vec3, zAxis: Vec3)

  const Identity3: Mat3 := Mat3(UnitX, UnitY, UnitZ)

  /** `m * v`: the columns weighted by the coordinates of `v`. */
  function MulVec(m: Mat3, v: Vec3): Vec3 {
    Vec3(v.x * m.xAxis.x + v.y * m.yAxis.x + v.z * m.zAxis.x,
         v.x * m.xAxis.y + v.y * m.yAxis.y + v.z * m.zAxis.y,
         v.x * m.xAxis.z + v.y * m.yAxis.z + v.z * m.zAxis.z)
  }

  function MatMul(a: Mat3, b: Mat3): Mat3 {
    Mat3(MulVec(a, b.xAxis), MulVec(a, b.yAxis), MulVec(a, b.zAxis))
  }

  function Transpose(m: Mat3): Mat3 {
    Mat3(Vec3(m.xAxis.x, m.yAxis.x, m.zAxis.x),
         Vec3(m.xAxis.y, m.yAxis.y, m.zAxis.y),
         Vec3(m.xAxis.z, m.yAxis.z, m.zAxis.z))
  }

  function ScaleMat(k: real, m: Mat3): Mat3 {
    Mat3(Scale(k, m.xAxis), Scale(k, m.yAxis), Scale(k, m.zAxis))
  }

  /** glam's `Mat3::determinant`: the triple product of the columns. */
  function Determinant(m: Mat3): real { Dot(m.zAxis, Cross(m.xAxis, m.yAxis)) }

  /** The adjugate: the transposed column cross products. */
  function Adjugate(m: Mat3): Mat3 {
    Transpose(Mat3(Cross(m.yAxis, m.zAxis), Cross(m.zAxis, m.xAxis), Cross(m.xAxis, m.yAxis)))
  }

  /**
    glam's `Mat3::inverse`: the adjugate scaled by the reciprocal determinant
    (glam scales the column cross products and then transposes, which gives
    the same entries). glam does not check the determinant (a singular matrix
    yields infinities), so the reciprocal is the engine's.
  */
  function Inverse3(num: Numerics, m: Mat3): Mat3 {
    ScaleMat(num.recip(Determinant(m)), Adjugate(m))
  }

  /** An affine map: a linear part and a translation (glam's Affine3A, bevy's GlobalTransform). */
  datatype Affine = Affine(matrix: Mat3, translation: Vec3)

  const IdentityAffine: Affine := Affine(Identity3, Zero)

  function TransformPoint(a: Affine, p: Vec3): Vec3 {
    Add(MulVec(a.matrix, p), a.translation)
  }

  /** `a * b`: first `b`, then `a`. */
  function Compose(a: Affine, b: Affine): Affine {
    Affine(MatMul(a.matrix, b.matrix), Add(MulVec(a.matrix, b.translation), a.translation))
  }

  /** glam's `Affine3A::inverse`. */
  function AffineInverse(num: Numerics, a: Affine): Affine {
    var m := Inverse3(num, a.matrix);
    Affine(m, Neg(MulVec(m, a.translation)))
  }

  /**
    bevy's Transform: translation, rotation and scale. The rotation is kept as
    its rotation matrix (columns: the local X, Y and Z axes) rather than as a
    unit quaternion.
  */
  datatype Transform = Transform(translation: Vec3, rotation: Mat3, scale: Vec3)

  const IdentityTransform: Transform := Transform(Zero, Identity3, One)

  /** `Transform::compute_affine` (and `GlobalTransform::from(Transform)`): rotation times scale, then translation. */
  function TransformToAffine(t: Transform): Affine {
    Affine(Mat3(Scale(t.scale.x, t.rotation.xAxis),
                Scale(t.scale.y, t.rotation.yAxis),
                Scale(t.scale.z, t.rotation.zAxis)),
           t.translation)
  }

  /** `Transform::forward`: the rotated -Z axis. */
  function TransformForward(t: Transform): Vec3 { Neg(t.rotation.zAxis) }

  /** `Transform::up`: the rotated Y axis. */
  function TransformUp(t: Transform): Vec3 { t.rotation.yAxis }

  /**
    bevy's HalfSpace: the points `p` with `Dot(normal, p) + d >= 0` are inside.
  */
  datatype HalfSpace = HalfSpace(normal: Vec3, d: real)

  function SignedDistance(h: HalfSpace, p: Vec3): real { Dot(h.normal, p) + h.d }

  /** bevy's Frustum: six half-spaces (left, right, top, bottom, near, far). */
  type Frustum = hs: seq<HalfSpace> | |hs| == 6
    witness [HalfSpace(Zero, 0.0), HalfSpace(Zero, 0.0), HalfSpace(Zero, 0.0),
             HalfSpace(Zero, 0.0), HalfSpace(Zero, 0.0), HalfSpace(Zero, 0.0)]

  /** The index of the near half-space in a frustum. */
  const NearIndex: nat := 4

  /** `Frustum::default()`: six zero half-spaces. */
  const DefaultFrustum: Frustum :=
    [HalfSpace(Zero, 0.0), HalfSpace(Zero, 0.0), HalfSpace(Zero, 0.0),
     HalfSpace(Zero, 0.0), HalfSpace(Zero, 0.0), HalfSpace(Zero, 0.0)]

  /**
    A camera projection (perspective, orthographic or custom). Its parameters
    matter only to frustum extraction, which is foreign, so the model keeps it
    opaque; `DefaultProjection` is `Projection::default()`.
  */
  datatype Projection = DefaultProjection | OtherProjection(id: nat)

  /**
    The floating-point operations of the engine that this model cannot define:
    - recip: `1.0 / x`, which is infinite for zero;
    - lengthRecip: `Vec3::length_recip`, 1 / |v|;
    - scaleRotation: the scale and rotation parts of `to_scale_rotation_translation`;
    - lookTo: the rotation `Transform::look_to(direction, up)` builds;
    - frustumFrom: `Frustum::from_clip_from_world_custom_far` applied to the
      projection's clip matrix times the inverse camera matrix.
  */
  datatype Numerics = Numerics(
    recip: real -> real,
    lengthRecip: Vec3 -> real,
    scaleRotation: Mat3 -> (Vec3, Mat3),
    lookTo: (Vec3, Vec3) -> Mat3,
    frustumFrom: (Projection, Affine) -> Frustum)

  /**
    The defining laws of the reciprocals on the inputs where they are finite:
    recip(x) * x == 1 for x != 0, and the length reciprocal is the positive r
    with r * r * |v|^2 == 1 for v != 0.
  */
  ghost predicate Sound(num: Numerics) {
    && (forall x: real :: x != 0.0 ==> num.recip(x) * x == 1.0)
    && (forall v :: Dot(v, v) > 0.0 ==>
          num.lengthRecip(v) > 0.0 && num.lengthRecip(v) * num.lengthRecip(v) * Dot(v, v) == 1.0)
  }

  /** `Vec3::normalize`. */
  function Normalize(num: Numerics, v: Vec3): Vec3 {
    Scale(num.lengthRecip(v), v)
  }

  /** `HalfSpace::new(normal.extend(d))`, which divides all four numbers by the normal's length. */
  function NewHalfSpace(num: Numerics, normal: Vec3, d: real): HalfSpace {
    var r := num.lengthRecip(normal);
    HalfSpace(Scale(r, normal), r * d)
  }

  /** `GlobalTransform::forward`: the normalized -Z column. */
  function GlobalForward(num: Numerics, a: Affine): Vec3 {
    Neg(Normalize(num, a.matrix.zAxis))
  }

  /** `GlobalTransform::rotation().mul_vec3(v)`. */
  function GlobalRotate(num: Numerics, a: Affine, v: Vec3): Vec3 {
    MulVec(num.scaleRotation(a.matrix).1, v)
  }

  /** `GlobalTransform::compute_transform` (and `Transform::from(GlobalTransform)`). */
  function AffineToTransform(num: Numerics, a: Affine): (t: Transform)
    ensures t.translation == a.translation
  {
    var (scale, rotation) := num.scaleRotation(a.matrix);
    Transform(a.translation, rotation, scale)
  }

  // ---------------------------------------------------------------- lemmas

  lemma MulVecIdentity(v: Vec3)
    ensures MulVec(Identity3, v) == v
  {
  }

  lemma MulVecNeg(m: Mat3, v: Vec3)
    ensures MulVec(m, Neg(v)) == Neg(MulVec(m, v))
  {
  }

  lemma MulVecAdd(m: Mat3, u: Vec3, v: Vec3)
    ensures MulVec(m, Add(u, v)) == Add(MulVec(m, u), MulVec(m, v))
  {
  }

  /** k distributes over a three-term dot product. */
  lemma Distribute3(k: real, a: real, b: real, c: real, p: real, q: real, r: real)
    ensures (k * a) * p + (k * b) * q + (k * c) * r == k * (a * p + b * q + c * r)
  {
  }

  lemma MulVecScale(m: Mat3, k: real, v: Vec3)
    ensures MulVec(m, Scale(k, v)) == Scale(k, MulVec(m, v))
  {
    var x, y, z := m.xAxis, m.yAxis, m.zAxis;
    var lhs, rhs := MulVec(m, Scale(k, v)), Scale(k, MulVec(m, v));
    assert lhs.x == rhs.x by { Distribute3(k, v.x, v.y, v.z, x.x, y.x, z.x); }
    assert lhs.y == rhs.y by { Distribute3(k, v.x, v.y, v.z, x.y, y.y, z.y); }
    assert lhs.z == rhs.z by { Distribute3(k, v.x, v.y, v.z, x.z, y.z, z.z); }
  }

  /**
    One coordinate of (a * b) * v against a * (b * v), over plain reals: the
    m's are the coordinate's row of a * b, the n's the coordinates of b * v.
  */
  lemma Associate3(v0: real, v1: real, v2: real, a0: real, a1: real, a2: real,
                   p0: real, p1: real, p2: real, q0: real, q1: real, q2: real,
                   r0: real, r1: real, r2: real,
                   m0: real, m1: real, m2: real, n0: real, n1: real, n2: real)
    requires m0 == p0 * a0 + p1 * a1 + p2 * a2
    requires m1 == q0 * a0 + q1 * a1 + q2 * a2
    requires m2 == r0 * a0 + r1 * a1 + r2 * a2
    requires n0 == v0 * p0 + v1 * q0 + v2 * r0
    requires n1 == v0 * p1 + v1 * q1 + v2 * r1
    requires n2 == v0 * p2 + v1 * q2 + v2 * r2
    ensures v0 * m0 + v1 * m1 + v2 * m2 == n0 * a0 + n1 * a1 + n2 * a2
  {
  }

  lemma MulVecMatMulX(a: Mat3, b: Mat3, v: Vec3)
    ensures MulVec(MatMul(a, b), v).x == MulVec(a, MulVec(b, v)).x
  {
    Associate3(v.x, v.y, v.z, a.xAxis.x, a.yAxis.x, a.zAxis.x,
               b.xAxis.x, b.xAxis.y, b.xAxis.z, b.yAxis.x, b.yAxis.y, b.yAxis.z, b.zAxis.x, b.zAxis.y, b.zAxis.z,
               MatMul(a, b).xAxis.x, MatMul(a, b).yAxis.x, MatMul(a, b).zAxis.x,
               MulVec(b, v).x, MulVec(b, v).y, MulVec(b, v).z);
  }

  lemma MulVecMatMulY(a: Mat3, b: Mat3, v: Vec3)
    ensures MulVec(MatMul(a, b), v).y == MulVec(a, MulVec(b, v)).y
  {
    Associate3(v.x, v.y, v.z, a.xAxis.y, a.yAxis.y, a.zAxis.y,
               b.xAxis.x, b.xAxis.y, b.xAxis.z, b.yAxis.x, b.yAxis.y, b.yAxis.z, b.zAxis.x, b.zAxis.y, b.zAxis.z,
               MatMul(a, b).xAxis.y, MatMul(a, b).yAxis.y, MatMul(a, b).zAxis.y,
               MulVec(b, v).x, MulVec(b, v).y, MulVec(b, v).z);
  }

  lemma MulVecMatMulZ(a: Mat3, b: Mat3, v: Vec3)
    ensures MulVec(MatMul(a, b), v).z == MulVec(a, MulVec(b, v)).z
  {
    Associate3(v.x, v.y, v.z, a.xAxis.z, a.yAxis.z, a.zAxis.z,
               b.xAxis.x, b.xAxis.y, b.xAxis.z, b.yAxis.x, b.yAxis.y, b.yAxis.z, b.zAxis.x, b.zAxis.y, b.zAxis.z,
               MatMul(a, b).xAxis.z, MatMul(a, b).yAxis.z, MatMul(a, b).zAxis.z,
               MulVec(b, v).x, MulVec(b, v).y, MulVec(b, v).z);
  }

  /** Matrix-vector products associate with matrix products. */
  lemma MulVecMatMul(a: Mat3, b: Mat3, v: Vec3)
    ensures MulVec(MatMul(a, b), v) == MulVec(a, MulVec(b, v))
  {
    MulVecMatMulX(a, b, v);
    MulVecMatMulY(a, b, v);
    MulVecMatMulZ(a, b, v);
  }

  lemma MatMulIdentityLeft(m: Mat3)
    ensures MatMul(Identity3, m) == m
  {
    MulVecIdentity(m.xAxis);
    MulVecIdentity(m.yAxis);
    MulVecIdentity(m.zAxis);
  }

  /**
    One column of m * adj(m) over plain reals: (a, b, c) are the columns of m
    and (p, q, s) the column of adj(m); the product is det times a unit column.
  */
  lemma AdjugateColumnX(a0: real, a1: real, a2: real, b0: real, b1: real, b2: real,
                        c0: real, c1: real, c2: real, p: real, q: real, s: real, det: real)
    requires p == b1 * c2 - b2 * c1 && q == c1 * a2 - c2 * a1 && s == a1 * b2 - a2 * b1
    requires det == c0 * (a1 * b2 - a2 * b1) + c1 * (a2 * b0 - a0 * b2) + c2 * (a0 * b1 - a1 * b0)
    ensures p * a0 + q * b0 + s * c0 == det
    ensures p * a1 + q * b1 + s * c1 == 0.0
    ensures p * a2 + q * b2 + s * c2 == 0.0
  {
  }

  lemma MatMulAdjugateX(m: Mat3)
    ensures MatMul(m, Adjugate(m)).xAxis == Scale(Determinant(m), UnitX)
  {
    AdjugateColumnX(m.xAxis.x, m.xAxis.y, m.xAxis.z, m.yAxis.x, m.yAxis.y, m.yAxis.z,
                    m.zAxis.x, m.zAxis.y, m.zAxis.z,
                    Adjugate(m).xAxis.x, Adjugate(m).xAxis.y, Adjugate(m).xAxis.z, Determinant(m));
  }

  lemma AdjugateColumnY(a0: real, a1: real, a2: real, b0: real, b1: real, b2: real,
                        c0: real, c1: real, c2: real, p: real, q: real, s: real, det: real)
    requires p == b2 * c0 - b0 * c2 && q == c2 * a0 - c0 * a2 && s == a2 * b0 - a0 * b2
    requires det == c0 * (a1 * b2 - a2 * b1) + c1 * (a2 * b0 - a0 * b2) + c2 * (a0 * b1 - a1 * b0)
    ensures p * a0 + q * b0 + s * c0 == 0.0
    ensures p * a1 + q * b1 + s * c1 == det
    ensures p * a2 + q * b2 + s * c2 == 0.0
  {
  }

  lemma MatMulAdjugateY(m: Mat3)
    ensures MatMul(m, Adjugate(m)).yAxis == Scale(Determinant(m), UnitY)
  {
    AdjugateColumnY(m.xAxis.x, m.xAxis.y, m.xAxis.z, m.yAxis.x, m.yAxis.y, m.yAxis.z,
                    m.zAxis.x, m.zAxis.y, m.zAxis.z,
                    Adjugate(m).yAxis.x, Adjugate(m).yAxis.y, Adjugate(m).yAxis.z, Determinant(m));
  }

  lemma AdjugateColumnZ(a0: real, a1: real, a2: real, b0: real, b1: real, b2: real,
                        c0: real, c1: real, c2: real, p: real, q: real, s: real, det: real)
    requires p == b0 * c1 - b1 * c0 && q == c0 * a1 - c1 * a0 && s == a0 * b1 - a1 * b0
    requires det == c0 * (a1 * b2 - a2 * b1) + c1 * (a2 * b0 - a0 * b2) + c2 * (a0 * b1 - a1 * b0)
    ensures p * a0 + q * b0 + s * c0 == 0.0
    ensures p * a1 + q * b1 + s * c1 == 0.0
    ensures p * a2 + q * b2 + s * c2 == det
  {
  }

  lemma MatMulAdjugateZ(m: Mat3)
    ensures MatMul(m, Adjugate(m)).zAxis == Scale(Determinant(m), UnitZ)
  {
    AdjugateColumnZ(m.xAxis.x, m.xAxis.y, m.xAxis.z, m.yAxis.x, m.yAxis.y, m.yAxis.z,
                    m.zAxis.x, m.zAxis.y, m.zAxis.z,
                    Adjugate(m).zAxis.x, Adjugate(m).zAxis.y, Adjugate(m).zAxis.z, Determinant(m));
  }

  lemma MatMulAdjugate(m: Mat3)
    ensures MatMul(m, Adjugate(m)) == ScaleMat(Determinant(m), Identity3)
  {
    MatMulAdjugateX(m);
    MatMulAdjugateY(m);
    MatMulAdjugateZ(m);
  }

  /** If m * a is det times the identity and k * det == 1, then m * (k a) is the identity. */
  lemma MatMulScaledRightInverse(m: Mat3, a: Mat3, k: real, det: real)
    requires MatMul(m, a) == ScaleMat(det, Identity3) && k * det == 1.0
    ensures MatMul(m, ScaleMat(k, a)) == Identity3
  {
    MulVecScale(m, k, a.xAxis);
    MulVecScale(m, k, a.yAxis);
    MulVecScale(m, k, a.zAxis);
    ScaleUnits(k, det);
  }

  /** Scaling det times a unit axis by the reciprocal of det gives the axis back. */
  lemma ScaleUnits(k: real, det: real)
    requires k * det == 1.0
    ensures Scale(k, Scale(det, UnitX)) == UnitX
    ensures Scale(k, Scale(det, UnitY)) == UnitY
    ensures Scale(k, Scale(det, UnitZ)) == UnitZ
  {
  }

  /** `Inverse3` is a right inverse of an invertible matrix: m * m^-1 == I. */
  lemma MatMulInverse3(num: Numerics, m: Mat3)
    requires Sound(num)
    requires Determinant(m) != 0.0
    ensures MatMul(m, Inverse3(num, m)) == Identity3
  {
    MatMulAdjugate(m);
    MatMulScaledRightInverse(m, Adjugate(m), num.recip(Determinant(m)), Determinant(m));
  }

  /** Applying `Compose(a, b)` is applying `b`, then `a`. */
  lemma ComposeApplies(a: Affine, b: Affine, p: Vec3)
    ensures TransformPoint(Compose(a, b), p) == TransformPoint(a, TransformPoint(b, p))
  {
    MulVecMatMul(a.matrix, b.matrix, p);
    MulVecAdd(a.matrix, MulVec(b.matrix, p), b.translation);
  }

  lemma ComposeIdentityLeft(a: Affine)
    ensures Compose(IdentityAffine, a) == a
  {
    MatMulIdentityLeft(a.matrix);
    MulVecIdentity(a.translation);
  }

  /** An invertible map composed with its inverse is the identity map. */
  lemma ComposeAffineInverse(num: Numerics, a: Affine)
    requires Sound(num)
    requires Determinant(a.matrix) != 0.0
    ensures Compose(a, AffineInverse(num, a)) == IdentityAffine
  {
    var m := Inverse3(num, a.matrix);
    MatMulInverse3(num, a.matrix);
    calc {
      MulVec(a.matrix, Neg(MulVec(m, a.translation)));
      { MulVecNeg(a.matrix, MulVec(m, a.translation)); }
      Neg(MulVec(a.matrix, MulVec(m, a.translation)));
      { MulVecMatMul(a.matrix, m, a.translation); }
      Neg(MulVec(MatMul(a.matrix, m), a.translation));
      { MulVecIdentity(a.translation); }
      Neg(a.translation);
    }
  }

  /** (p * p^-1) * m == m: the group law the portal-camera solver relies on. */
  lemma InverseCancels(num: Numerics, p: Affine, m: Affine)
    requires Sound(num)
    requires Determinant(p.matrix) != 0.0
    ensures Compose(Compose(p, AffineInverse(num, p)), m) == m
  {
    ComposeAffineInverse(num, p);
    ComposeIdentityLeft(m);
  }

  lemma TransformToAffineIdentity()
    ensures TransformToAffine(IdentityTransform) == IdentityAffine
  {
  }

  /** A normalized non-zero vector has unit length. */
  lemma NormalizeIsUnit(num: Numerics, v: Vec3)
    requires Sound(num)
    requires Dot(v, v) > 0.0
    ensures Dot(Normalize(num, v), Normalize(num, v)) == 1.0
  {
    var r := num.lengthRecip(v);
    assert r * r * Dot(v, v) == 1.0;
    calc {
      Dot(Normalize(num, v), Normalize(num, v));
      (r * v.x) * (r * v.x) + (r * v.y) * (r * v.y) + (r * v.z) * (r * v.z);
      r * r * Dot(v, v);
    }
  }

  /** Normalizing a unit vector leaves it unchanged. */
  lemma NormalizeUnit(num: Numerics, v: Vec3)
    requires Sound(num)
    requires Dot(v, v) == 1.0
    ensures num.lengthRecip(v) == 1.0
    ensures Normalize(num, v) == v
  {
    var r := num.lengthRecip(v);
    assert r > 0.0 && r * r * Dot(v, v) == 1.0;
    assert (r - 1.0) * (r + 1.0) == 0.0;
    ZeroProduct(r - 1.0, r + 1.0);
  }

  lemma ZeroProduct(a: real, b: real)
    requires a * b == 0.0 && b != 0.0
    ensures a == 0.0
  {
    assert a == (a * b) / b;
  }

  /** `HalfSpace::new` scales the plane equation by the reciprocal length. */
  lemma NewHalfSpaceDistance(num: Numerics, normal: Vec3, d: real, p: Vec3)
    ensures SignedDistance(NewHalfSpace(num, normal, d), p)
         == num.lengthRecip(normal) * (Dot(normal, p) + d)
  {
  }

  /** `HalfSpace::new` keeps the direction of a non-zero normal. */
  lemma NewHalfSpaceNormal(num: Numerics, normal: Vec3, d: real, u: Vec3)
    requires Sound(num)
    requires Dot(normal, normal) > 0.0
    ensures Dot(normal, u) <= 0.0 ==> Dot(NewHalfSpace(num, normal, d).normal, u) <= 0.0
  {
    var r := num.lengthRecip(normal);
    assert Dot(Scale(r, normal), u) == r * Dot(normal, u);
    assert r > 0.0;
  }
}
