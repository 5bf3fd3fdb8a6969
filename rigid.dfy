/** Rigid transforms as the 4x4 homogeneous matrices `[R | t; 0 0 0 1]`
    that the dataset builds from poses. The bottom row is always
    `0 0 0 1`, so a transform is kept as its two blocks, and matrix
    products of transforms become products of blocks. */
module Rigid {
  import opened Common

  /** A 3x3 matrix, by rows. */
  datatype Mat3 = Mat3(r0: Vec3, r1: Vec3, r2: Vec3)

  function Dot(a: Vec3, b: Vec3): real { a.x * b.x + a.y * b.y + a.z * b.z }

  function Scale(k: real, a: Vec3): Vec3 { Vec3(k * a.x, k * a.y, k * a.z) }

  /** `m @ v`. */
  function MulV(m: Mat3, v: Vec3): Vec3 { Vec3(Dot(m.r0, v), Dot(m.r1, v), Dot(m.r2, v)) }

  function Transpose(m: Mat3): Mat3
  {
    Mat3(Vec3(m.r0.x, m.r1.x, m.r2.x), Vec3(m.r0.y, m.r1.y, m.r2.y), Vec3(m.r0.z, m.r1.z, m.r2.z))
  }

  /** Row `u` times the matrix `b`. */
  function RowMul(u: Vec3, b: Mat3): Vec3 { Add(Add(Scale(u.x, b.r0), Scale(u.y, b.r1)), Scale(u.z, b.r2)) }

  /** `a @ b`. */
  function Mul(a: Mat3, b: Mat3): Mat3 { Mat3(RowMul(a.r0, b), RowMul(a.r1, b), RowMul(a.r2, b)) }

  function Identity(): Mat3 { Mat3(Vec3(1.0, 0.0, 0.0), Vec3(0.0, 1.0, 0.0), Vec3(0.0, 0.0, 1.0)) }

  /** A rotation matrix: its transpose is its inverse on both sides. The
      rotation libraries are not part of this model, so every fact that
      needs a matrix to be a rotation takes this as a hypothesis. */
  ghost predicate Orthonormal(r: Mat3)
  {
    Mul(Transpose(r), r) == Identity() && Mul(r, Transpose(r)) == Identity()
  }

  /** `[R | t; 0 0 0 1]`. */
  datatype Transform = Transform(rot: Mat3, trans: Vec3)

  function IdentityT(): Transform { Transform(Identity(), Zero3()) }

  /** The 4x4 product `a @ b`, block by block. */
  function Compose(a: Transform, b: Transform): Transform
  {
    Transform(Mul(a.rot, b.rot), Add(MulV(a.rot, b.trans), a.trans))
  }

  /** `(a @ [p; 1])[:3]`. */
  function Apply(a: Transform, p: Vec3): Vec3 { Add(MulV(a.rot, p), a.trans) }

  /** `torch.cat((R, t))` with the constant last row. */
  function ToT(t: Vec3, r: Mat3): Transform { Transform(r, t) }

  /** `torch.cat((R^T, -R^T @ t))` with the constant last row. */
  function ToInvT(t: Vec3, r: Mat3): Transform { Transform(Transpose(r), Neg(MulV(Transpose(r), t))) }

  /** `pose_euler_to_T`: the pose's angles go through the rotation library
      (`euler_angles_to_matrix`, a parameter here), and the pose's frame
      origin lands on its position. */
  function PoseEulerToT(p: Pose, euler: Vec3 -> Mat3): (r: Transform)
    ensures Apply(r, Zero3()) == Translation(p)
  {
    ToT(Translation(p), euler(Angles(p)))
  }

  /** `pose_euler_to_invT`: the pose's position lands on the frame origin. */
  function PoseEulerToInvT(p: Pose, euler: Vec3 -> Mat3): (r: Transform)
    ensures Apply(r, Translation(p)) == Zero3()
  {
    ToInvT(Translation(p), euler(Angles(p)))
  }

  /** A quaternion `(w, x, y, z)`, scalar first as in pytorch3d. */
  datatype Quat = Quat(w: real, v: Vec3)

  /** The 7-float pose `(x, y, z, w, qx, qy, qz)` of the quaternion helpers. */
  datatype QuatPose = QuatPose(t: Vec3, q: Quat)

  /** The pytorch3d conversions the dataset calls: `euler_angles_to_matrix`
      (convention `'XYZ'`), `matrix_to_quaternion`, `quaternion_to_matrix`
      and `matrix_to_euler_angles`. */
  datatype Rotations = Rotations(euler: Vec3 -> Mat3, toQuat: Mat3 -> Quat, fromQuat: Quat -> Mat3, toEuler: Mat3 -> Vec3)

  /** `pose_quat_to_T`: the pose's frame origin lands on its position. */
  function PoseQuatToT(p: QuatPose, fromQuat: Quat -> Mat3): (r: Transform)
    ensures Apply(r, Zero3()) == p.t
  {
    ToT(p.t, fromQuat(p.q))
  }

  /** `pose_quat_to_invT`: the pose's position lands on the frame origin. */
  function PoseQuatToInvT(p: QuatPose, fromQuat: Quat -> Mat3): (r: Transform)
    ensures Apply(r, p.t) == Zero3()
  {
    ToInvT(p.t, fromQuat(p.q))
  }

  lemma MulVSub(m: Mat3, a: Vec3, b: Vec3)
    ensures MulV(m, Sub(a, b)) == Sub(MulV(m, a), MulV(m, b))
  {
  }

  lemma MulVAdd(m: Mat3, a: Vec3, b: Vec3)
    ensures MulV(m, Add(a, b)) == Add(MulV(m, a), MulV(m, b))
  {
  }

  lemma MulVNeg(m: Mat3, a: Vec3)
    ensures MulV(m, Neg(a)) == Neg(MulV(m, a))
  {
  }

  lemma MulVIdentity(v: Vec3)
    ensures MulV(Identity(), v) == v
  {
  }

  lemma SumTimes(a: real, b: real, c: real, k: real)
    ensures (a + b + c) * k == a * k + b * k + c * k
  {
  }

  lemma TimesSum(k: real, a: real, b: real, c: real)
    ensures k * (a + b + c) == k * a + k * b + k * c
  {
  }

  /** One row of the associativity law: `(u @ b) . v == u . (b @ v)`. */
  lemma DotRowMul(u: Vec3, b: Mat3, v: Vec3)
    ensures Dot(RowMul(u, b), v) == Dot(u, MulV(b, v))
  {
    SumTimes(u.x * b.r0.x, u.y * b.r1.x, u.z * b.r2.x, v.x);
    SumTimes(u.x * b.r0.y, u.y * b.r1.y, u.z * b.r2.y, v.y);
    SumTimes(u.x * b.r0.z, u.y * b.r1.z, u.z * b.r2.z, v.z);
    TimesSum(u.x, b.r0.x * v.x, b.r0.y * v.y, b.r0.z * v.z);
    TimesSum(u.y, b.r1.x * v.x, b.r1.y * v.y, b.r1.z * v.z);
    TimesSum(u.z, b.r2.x * v.x, b.r2.y * v.y, b.r2.z * v.z);
  }

  /** `(a @ b) @ v == a @ (b @ v)`. */
  lemma MulVAssoc(a: Mat3, b: Mat3, v: Vec3)
    ensures MulV(Mul(a, b), v) == MulV(a, MulV(b, v))
  {
    DotRowMul(a.r0, b, v);
    DotRowMul(a.r1, b, v);
    DotRowMul(a.r2, b, v);
  }

  /** Entry `(i, j)` of `(a @ b)^T` is row `j` of `a` dotted with column `i`
      of `b`, which is entry `(i, j)` of `b^T @ a^T`. */
  lemma RowMulTransposed(u: Vec3, b: Mat3)
    ensures RowMul(u, b) == MulV(Transpose(b), u)
  {
  }

  lemma DotComm(u: Vec3, v: Vec3)
    ensures Dot(u, v) == Dot(v, u)
  {
  }

  /** `(a @ b)^T == b^T @ a^T`. */
  lemma TransposeMul(a: Mat3, b: Mat3)
    ensures Transpose(Mul(a, b)) == Mul(Transpose(b), Transpose(a))
  {
    var bt := Transpose(b);
    var at := Transpose(a);
    var m := Mul(a, b);
    RowMulTransposed(a.r0, b);
    RowMulTransposed(a.r1, b);
    RowMulTransposed(a.r2, b);
    assert m.r0 == MulV(bt, a.r0) && m.r1 == MulV(bt, a.r1) && m.r2 == MulV(bt, a.r2);
    TransposeTwice(a);
    RowMulTransposed(bt.r0, at);
    RowMulTransposed(bt.r1, at);
    RowMulTransposed(bt.r2, at);
    DotComm(bt.r0, a.r0); DotComm(bt.r0, a.r1); DotComm(bt.r0, a.r2);
    DotComm(bt.r1, a.r0); DotComm(bt.r1, a.r1); DotComm(bt.r1, a.r2);
    DotComm(bt.r2, a.r0); DotComm(bt.r2, a.r1); DotComm(bt.r2, a.r2);
    assert Transpose(m).r0 == MulV(a, bt.r0);
    assert Transpose(m).r1 == MulV(a, bt.r1);
    assert Transpose(m).r2 == MulV(a, bt.r2);
  }

  lemma TransposeTwice(m: Mat3)
    ensures Transpose(Transpose(m)) == m
  {
  }

  /** The transpose of a rotation is a rotation. */
  lemma TransposeOrthonormal(m: Mat3)
    requires Orthonormal(m)
    ensures Orthonormal(Transpose(m))
  {
    TransposeTwice(m);
  }

  /** Rotating by a rotation's transpose undoes it. */
  lemma UndoRotation(m: Mat3, v: Vec3)
    requires Orthonormal(m)
    ensures MulV(Transpose(m), MulV(m, v)) == v
  {
    MulVAssoc(Transpose(m), m, v);
    MulVIdentity(v);
  }

  /** The transpose of a product of two rotations undoes the product. */
  lemma UndoProduct(a: Mat3, b: Mat3, v: Vec3)
    requires Orthonormal(a) && Orthonormal(b)
    ensures MulV(Transpose(Mul(a, b)), MulV(Mul(a, b), v)) == v
  {
    TransposeMul(a, b);
    MulVAssoc(a, b, v);
    MulVAssoc(Transpose(b), Transpose(a), MulV(a, MulV(b, v)));
    UndoRotation(a, MulV(b, v));
    UndoRotation(b, v);
  }

  lemma MulIdentityLeft(m: Mat3)
    ensures Mul(Identity(), m) == m
  {
    forall v: Vec3 ensures Scale(1.0, v) == v && Scale(0.0, v) == Zero3() {
    }
    assert RowMul(Identity().r0, m) == m.r0;
    assert RowMul(Identity().r1, m) == m.r1;
    assert RowMul(Identity().r2, m) == m.r2;
  }

  /** `(a @ b) @ c == a @ (b @ c)`, row by row through the transposes. */
  lemma MulAssoc(a: Mat3, b: Mat3, c: Mat3)
    ensures Mul(Mul(a, b), c) == Mul(a, Mul(b, c))
  {
    TransposeMul(b, c);
    forall u: Vec3 ensures RowMul(RowMul(u, b), c) == RowMul(u, Mul(b, c)) {
      RowMulTransposed(u, b);
      RowMulTransposed(RowMul(u, b), c);
      RowMulTransposed(u, Mul(b, c));
      MulVAssoc(Transpose(c), Transpose(b), u);
    }
    var ab := Mul(a, b);
    assert ab.r0 == RowMul(a.r0, b) && ab.r1 == RowMul(a.r1, b) && ab.r2 == RowMul(a.r2, b);
  }

  /** `invT @ T == I` for a rotation block: the helper pairs are inverse
      transforms. */
  lemma InvTIsLeftInverse(t: Vec3, r: Mat3)
    requires Orthonormal(r)
    ensures Compose(ToInvT(t, r), ToT(t, r)) == IdentityT()
  {
  }

  /** `T @ invT == I` for a rotation block. */
  lemma InvTIsRightInverse(t: Vec3, r: Mat3)
    requires Orthonormal(r)
    ensures Compose(ToT(t, r), ToInvT(t, r)) == IdentityT()
  {
    MulVNeg(r, MulV(Transpose(r), t));
    MulVAssoc(r, Transpose(r), t);
    MulVIdentity(t);
  }

  /** Mapping a point into the pose's frame and back gives the point. */
  lemma InvTUndoesT(t: Vec3, r: Mat3, p: Vec3)
    requires Orthonormal(r)
    ensures Apply(ToInvT(t, r), Apply(ToT(t, r), p)) == p
  {
    var tr := Transpose(r);
    MulVAdd(tr, MulV(r, p), t);
    UndoRotation(r, p);
  }

  lemma PoseEulerInverse(p: Pose, euler: Vec3 -> Mat3)
    requires Orthonormal(euler(Angles(p)))
    ensures Compose(PoseEulerToInvT(p, euler), PoseEulerToT(p, euler)) == IdentityT()
    ensures Compose(PoseEulerToT(p, euler), PoseEulerToInvT(p, euler)) == IdentityT()
  {
    InvTIsLeftInverse(Translation(p), euler(Angles(p)));
    InvTIsRightInverse(Translation(p), euler(Angles(p)));
  }

  lemma PoseQuatInverse(p: QuatPose, fromQuat: Quat -> Mat3)
    requires Orthonormal(fromQuat(p.q))
    ensures Compose(PoseQuatToInvT(p, fromQuat), PoseQuatToT(p, fromQuat)) == IdentityT()
    ensures Compose(PoseQuatToT(p, fromQuat), PoseQuatToInvT(p, fromQuat)) == IdentityT()
  {
    InvTIsLeftInverse(p.t, fromQuat(p.q));
    InvTIsRightInverse(p.t, fromQuat(p.q));
  }
}
