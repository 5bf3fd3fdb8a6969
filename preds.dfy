/** The prediction script's choice of samples and its decoding of a
    ground-truth action back into a world-frame pose for the cap. */
module Preds {
  import opened Common
  import opened Rigid
  import opened Dataset

  /** The number of elements of `range(start, stop, step)`. */
  function RangeCount(start: nat, stop: nat, step: nat): nat
    requires step > 0
  {
    if start < stop then (stop - start - 1) / step + 1 else 0
  }

  /** `list(range(start, stop, step))` for a positive step. */
  function Range(start: nat, stop: nat, step: nat): seq<nat>
    requires step > 0
  {
    seq(RangeCount(start, stop, step), i => start + step * i)
  }

  /** `10 * 29 * 18`: ten renders of 29 kept scenes seen by 18 cameras. */
  const KeyCount: nat := 10 * 29 * 18

  /** `valid_indices`: every fifth key from 1, then every fifth from 3. */
  function ValidIndices(): seq<nat>
  {
    Range(1, KeyCount, 5) + Range(3, KeyCount, 5)
  }

  /** The first half counts up from 1 and the second from 3, in steps of 5,
      1044 elements each. */
  lemma ValidIndicesShape()
    ensures |ValidIndices()| == 2088
    ensures forall i :: 0 <= i < 1044 ==> ValidIndices()[i] == 1 + 5 * i
    ensures forall i :: 1044 <= i < 2088 ==> ValidIndices()[i] == 3 + 5 * (i - 1044)
  {
    assert KeyCount == 5220;
    assert RangeCount(1, KeyCount, 5) == 1044;
    assert RangeCount(3, KeyCount, 5) == 1044;
  }

  /** Every listed index is below 5220 and 1 or 3 modulo 5. */
  lemma ValidIndexForm(x: int)
    requires x in ValidIndices()
    ensures 0 <= x < 5220 && (x % 5 == 1 || x % 5 == 3)
  {
    ValidIndicesShape();
    var v := ValidIndices();
    var i :| 0 <= i < |v| && v[i] == x;
    if i < 1044 {
      assert x == 1 + 5 * i;
    } else {
      assert x == 3 + 5 * (i - 1044);
    }
  }

  /** Every key below 5220 that is 1 or 3 modulo 5 is listed. */
  lemma ValidIndexListed(x: int)
    requires 0 <= x < 5220 && (x % 5 == 1 || x % 5 == 3)
    ensures x in ValidIndices()
  {
    ValidIndicesShape();
    var v := ValidIndices();
    if x % 5 == 1 {
      var i := (x - 1) / 5;
      assert 0 <= i < 1044 && 5 * i == x - 1;
      assert v[i] == x;
    } else {
      var i := (x - 3) / 5;
      assert 0 <= i < 1044 && 5 * i == x - 3;
      assert v[1044 + i] == x;
    }
  }

  /** The valid indices are exactly the keys below 5220 that are 1 or 3
      modulo 5. */
  lemma ValidIndicesMembers(x: int)
    ensures x in ValidIndices() <==> 0 <= x < 5220 && (x % 5 == 1 || x % 5 == 3)
  {
    if x in ValidIndices() {
      ValidIndexForm(x);
    }
    if 0 <= x < 5220 && (x % 5 == 1 || x % 5 == 3) {
      ValidIndexListed(x);
    }
  }

  /** No index is listed twice. */
  lemma ValidIndicesDistinct()
    ensures forall i, j :: 0 <= i < j < |ValidIndices()| ==> ValidIndices()[i] != ValidIndices()[j]
  {
    ValidIndicesShape();
    var v := ValidIndices();
    forall i, j | 0 <= i < j < |v| ensures v[i] != v[j] {
      if j < 1044 || 1044 <= i {
      } else {
        assert v[i] % 5 == 1 && v[j] % 5 == 3;
      }
    }
  }

  /** For ten renders of 30 scenes with 18 cameras each the dataset has
      exactly `10 * 29 * 18` keys, so every valid index names a key. */
  lemma ValidIndicesInRange(rs: seq<RenderEntry>)
    requires |rs| == 10 && Uniform(rs, 30, 18)
    ensures |AllKeys(rs)| == KeyCount
    ensures forall x :: x in ValidIndices() ==> x < |AllKeys(rs)|
  {
    UniformKeyCount(rs, 30, 18);
    forall x | x in ValidIndices() ensures x < 5220 {
      ValidIndicesMembers(x);
    }
  }

  /** `cameratnext[:3]` mapped back to the world: `worldTcamera @
      [action[:3] + cameraTcurr[:3, 3]; 1]`. */
  function DecodedTranslation(action: seq<real>, camera: Pose, curr: Pose, rot: Rotations): Vec3
    requires |action| >= 3
  {
    Apply(PoseEulerToT(camera, rot.euler), Add(Vec3(action[0], action[1], action[2]), CameraFrame(camera, curr, rot).trans))
  }

  /** `cameraTcurr[:3, :3]^T @ action[4:7]`. */
  function DecodedVector(action: seq<real>, camera: Pose, curr: Pose, rot: Rotations): Vec3
    requires |action| >= 7
  {
    MulV(Transpose(CameraFrame(camera, curr, rot).rot), Vec3(action[4], action[5], action[6]))
  }

  /** `worldTcurr[:3, :3] @ quaternion_to_matrix(currqnext)`. */
  function DecodedRotation(action: seq<real>, camera: Pose, curr: Pose, rot: Rotations): Mat3
    requires |action| >= 7
  {
    Mul(rot.euler(Angles(curr)), rot.fromQuat(Quat(action[3], DecodedVector(action, camera, curr, rot))))
  }

  /** The decode of one ground-truth sample. `currqnext` is a view of
      `action[3:7]`, so rotating its vector part overwrites `action[4:7]`;
      the rest of `action` is left as it was, and only the cap's slices
      `curr_pose[:6]` and `action[:7]` are read. */
  method DecodeGroundTruth(action: array<real>, camera: Pose, currPose: seq<real>, rot: Rotations) returns (nextInferred: Pose)
    requires action.Length >= 7 && |currPose| >= 6
    modifies action
    ensures action[..] == old(action[..4]) + Vec3ToSeq(DecodedVector(old(action[..]), camera, PoseOfSeq(currPose[..6]), rot)) + old(action[7..])
    ensures nextInferred == PoseOf(DecodedTranslation(old(action[..]), camera, PoseOfSeq(currPose[..6]), rot),
                                   rot.toEuler(DecodedRotation(old(action[..]), camera, PoseOfSeq(currPose[..6]), rot)))
  {
    ghost var before := action[..];
    var curr := PoseOfSeq(currPose[..6]);
    var worldTcamera := PoseEulerToT(camera, rot.euler);
    var worldTcurr := PoseEulerToT(curr, rot.euler);
    var cameraTcurr := Compose(PoseEulerToInvT(camera, rot.euler), worldTcurr);
    var cameratnext := new real[4](_ => 1.0);
    cameratnext[0] := action[0] + cameraTcurr.trans.x;
    cameratnext[1] := action[1] + cameraTcurr.trans.y;
    cameratnext[2] := action[2] + cameraTcurr.trans.z;
    var c3 := Vec3(cameratnext[0], cameratnext[1], cameratnext[2]);
    assert c3 == Add(Vec3(before[0], before[1], before[2]), CameraFrame(camera, curr, rot).trans);
    assert cameratnext[3] == 1.0;
    var worldtnext := Add(MulV(worldTcamera.rot, c3), Scale(cameratnext[3], worldTcamera.trans));
    assert worldtnext == DecodedTranslation(before, camera, curr, rot);
    var v := MulV(Transpose(cameraTcurr.rot), Vec3(action[4], action[5], action[6]));
    assert v == DecodedVector(before, camera, curr, rot);
    action[4], action[5], action[6] := v.x, v.y, v.z;
    var currRnext := rot.fromQuat(Quat(action[3], Vec3(action[4], action[5], action[6])));
    var worldRnext := Mul(worldTcurr.rot, currRnext);
    nextInferred := PoseOf(worldtnext, rot.toEuler(worldRnext));
  }

  /** Decoding an encoded action gives back the next position, whenever
      the camera's rotation is orthonormal. */
  lemma DecodeTranslationRoundTrip(camera: Pose, curr: Pose, next: Pose, rest: seq<real>, rot: Rotations)
    requires Orthonormal(rot.euler(Angles(camera)))
    ensures DecodedTranslation(ObjectAction(camera, curr, next, rot) + rest, camera, curr, rot) == Translation(next)
  {
    var a := ObjectAction(camera, curr, next, rot) + rest;
    var rc := rot.euler(Angles(camera));
    var rct := Transpose(rc);
    var tc, tn, tcam := Translation(curr), Translation(next), Translation(camera);
    ActionTranslation(camera, curr, next, rot);
    assert a[..3] == ObjectAction(camera, curr, next, rot)[..3];
    assert Vec3(a[0], a[1], a[2]) == MulV(rct, Sub(tn, tc));
    MulVSub(rct, tn, tc);
    MulVSub(rct, tn, tcam);
    var x := Add(Vec3(a[0], a[1], a[2]), CameraFrame(camera, curr, rot).trans);
    assert x == MulV(rct, Sub(tn, tcam));
    TransposeOrthonormal(rc);
    TransposeTwice(rc);
    UndoRotation(rct, Sub(tn, tcam));
  }

  /** Decoding gives back the quaternion of the relative rotation
      `R_curr^T R_next`, whenever the camera's and the current pose's
      rotations are orthonormal. */
  lemma DecodeQuaternionRoundTrip(camera: Pose, curr: Pose, next: Pose, rest: seq<real>, rot: Rotations)
    requires Orthonormal(rot.euler(Angles(camera))) && Orthonormal(rot.euler(Angles(curr)))
    ensures var a := ObjectAction(camera, curr, next, rot) + rest;
      Quat(a[3], DecodedVector(a, camera, curr, rot))
        == rot.toQuat(Mul(Transpose(rot.euler(Angles(curr))), rot.euler(Angles(next))))
  {
    var a := ObjectAction(camera, curr, next, rot) + rest;
    var rc, rcur := rot.euler(Angles(camera)), rot.euler(Angles(curr));
    var q := rot.toQuat(Mul(Transpose(rcur), rot.euler(Angles(next))));
    ActionRotation(camera, curr, next, rot);
    assert a[3..7] == ObjectAction(camera, curr, next, rot)[3..];
    assert Vec3(a[4], a[5], a[6]) == MulV(Mul(Transpose(rc), rcur), q.v);
    TransposeOrthonormal(rc);
    UndoProduct(Transpose(rc), rcur, q.v);
  }

  /** When the rotation library's quaternion conversions invert each other
      on the relative rotation, the decoded world rotation is the next
      pose's rotation, and the inferred pose is the next pose whenever the
      Euler conversion recovers its angles. */
  lemma DecodePoseRoundTrip(camera: Pose, curr: Pose, next: Pose, rest: seq<real>, rot: Rotations)
    requires Orthonormal(rot.euler(Angles(camera))) && Orthonormal(rot.euler(Angles(curr)))
    requires var rel := Mul(Transpose(rot.euler(Angles(curr))), rot.euler(Angles(next)));
      rot.fromQuat(rot.toQuat(rel)) == rel
    requires rot.toEuler(rot.euler(Angles(next))) == Angles(next)
    ensures var a := ObjectAction(camera, curr, next, rot) + rest;
      DecodedRotation(a, camera, curr, rot) == rot.euler(Angles(next)) &&
      PoseOf(DecodedTranslation(a, camera, curr, rot), rot.toEuler(DecodedRotation(a, camera, curr, rot))) == next
  {
    var rcur, rn := rot.euler(Angles(curr)), rot.euler(Angles(next));
    DecodeTranslationRoundTrip(camera, curr, next, rest, rot);
    DecodeQuaternionRoundTrip(camera, curr, next, rest, rot);
    MulAssoc(rcur, Transpose(rcur), rn);
    MulIdentityLeft(rn);
  }
}
