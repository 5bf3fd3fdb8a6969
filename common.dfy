/** Shared value types: optional and fallible results, 3-vectors and the
    6-float poses `(x, y, z, r_x, r_y, r_z)` that every entity carries. */
module Common {

  datatype Option<+T> = None | Some(value: T)

  /** A Python exception is modelled as `Err` with a short description. */
  datatype Result<+T> = Ok(value: T) | Err(msg: string)

  datatype Vec3 = Vec3(x: real, y: real, z: real)

  function Add(a: Vec3, b: Vec3): Vec3 { Vec3(a.x + b.x, a.y + b.y, a.z + b.z) }
  function Sub(a: Vec3, b: Vec3): Vec3 { Vec3(a.x - b.x, a.y - b.y, a.z - b.z) }
  function Neg(a: Vec3): Vec3 { Vec3(-a.x, -a.y, -a.z) }
  function Zero3(): Vec3 { Vec3(0.0, 0.0, 0.0) }

  /** Component `a` (0, 1 or 2) of a vector, for statements made per axis. */
  function Coord(v: Vec3, a: nat): real
    requires a < 3
  {
    if a == 0 then v.x else if a == 1 then v.y else v.z
  }

  function Vec3ToSeq(v: Vec3): seq<real> { [v.x, v.y, v.z] }

  /** A pose, the 6-float array `(x, y, z, r_x, r_y, r_z)`: a translation
      followed by Euler angles in degrees. */
  datatype Pose = Pose(x: real, y: real, z: real, rx: real, ry: real, rz: real)

  function ZeroPose(): Pose { Pose(0.0, 0.0, 0.0, 0.0, 0.0, 0.0) }

  /** Entry `k` of the array. */
  function Component(p: Pose, k: nat): real
    requires k < 6
  {
    if k == 0 then p.x else if k == 1 then p.y else if k == 2 then p.z
    else if k == 3 then p.rx else if k == 4 then p.ry else p.rz
  }

  /** The array as a sequence, in index order. */
  function PoseSeq(p: Pose): (s: seq<real>)
    ensures |s| == 6
  {
    [p.x, p.y, p.z, p.rx, p.ry, p.rz]
  }

  /** Element-wise `a + b`, as numpy adds two pose arrays. */
  function PoseAdd(a: Pose, b: Pose): Pose
  {
    Pose(a.x + b.x, a.y + b.y, a.z + b.z, a.rx + b.rx, a.ry + b.ry, a.rz + b.rz)
  }

  /** Element-wise `a - b`. */
  function PoseSub(a: Pose, b: Pose): Pose
  {
    Pose(a.x - b.x, a.y - b.y, a.z - b.z, a.rx - b.rx, a.ry - b.ry, a.rz - b.rz)
  }

  /** Element-wise `a / d`. */
  function PoseDiv(a: Pose, d: real): Pose
    requires d != 0.0
  {
    Pose(a.x / d, a.y / d, a.z / d, a.rx / d, a.ry / d, a.rz / d)
  }

  function Translation(p: Pose): Vec3 { Vec3(p.x, p.y, p.z) }
  function Angles(p: Pose): Vec3 { Vec3(p.rx, p.ry, p.rz) }

  /** `numpy.concatenate((t, r))` of a position and three angles. */
  function PoseOf(t: Vec3, r: Vec3): (p: Pose)
    ensures Translation(p) == t && Angles(p) == r
  {
    Pose(t.x, t.y, t.z, r.x, r.y, r.z)
  }
}
