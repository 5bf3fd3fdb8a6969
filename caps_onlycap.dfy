/** The cap-on-bottle trajectory builder: a ground plane, a `swell_cap` and
    a `swell_bottle` at random places, an 18-camera ring and one light; then
    `3 * num_scenes` scenes in which the cap rises to a hover goal above the
    bottle, descends onto it, and is screwed down in 10-degree turns. */
module CapsOnlyCap {
  import opened Common
  import opened OrderedMaps
  import opened Names
  import opened Entities

  const CapShape := "swell_cap"
  const BottleShape := "swell_bottle"
  /** Keys of the one cap and the one bottle of every scene. */
  const CapKey := "swell_cap_0"
  const BottleKey := "swell_bottle_0"
  /** Height of the bottle mesh; resting heights are three quarters of it
      (bottle) and of the cap height. */
  const BottleHeight := 1.3085
  const CapHeight := 0.2796

  /** `Euler((0, 0, -10 deg)).rotate(Euler(angles))` read back in degrees:
      the cap's angles after one more screw turn. */
  type ScrewTurn = Vec3 -> Vec3

  /** What `random` supplies for one object: the colour index drawn by
      `random.choice` and the two `random.uniform(-2.0, 2.0)` draws. */
  datatype ObjectDraw = ObjectDraw(color: nat, x: real, y: real)

  /** The draws of a whole render: one per object and the hover factor drawn
      by `random.uniform(1.1, 1.5)`. */
  datatype CapDraws = CapDraws(cap: ObjectDraw, bottle: ObjectDraw, lift: real)

  ghost predicate ObjectDrawInRange(d: ObjectDraw, colors: Option<OrderedMap<seq<int>>>)
  {
    && -2.0 <= d.x <= 2.0 && -2.0 <= d.y <= 2.0
    && (colors.Some? && |colors.value.keys| > 0 ==> d.color < |colors.value.keys|)
  }

  ghost predicate DrawsInRange(d: CapDraws, colors: Option<OrderedMap<seq<int>>>)
  {
    ObjectDrawInRange(d.cap, colors) && ObjectDrawInRange(d.bottle, colors) && 1.1 <= d.lift <= 1.5
  }

  /** Resting height of an object's origin. */
  function RestHeight(shape: string): real
  {
    if shape == BottleShape then BottleHeight * 0.75 else CapHeight * 0.75
  }

  /** `get_object_data`: a randomly coloured, scaled-down, upright object at
      `(x, y)` and its resting height, named after how many objects of the
      same shape the scene already holds. */
  function GetObjectData(shape: string, scene: SceneData, draw: ObjectDraw): (r: Result<ObjectData>)
    requires scene.objects.Valid()
    requires scene.properties.colors.Some? ==> scene.properties.colors.value.Valid()
    requires ObjectDrawInRange(draw, scene.properties.colors)
    ensures r.Ok? <==> scene.properties.colors.Some? && |scene.properties.colors.value.keys| > 0
    ensures r.Ok? ==>
      var colors := scene.properties.colors.value;
      && r.value.name == ObjectName(shape, scene.objects)
      && r.value.shapePair == (shape, ShapeValue(scene.shapeDir, shape))
      && r.value.materialPair == None
      && r.value.scalePair == ("scale_down", [0.15, 0.15, 0.15])
      && r.value.colorPair == ColorPair(colors.keys[draw.color], colors.values[colors.keys[draw.color]])
      && Translation(r.value.pose) == Vec3(draw.x, draw.y, RestHeight(shape))
      && Angles(r.value.pose) == Zero3()
  {
    match Choose(scene.properties.colors, "colors", draw.color)
    case Err(msg) => Err(msg)
    case Ok(entry) =>
      Ok(ObjectData(ObjectName(shape, scene.objects), (shape, ShapeValue(scene.shapeDir, shape)), None,
                    ColorPair(entry.0, entry.1), ("scale_down", [0.15, 0.15, 0.15]),
                    PoseOf(Vec3(draw.x, draw.y, RestHeight(shape)), Zero3())))
  }

  /** `numpy.linspace(60, 0, 3)`, the ring's x-angles. */
  function RingXs(): (s: seq<real>)
    ensures |s| == 3
  {
    Linspace(60.0, 0.0, 3)
  }


  /** The camera ring: x-angles 60, 30, 0 (outer) by z-angles 0, 60, ...,
      300 (inner), at distance 10, named `cam00` ... `cam17`. */
  function CapCameras(orbit: Orbit): OrderedMap<CameraData>
  {
    PaddedCameraNameInjective();
    CameraGrid(RingXs(), GridAzimuths(), 10.0, PaddedCameraName, orbit)
  }

  /** The first cap of a scene holding only the ground is `swell_cap_0`. */
  lemma CapNamedFirst(objects: OrderedMap<ObjectData>)
    requires objects.Valid() && ObjectNames(objects) == ["ground"]
    ensures ObjectName(CapShape, objects) == CapKey
  {
    CountPrefixedNone(["ground"], CapShape);
    assert Decimal(0) == "0";
  }

  /** The first bottle after the ground and the cap is `swell_bottle_0`. */
  lemma BottleNamedFirst(objects: OrderedMap<ObjectData>)
    requires objects.Valid() && ObjectNames(objects) == ["ground", CapKey]
    ensures ObjectName(BottleShape, objects) == BottleKey
  {
    CountPrefixedNone(["ground", CapKey], BottleShape);
    assert Decimal(0) == "0";
  }

  /** The ground, the cap and the bottle added in turn to the empty scene
      `s`: the objects are keyed `ground`, `swell_cap_0`, `swell_bottle_0`,
      in that order, the cap and the bottle at their drawn places and
      resting heights, and nothing else changes. Placing fails exactly when
      there is no colour to draw. */
  function PlaceObjects(s: SceneData, capDraw: ObjectDraw, bottleDraw: ObjectDraw): (r: Result<SceneData>)
    requires s.objects == Empty() && CatalogValid(s.properties)
    requires ObjectDrawInRange(capDraw, s.properties.colors) && ObjectDrawInRange(bottleDraw, s.properties.colors)
    ensures r.Ok? <==> s.properties.colors.Some? && |s.properties.colors.value.keys| > 0
    ensures r.Ok? ==>
      && r.value == s.(objects := r.value.objects)
      && r.value.objects.Valid()
      && r.value.objects.keys == ["ground", CapKey, BottleKey]
      && Translation(r.value.objects.values[CapKey].pose) == Vec3(capDraw.x, capDraw.y, CapHeight * 0.75)
      && Angles(r.value.objects.values[CapKey].pose) == Zero3()
      && Translation(r.value.objects.values[BottleKey].pose) == Vec3(bottleDraw.x, bottleDraw.y, BottleHeight * 0.75)
  {
    var ground := GroundObject();
    var s1 := s.(objects := s.objects.Set(ground.name, ground));
    ObjectNamesAdd(s.objects, ground.name, ground);
    CapNamedFirst(s1.objects);
    match GetObjectData(CapShape, s1, capDraw)
    case Err(msg) => Err(msg)
    case Ok(cap) =>
      var s2 := s1.(objects := s1.objects.Set(cap.name, cap));
      ObjectNamesAdd(s1.objects, cap.name, cap);
      BottleNamedFirst(s2.objects);
      match GetObjectData(BottleShape, s2, bottleDraw)
      case Err(msg) => Err(msg)
      case Ok(bottle) => Ok(s2.(objects := s2.objects.Set(bottle.name, bottle)))
  }

  /** The ring's x-angles are 60, 30 and 0 degrees. */
  lemma RingAngles()
    ensures RingXs() == [60.0, 30.0, 0.0]
  {
  }

  /** Camera `k` of the ring is `cam{k:02d}` and looks from x-angle
      `RingXs()[k // 6]` and z-angle `GridAzimuths()[k % 6]`. */
  lemma CapCameraAt(orbit: Orbit, k: nat)
    requires k < 18
    ensures k < |CapCameras(orbit).keys|
    ensures CapCameras(orbit).keys[k] == PaddedCameraName(k)
    ensures CapCameras(orbit).values[PaddedCameraName(k)].pose
         == OrbitPose(10.0, RingXs()[k / 6], 0.0, GridAzimuths()[k % 6], orbit)
  {
    var i, j, w := k / 6, k % 6, |GridAzimuths()|;
    assert k == i * w + j by { assert w == 6; }
    PaddedCameraNameInjective();
    CameraGridAt(RingXs(), GridAzimuths(), 10.0, PaddedCameraName, orbit, i, j, k);
  }

  /** The ring holds `3 * 6` cameras. */
  lemma CapCamerasCount(orbit: Orbit)
    ensures CapCameras(orbit).Valid() && |CapCameras(orbit).keys| == 18
  {
    var rows, cols := |RingXs()|, |GridAzimuths()|;
    GridAnglesLength(RingXs(), GridAzimuths());
    assert rows * cols == 18 by { assert rows == 3 && cols == 6; }
  }

  /** The camera ring has 18 cameras `cam00` ... `cam17`, camera `k` looking
      from x-angle `60 - 30 (k // 6)` and z-angle `60 (k % 6)`. */
  lemma CapCamerasLayout(orbit: Orbit)
    ensures CapCameras(orbit).Valid() && |CapCameras(orbit).keys| == 18
    ensures forall k :: 0 <= k < 18 ==>
      && CapCameras(orbit).keys[k] == PaddedCameraName(k)
      && CapCameras(orbit).values[PaddedCameraName(k)].pose
           == OrbitPose(10.0, RingXs()[k / 6], 0.0, GridAzimuths()[k % 6], orbit)
  {
    CapCamerasCount(orbit);
    forall k | 0 <= k < 18
      ensures CapCameras(orbit).keys[k] == PaddedCameraName(k)
      ensures CapCameras(orbit).values[PaddedCameraName(k)].pose
           == OrbitPose(10.0, RingXs()[k / 6], 0.0, GridAzimuths()[k % 6], orbit)
    {
      CapCameraAt(orbit, k);
    }
  }

  /** The scene `get_scene_data` builds, or the error it raises. */
  function SceneOf(name: string, args: Args, cwd: string, reset: bool,
                   capDraw: ObjectDraw, bottleDraw: ObjectDraw, orbit: Orbit): Result<SceneData>
    requires IsAbsolute(cwd) && CatalogValid(args.properties)
    requires ObjectDrawInRange(capDraw, args.properties.colors) && ObjectDrawInRange(bottleDraw, args.properties.colors)
  {
    match PlaceObjects(SceneFromArgs(name, args, cwd, Some(reset)), capDraw, bottleDraw)
    case Err(msg) => Err(msg)
    case Ok(s) =>
      Ok(s.(cameras := CapCameras(orbit), lights := s.lights.Set("light_0", PointLight(45.0, 0.0, 45.0, orbit))))
  }

  /** `get_scene_data`. */
  method GetSceneData(name: string, args: Args, cwd: string, reset: bool,
                      capDraw: ObjectDraw, bottleDraw: ObjectDraw, orbit: Orbit)
    returns (r: Result<SceneData>)
    requires IsAbsolute(cwd) && CatalogValid(args.properties)
    requires ObjectDrawInRange(capDraw, args.properties.colors) && ObjectDrawInRange(bottleDraw, args.properties.colors)
    ensures r == SceneOf(name, args, cwd, reset, capDraw, bottleDraw, orbit)
  {
    var scene := SceneFromArgs(name, args, cwd, Some(reset));
    ghost var base := scene;
    var ground := GroundObject();
    scene := scene.(objects := scene.objects.Set(ground.name, ground));
    var cap := GetObjectData(CapShape, scene, capDraw);
    if cap.Err? {
      return Err(cap.msg);
    }
    scene := scene.(objects := scene.objects.Set(cap.value.name, cap.value));
    // The bottle draws from the colours the cap already drew from.
    var bottle := GetObjectData(BottleShape, scene, bottleDraw);
    assert bottle.Ok?;
    scene := scene.(objects := scene.objects.Set(bottle.value.name, bottle.value));
    assert PlaceObjects(base, capDraw, bottleDraw) == Ok(scene);
    PaddedCameraNameInjective();
    var cameras := FillCameraGrid(RingXs(), GridAzimuths(), 10.0, PaddedCameraName, orbit);
    scene := scene.(cameras := cameras);
    var light := PointLight(45.0, 0.0, 45.0, orbit);
    scene := scene.(lights := scene.lights.Set(light.name, light));
    return Ok(scene);
  }

  /** A built scene holds exactly the ground, the cap and the bottle, in that
      order, each at its drawn place; 18 cameras `cam00` ... `cam17`; and
      the light `light_0` at x-angle 45 and z-angle 45. It fails exactly when there is no colour to draw. */
  lemma SceneLayout(name: string, args: Args, cwd: string, reset: bool,
                    capDraw: ObjectDraw, bottleDraw: ObjectDraw, orbit: Orbit)
    requires IsAbsolute(cwd) && CatalogValid(args.properties)
    requires ObjectDrawInRange(capDraw, args.properties.colors) && ObjectDrawInRange(bottleDraw, args.properties.colors)
    ensures var r := SceneOf(name, args, cwd, reset, capDraw, bottleDraw, orbit);
      r.Ok? <==> args.properties.colors.Some? && |args.properties.colors.value.keys| > 0
    ensures var r := SceneOf(name, args, cwd, reset, capDraw, bottleDraw, orbit);
      r.Ok? ==>
        && r.value.name == name && r.value.resetScene == Some(reset)
        && r.value.objects.Valid()
        && r.value.objects.keys == ["ground", CapKey, BottleKey]
        && Translation(r.value.objects.values[CapKey].pose) == Vec3(capDraw.x, capDraw.y, CapHeight * 0.75)
        && Angles(r.value.objects.values[CapKey].pose) == Zero3()
        && Translation(r.value.objects.values[BottleKey].pose) == Vec3(bottleDraw.x, bottleDraw.y, BottleHeight * 0.75)
        && r.value.objects.values["ground"] == GroundObject()
        && r.value.cameras == CapCameras(orbit)
        && r.value.lights.keys == ["light_0"]
        && r.value.lights.values["light_0"] == PointLight(45.0, 0.0, 45.0, orbit)
  {
  }

  /** The two cap goals: hovering `lift` times 1.5 bottle heights above the
      bottle, then seated at 1.5 bottle heights; both upright. */
  function Goals(bottle: Pose, lift: real): (g: (Pose, Pose))
    ensures Translation(g.0) == Vec3(bottle.x, bottle.y, BottleHeight * 1.5 * lift)
    ensures Translation(g.1) == Vec3(bottle.x, bottle.y, BottleHeight * 1.5)
    ensures Angles(g.0) == Zero3() && Angles(g.1) == Zero3()
  {
    (PoseOf(Vec3(bottle.x, bottle.y, BottleHeight * 1.5 * lift), Zero3()),
     PoseOf(Vec3(bottle.x, bottle.y, BottleHeight * 1.5), Zero3()))
  }

  /** With any drawn lift the hover goal lies strictly above the seat goal. */
  lemma HoverAboveSeat(bottle: Pose, lift: real)
    requires 1.1 <= lift
    ensures Goals(bottle, lift).0.z > Goals(bottle, lift).1.z
  {
  }

  /** One approach step: move by the remaining difference divided by the
      number of steps left, `d`. */
  function Approach(p: Pose, g: Pose, d: nat): Pose
    requires d >= 1
  {
    PoseAdd(p, PoseDiv(PoseSub(g, p), d as real))
  }

  /** An approach step with `d` steps left leaves `(d - 1) / d` of the gap. */
  lemma ApproachShrinks(p: Pose, g: Pose, d: nat, k: nat)
    requires d >= 1 && k < 6
    ensures d as real * (Component(g, k) - Component(Approach(p, g, d), k))
         == (d - 1) as real * (Component(g, k) - Component(p, k))
  {
    var e := Component(g, k) - Component(p, k);
    assert d as real * (e / d as real) == e;
    assert Component(g, k) - Component(Approach(p, g, d), k) == e - e / d as real;
  }

  /** One screw turn: the angles turn by `screw` and the cap sinks 0.01. */
  function ScrewStep(p: Pose, screw: ScrewTurn): (r: Pose)
    ensures Translation(r) == Vec3(p.x, p.y, p.z - 0.01)
    ensures Angles(r) == screw(Angles(p))
  {
    PoseOf(Vec3(p.x, p.y, p.z - 0.01), screw(Angles(p)))
  }

  /** Cap pose of scene `i` of a render of `n` scenes per stage, starting at
      `p0`. Stage `i // n` is 0 (towards the hover goal), 1 (down to the
      seat) or 2 (screwing); `n - i % n` steps remain in stages 0 and 1. */
  function CapPose(n: nat, p0: Pose, goals: (Pose, Pose), screw: ScrewTurn, i: nat): Pose
    decreases i
  {
    if i == 0 then p0
    else
      var prev := CapPose(n, p0, goals, screw, i - 1);
      if i < n then Approach(prev, goals.0, n - i)
      else if i < 2 * n then Approach(prev, goals.1, 2 * n - i)
      else ScrewStep(prev, screw)
  }

  /** `stage = i // num_scenes` and the divisor `num_scenes - i % num_scenes`
      of step `i`: stage 0 below `n`, stage 1 below `2 n`, stage 2 after,
      and the divisor is the number of steps left in the stage. */
  method StageOf(i: nat, n: nat) returns (stage: nat, left: int)
    requires 0 < n && i < 3 * n
    ensures stage < 3
    ensures stage == 0 <==> i < n
    ensures stage == 1 <==> n <= i < 2 * n
    ensures i < n ==> left == n - i
    ensures n <= i < 2 * n ==> left == 2 * n - i
  {
    stage := i / n;
    left := n - i % n;
    if i < n {
      QuotientOf(i, n, 0);
    } else if i < 2 * n {
      QuotientOf(i, n, 1);
    } else {
      QuotientOf(i, n, 2);
    }
  }

  /** `i` lies in block `q` of width `n` exactly when `i // n == q`, and then
      `i % n` is its offset in the block. */
  lemma QuotientOf(i: nat, n: nat, q: nat)
    requires 0 < n && q * n <= i < q * n + n
    ensures i / n == q && i % n == i - q * n
  {
    var q', r' := i / n, i % n;
    assert (q' - q) * n == (i - q * n) - r';
    ZeroFactor(q' - q, n);
  }

  /** A multiple of `n` strictly between `-n` and `n` is zero. */
  lemma ZeroFactor(a: int, n: int)
    requires n > 0 && -n < a * n < n
    ensures a == 0
  {
  }

  /** The last step of stage 0 lands exactly on the hover goal. */
  lemma CapReachesHover(n: nat, p0: Pose, goals: (Pose, Pose), screw: ScrewTurn)
    requires n >= 2
    ensures CapPose(n, p0, goals, screw, n - 1) == goals.0
  {
    var prev := CapPose(n, p0, goals, screw, n - 2);
    assert CapPose(n, p0, goals, screw, n - 1) == Approach(prev, goals.0, 1);
    forall k | 0 <= k < 6 ensures Component(Approach(prev, goals.0, 1), k) == Component(goals.0, k) {
      ApproachShrinks(prev, goals.0, 1, k);
    }
  }

  /** The last step of stage 1 lands exactly on the seat goal. */
  lemma CapReachesSeat(n: nat, p0: Pose, goals: (Pose, Pose), screw: ScrewTurn)
    requires n >= 1
    ensures CapPose(n, p0, goals, screw, 2 * n - 1) == goals.1
  {
    var prev := CapPose(n, p0, goals, screw, 2 * n - 2);
    assert CapPose(n, p0, goals, screw, 2 * n - 1) == Approach(prev, goals.1, 1);
    forall k | 0 <= k < 6 ensures Component(Approach(prev, goals.1, 1), k) == Component(goals.1, k) {
      ApproachShrinks(prev, goals.1, 1, k);
    }
  }

  /** While it travels, an upright cap stays upright. */
  lemma {:induction false} CapStaysUpright(n: nat, p0: Pose, goals: (Pose, Pose), screw: ScrewTurn, i: nat)
    requires Angles(p0) == Zero3() && Angles(goals.0) == Zero3() && Angles(goals.1) == Zero3()
    requires i < 2 * n
    ensures Angles(CapPose(n, p0, goals, screw, i)) == Zero3()
    decreases i
  {
    if i > 0 {
      var prev := CapPose(n, p0, goals, screw, i - 1);
      var goal := if i < n then goals.0 else goals.1;
      var d := if i < n then n - i else 2 * n - i;
      CapStaysUpright(n, p0, goals, screw, i - 1);
      ApproachKeeps(prev, goal, d, 3);
      ApproachKeeps(prev, goal, d, 4);
      ApproachKeeps(prev, goal, d, 5);
    }
  }

  /** An approach step leaves a coordinate that is already on target there. */
  lemma ApproachKeeps(p: Pose, g: Pose, d: nat, k: nat)
    requires d >= 1 && k < 6 && Component(p, k) == Component(g, k)
    ensures Component(Approach(p, g, d), k) == Component(g, k)
  {
    ApproachShrinks(p, g, d, k);
  }

  /** From the hover goal on, the cap stays centred over the goals' `(x, y)`. */
  lemma {:induction false} CapCentred(n: nat, p0: Pose, goals: (Pose, Pose), screw: ScrewTurn, i: nat)
    requires 2 <= n && n - 1 <= i
    requires goals.0.x == goals.1.x && goals.0.y == goals.1.y
    ensures CapPose(n, p0, goals, screw, i).x == goals.1.x
    ensures CapPose(n, p0, goals, screw, i).y == goals.1.y
    decreases i
  {
    if i == n - 1 {
      CapReachesHover(n, p0, goals, screw);
    } else {
      var prev := CapPose(n, p0, goals, screw, i - 1);
      CapCentred(n, p0, goals, screw, i - 1);
      if i < 2 * n {
        ApproachKeeps(prev, goals.1, 2 * n - i, 0);
        ApproachKeeps(prev, goals.1, 2 * n - i, 1);
      }
    }
  }

  /** Each screw turn lowers the cap by exactly 0.01 below the seat. */
  lemma {:induction false} ScrewDescent(n: nat, p0: Pose, goals: (Pose, Pose), screw: ScrewTurn, j: nat)
    requires 1 <= n
    ensures CapPose(n, p0, goals, screw, 2 * n - 1 + j).z == goals.1.z - 0.01 * j as real
    decreases j
  {
    if j == 0 {
      CapReachesSeat(n, p0, goals, screw);
    } else {
      ScrewDescent(n, p0, goals, screw, j - 1);
    }
  }

  /** Scene `i` of the trajectory: scene 0 renamed, flagged for reset only
      when `i == 0`, with the cap moved to `pose`. */
  function StepScene(s0: SceneData, i: nat, pose: Pose): (s: SceneData)
    requires CapKey in s0.objects.values
    ensures s.name == SceneName(i) && s.resetScene == Some(i == 0)
    ensures s.cameras == s0.cameras && s.lights == s0.lights && s.properties == s0.properties
    ensures s.objects.keys == s0.objects.keys
    ensures s.objects.values.Keys == s0.objects.values.Keys
    ensures s.objects.values[CapKey] == s0.objects.values[CapKey].(pose := pose)
    ensures forall key :: key in s0.objects.values && key != CapKey ==> s.objects.values[key] == s0.objects.values[key]
  {
    s0.(name := SceneName(i), resetScene := Some(i == 0),
        objects := s0.objects.Set(CapKey, s0.objects.values[CapKey].(pose := pose)))
  }

  /** Scene 0 of the trajectory is the scene built first. */
  lemma StepSceneFirst(s0: SceneData)
    requires CapKey in s0.objects.values
    requires s0.name == SceneName(0) && s0.resetScene == Some(true)
    ensures StepScene(s0, 0, s0.objects.values[CapKey].pose) == s0
  {
    SetSame(s0.objects, CapKey);
    assert s0.objects.values[CapKey].(pose := s0.objects.values[CapKey].pose) == s0.objects.values[CapKey];
  }

  /** The first `count` scenes of the trajectory. */
  function Trajectory(s0: SceneData, goals: (Pose, Pose), n: nat, screw: ScrewTurn, count: nat): (t: seq<SceneData>)
    requires CapKey in s0.objects.values
    ensures |t| == count
    ensures forall i :: 0 <= i < count ==>
      t[i] == StepScene(s0, i, CapPose(n, s0.objects.values[CapKey].pose, goals, screw, i))
  {
    seq(count, i requires 0 <= i < count =>
      StepScene(s0, i, CapPose(n, s0.objects.values[CapKey].pose, goals, screw, i)))
  }

  /** What `get_render_data` returns: no scene when `num_scenes` is 0,
      otherwise the `3 * num_scenes` trajectory scenes keyed by their names. */
  function RenderOf(name: string, args: Args, cwd: string, draws: CapDraws, orbit: Orbit, screw: ScrewTurn): Result<RenderData>
    requires IsAbsolute(cwd) && CatalogValid(args.properties)
    requires DrawsInRange(draws, args.properties.colors)
  {
    var render := RenderFromArgs(name, args, cwd);
    var n := args.numScenes;
    if n == 0 then Ok(render)
    else
      match SceneOf(SceneName(0), args, cwd, true, draws.cap, draws.bottle, orbit)
      case Err(msg) => Err(msg)
      case Ok(s0) =>
        SceneLayout(SceneName(0), args, cwd, true, draws.cap, draws.bottle, orbit);
        SceneNamesInjective();
        InjectiveIsBelow(SceneName, 3 * n);
        var goals := Goals(s0.objects.values[BottleKey].pose, draws.lift);
        Ok(render.(scenes := Indexed(SceneName, Trajectory(s0, goals, n, screw, 3 * n))))
  }

  /** One iteration of the `get_render_data` loop after the first: rename
      the previous scene, flag it for no reset, and move the cap one step
      towards the current goal or one screw turn down. */
  method NextScene(scene: SceneData, ghost s0: SceneData, goals: (Pose, Pose), n: nat, screw: ScrewTurn, i: nat)
    returns (next: SceneData)
    requires CapKey in s0.objects.values && 1 <= i < 3 * n
    requires scene == StepScene(s0, i - 1, CapPose(n, s0.objects.values[CapKey].pose, goals, screw, i - 1))
    ensures next == StepScene(s0, i, CapPose(n, s0.objects.values[CapKey].pose, goals, screw, i))
  {
    var stage, left := StageOf(i, n);
    var cap := scene.objects.values[CapKey];
    var pose;
    if stage < 2 {
      var goal := if stage == 0 then goals.0 else goals.1;
      var diff := PoseSub(goal, cap.pose);
      pose := PoseAdd(cap.pose, PoseDiv(diff, left as real));
      assert pose == Approach(cap.pose, goal, left);
    } else {
      pose := PoseOf(Vec3(cap.pose.x, cap.pose.y, cap.pose.z - 0.01), screw(Angles(cap.pose)));
    }
    assert pose == CapPose(n, s0.objects.values[CapKey].pose, goals, screw, i);
    SetSet(s0.objects, CapKey, s0.objects.values[CapKey].(pose := cap.pose), cap.(pose := pose));
    next := scene.(name := SceneName(i), resetScene := Some(false));
    next := next.(objects := next.objects.Set(CapKey, cap.(pose := pose)));
  }

  /** The trajectory starts with the scene built first. */
  lemma TrajectoryFirst(s0: SceneData, goals: (Pose, Pose), n: nat, screw: ScrewTurn, count: nat)
    requires CapKey in s0.objects.values && 1 <= count
    requires s0.name == SceneName(0) && s0.resetScene == Some(true)
    ensures Trajectory(s0, goals, n, screw, count)[..1] == [s0]
  {
    StepSceneFirst(s0);
    assert Trajectory(s0, goals, n, screw, count)[..1] == [s0];
  }

  /** One pass of the `get_render_data` loop body for `i >= 1`: the next
      scene is derived from the previous one and stored under its name, so
      the dictionary of the first `i` trajectory scenes becomes that of the
      first `i + 1`. */
  method AddNextScene(scenes: OrderedMap<SceneData>, scene: SceneData, ghost t: seq<SceneData>,
                      s0: SceneData, goals: (Pose, Pose), n: nat, screw: ScrewTurn, i: nat)
    returns (scenes': OrderedMap<SceneData>, next: SceneData)
    requires CapKey in s0.objects.values && Injective(SceneName)
    requires t == Trajectory(s0, goals, n, screw, 3 * n) && 1 <= i < 3 * n
    requires scenes == Indexed(SceneName, t[..i]) && scene == t[i - 1]
    ensures scenes' == Indexed(SceneName, t[..i + 1]) && next == t[i]
  {
    IndexedSnoc(SceneName, t, i);
    next := NextScene(scene, s0, goals, n, screw, i);
    scenes' := scenes.Set(next.name, next);
  }

  /** The `get_render_data` loop from `i = 1` on: each scene derived from
      the one before is added under its name, so the dictionary holding scene
      0 grows into the whole trajectory of `3 n` scenes. */
  method FillTrajectory(scenes0: OrderedMap<SceneData>, s0: SceneData, goals: (Pose, Pose), n: nat, screw: ScrewTurn)
    returns (scenes: OrderedMap<SceneData>)
    requires 0 < n && CapKey in s0.objects.values && Injective(SceneName)
    requires s0.name == SceneName(0) && s0.resetScene == Some(true)
    requires scenes0 == Indexed(SceneName, [s0])
    ensures scenes == Indexed(SceneName, Trajectory(s0, goals, n, screw, 3 * n))
  {
    ghost var t := Trajectory(s0, goals, n, screw, 3 * n);
    TrajectoryFirst(s0, goals, n, screw, 3 * n);
    scenes := scenes0;
    var scene := s0;
    var i := 1;
    while i < 3 * n
      invariant 1 <= i <= 3 * n
      invariant scenes == Indexed(SceneName, t[..i]) && scene == t[i - 1]
    {
      scenes, scene := AddNextScene(scenes, scene, t, s0, goals, n, screw, i);
      i := i + 1;
    }
    InjectiveIsBelow(SceneName, i);
    IndexedWhole(SceneName, t, i);
  }

  /** `get_render_data`. Its first iteration, which builds scene 0 and
      draws the goals, is written before the loop. */
  method GetRenderData(name: string, args: Args, cwd: string, draws: CapDraws, orbit: Orbit, screw: ScrewTurn)
    returns (r: Result<RenderData>)
    requires IsAbsolute(cwd) && CatalogValid(args.properties)
    requires DrawsInRange(draws, args.properties.colors)
    ensures r == RenderOf(name, args, cwd, draws, orbit, screw)
  {
    var render := RenderFromArgs(name, args, cwd);
    var n := args.numScenes;
    if n == 0 {
      return Ok(render);
    }
    var first := GetSceneData(SceneName(0), args, cwd, true, draws.cap, draws.bottle, orbit);
    if first.Err? {
      return Err(first.msg);
    }
    var scene := first.value;
    SceneLayout(SceneName(0), args, cwd, true, draws.cap, draws.bottle, orbit);
    StepSceneFirst(scene);
    var goals := Goals(scene.objects.values[BottleKey].pose, draws.lift);
    SceneNamesInjective();
    InjectiveIsBelow(SceneName, 1);
    IndexedStep(SceneName, [], scene);
    var scenes := render.scenes.Set(scene.name, scene);
    scenes := FillTrajectory(scenes, scene, goals, n, screw);
    RenderScenes(name, args, cwd, draws, orbit, screw, scene);
    return Ok(render.(scenes := scenes));
  }

  /** Scene `i` of the trajectory dictionary is keyed `f'{i:06d}'` and is
      scene 0 with only the cap moved, renamed and flagged for reset iff
      `i == 0`. */
  lemma TrajectoryAt(s0: SceneData, goals: (Pose, Pose), n: nat, screw: ScrewTurn, count: nat, i: nat)
    requires CapKey in s0.objects.values && i < count
    ensures Injective(SceneName)
    ensures var m := Indexed(SceneName, Trajectory(s0, goals, n, screw, count));
      && m.Valid() && |m.keys| == count
      && m.keys[i] == SceneName(i)
      && m.values[SceneName(i)] == StepScene(s0, i, CapPose(n, s0.objects.values[CapKey].pose, goals, screw, i))
  {
    SceneNamesInjective();
    InjectiveIsBelow(SceneName, count);
  }

  /** A render of at least one scene per stage is the render copied from
      the arguments holding the trajectory dictionary started from the scene
      built first. */
  lemma RenderScenes(name: string, args: Args, cwd: string, draws: CapDraws, orbit: Orbit, screw: ScrewTurn,
                      first: SceneData)
    requires IsAbsolute(cwd) && CatalogValid(args.properties)
    requires DrawsInRange(draws, args.properties.colors)
    requires args.numScenes > 0
    requires SceneOf(SceneName(0), args, cwd, true, draws.cap, draws.bottle, orbit) == Ok(first)
    requires CapKey in first.objects.values && BottleKey in first.objects.values
    ensures Injective(SceneName)
    ensures RenderOf(name, args, cwd, draws, orbit, screw)
         == Ok(RenderFromArgs(name, args, cwd).(scenes :=
               Indexed(SceneName, Trajectory(first, Goals(first.objects.values[BottleKey].pose, draws.lift),
                                             args.numScenes, screw, 3 * args.numScenes))))
  {
    SceneNamesInjective();
  }

  /** Scene `i` of a render is named `f'{i:06d}'`, only scene 0 asks for a
      reset, only the cap moves, and cameras and lights never change. */
  lemma TrajectoryScenes(name: string, args: Args, cwd: string, draws: CapDraws, orbit: Orbit, screw: ScrewTurn, i: nat)
    requires IsAbsolute(cwd) && CatalogValid(args.properties)
    requires DrawsInRange(draws, args.properties.colors)
    requires RenderOf(name, args, cwd, draws, orbit, screw).Ok?
    requires i < 3 * args.numScenes
    ensures var scenes := RenderOf(name, args, cwd, draws, orbit, screw).value.scenes;
      && scenes.Valid() && |scenes.keys| == 3 * args.numScenes
      && scenes.keys[0] == SceneName(0) && scenes.keys[i] == SceneName(i)
      && var s := scenes.values[SceneName(i)];
         var s0 := scenes.values[SceneName(0)];
         && s.name == SceneName(i)
         && s.resetScene == Some(i == 0)
         && s.cameras == s0.cameras && s.lights == s0.lights
         && s.objects.keys == s0.objects.keys
         && (forall key :: key in s0.objects.values && key != CapKey ==> s.objects.values[key] == s0.objects.values[key])
  {
    SceneLayout(SceneName(0), args, cwd, true, draws.cap, draws.bottle, orbit);
    var first := SceneOf(SceneName(0), args, cwd, true, draws.cap, draws.bottle, orbit).value;
    RenderScenes(name, args, cwd, draws, orbit, screw, first);
    var goals := Goals(first.objects.values[BottleKey].pose, draws.lift);
    TrajectoryAt(first, goals, args.numScenes, screw, 3 * args.numScenes, 0);
    TrajectoryAt(first, goals, args.numScenes, screw, 3 * args.numScenes, i);
  }
}
