/** The discrete CLEVR builder: like the CLEVR builder, every scene holds the
    ground and one drawn catalogue object, but the object is placed within
    the catalogue's `pose_range` and turned by one of the 64 rotations whose
    three Euler angles are each a multiple of 90 degrees; a render holds one
    scene per rotation, seen by one camera and lit by one light. */
module ClevrDiscrete {
  import opened Common
  import opened OrderedMaps
  import opened Names
  import opened Entities

  /** What `random` supplies for one object: the four catalogue draws and the
      unit parts `u` of the three `numpy.random.uniform` draws. */
  datatype DiscreteDraw = DiscreteDraw(look: CatalogDraw, u: Vec3)

  /** Each unit part lies in `[0, 1)`, as numpy's uniform generator gives. */
  predicate UnitDraw(d: DiscreteDraw)
  {
    0.0 <= d.u.x < 1.0 && 0.0 <= d.u.y < 1.0 && 0.0 <= d.u.z < 1.0
  }

  /** `numpy.random.uniform(lo, hi)` for the unit part `u`. */
  function Uniform(lo: real, hi: real, u: real): real
  {
    lo + (hi - lo) * u
  }

  /** A uniform draw lies in `[lo, hi)` when the range is not empty. */
  lemma UniformRange(lo: real, hi: real, u: real)
    requires lo < hi && 0.0 <= u < 1.0
    ensures lo <= Uniform(lo, hi, u) < hi
  {
    var d := hi - lo;
    FactorSign(d, u);
    FactorSign(d, 1.0 - u);
    assert d * (1.0 - u) == d - d * u;
  }

  /** Every value of `[lo, hi)` is the draw of some unit part. */
  lemma UniformCovers(lo: real, hi: real, t: real)
    requires lo < hi && lo <= t < hi
    ensures var u := (t - lo) / (hi - lo); 0.0 <= u < 1.0 && Uniform(lo, hi, u) == t
  {
    var d := hi - lo;
    var u := (t - lo) / d;
    assert d * u == t - lo;
    assert d * (1.0 - u) == hi - t;
    FactorSign(d, u);
    FactorSign(d, 1.0 - u);
  }

  /** A product with a positive factor has the sign of the other factor. */
  lemma FactorSign(a: real, b: real)
    requires a > 0.0
    ensures a * b > 0.0 <==> b > 0.0
    ensures a * b >= 0.0 <==> b >= 0.0
  {
    if b < 0.0 {
      assert a * -b > 0.0;
    }
  }

  /** `pose_range` holds at least three rows of at least two bounds each, so
      `pose_range[:3, 0]` and `pose_range[:3, 1]` are the lower and upper
      bounds of x, y and z. A rectangular range with fewer rows gives a
      shorter pose, which the six-field `Pose` cannot hold. */
  ghost predicate PoseRangeShaped(c: Catalog)
  {
    c.poseRange.Some? ==>
      |c.poseRange.value| >= 3 && forall i :: 0 <= i < 3 ==> |c.poseRange.value[i]| >= 2
  }

  /** `numpy.random.uniform(pose_range[:3, 0], pose_range[:3, 1])`, one draw
      per axis. */
  function Placement(c: Catalog, u: Vec3): Vec3
    requires c.poseRange.Some? && PoseRangeShaped(c)
  {
    var pr := c.poseRange.value;
    Vec3(Uniform(pr[0][0], pr[0][1], u.x), Uniform(pr[1][0], pr[1][1], u.y), Uniform(pr[2][0], pr[2][1], u.z))
  }

  /** The placement lies within the bounds of each axis whose range is not
      empty. */
  lemma PlacementInRange(c: Catalog, d: DiscreteDraw, a: nat)
    requires c.poseRange.Some? && PoseRangeShaped(c) && UnitDraw(d) && a < 3
    requires c.poseRange.value[a][0] < c.poseRange.value[a][1]
    ensures c.poseRange.value[a][0] <= Coord(Placement(c, d.u), a) < c.poseRange.value[a][1]
  {
    UniformRange(c.poseRange.value[a][0], c.poseRange.value[a][1], Coord(d.u, a));
  }

  /** The error the discrete object draw raises, if any: the catalogue's,
      else `KeyError` for a missing `pose_range`, which is read after the
      four catalogue draws. */
  function DiscreteError(c: Catalog): Option<string>
  {
    if CatalogError(c).Some? then CatalogError(c)
    else if c.poseRange.None? then Some("KeyError: pose_range")
    else None
  }

  /** The catalogue can be drawn from and has a `pose_range`. */
  predicate DiscreteAvailable(c: Catalog)
  {
    DiscreteError(c).None?
  }

  lemma DiscreteAvailableIff(c: Catalog)
    ensures DiscreteAvailable(c) <==> CatalogAvailable(c) && c.poseRange.Some?
  {
  }

  /** `get_object_data`: the drawn catalogue look, named after how many
      objects of that shape the scene holds, placed within `pose_range` and
      turned by the given rotation. */
  function GetObjectData(scene: SceneData, draw: DiscreteDraw, rotation: Vec3): (r: Result<ObjectData>)
    requires scene.objects.Valid() && CatalogValid(scene.properties) && PoseRangeShaped(scene.properties)
    ensures r.Ok? <==> DiscreteAvailable(scene.properties)
    ensures r.Err? ==> Some(r.msg) == DiscreteError(scene.properties)
    ensures r.Ok? ==>
      var look := DrawLook(scene.properties, scene.shapeDir, draw.look).value;
      && r.value.name == ObjectName(look.shapePair.0, scene.objects)
      && r.value.shapePair == look.shapePair && r.value.materialPair == Some(look.materialPair)
      && r.value.colorPair == look.colorPair && r.value.scalePair == look.scalePair
      && Translation(r.value.pose) == Placement(scene.properties, draw.u)
      && Angles(r.value.pose) == rotation
  {
    match DrawLook(scene.properties, scene.shapeDir, draw.look)
    case Err(msg) => Err(msg)
    case Ok(look) =>
      if scene.properties.poseRange.None? then Err("KeyError: pose_range")
      else
        var pose := PoseOf(Placement(scene.properties, draw.u), rotation);
        Ok(ObjectData(ObjectName(look.shapePair.0, scene.objects), look.shapePair, Some(look.materialPair),
                      look.colorPair, look.scalePair, pose))
  }

  /** The one camera, `cam00`, at distance 8 and x-angle 60. */
  function DiscreteCamera(orbit: Orbit): CameraData
  {
    CameraData(PaddedCameraName(0), OrbitPose(8.0, 60.0, 0.0, 0.0, orbit))
  }

  /** The camera is named `cam00` and looks from x-angle 60 at distance 8. */
  lemma DiscreteCameraLayout(orbit: Orbit)
    ensures DiscreteCamera(orbit).name == "cam00"
    ensures Angles(DiscreteCamera(orbit).pose) == Vec3(60.0, 0.0, 0.0)
    ensures Translation(DiscreteCamera(orbit).pose) == orbit(8.0, 60.0, 0.0, 0.0)
  {
    assert Decimal(0) == "0";
    assert Zeros(1) == "0";
  }

  /** The light `light_0` at x-angle 45 and z-angle 45. */
  function DiscreteLight(orbit: Orbit): LightData
  {
    PointLight(45.0, 0.0, 45.0, orbit)
  }

  /** `360 * numpy.arange(4) / 4`, the four angles of each axis. */
  function Groups(): (g: seq<real>)
    ensures |g| == 4
  {
    seq(4, i requires 0 <= i < 4 => 360.0 * (i as real) / 4.0)
  }

  lemma GroupsValues()
    ensures Groups() == [0.0, 90.0, 180.0, 270.0]
  {
  }

  /** `numpy.meshgrid(groups, groups, groups)` stacked and reshaped to rows:
      with numpy's default `xy` indexing, row `n` takes its x-angle from the
      middle digit of `n` in base 4, its y-angle from the high digit and its
      z-angle from the low digit. */
  function Rotations(): (rs: seq<Vec3>)
    ensures |rs| == 64
  {
    var g := Groups();
    seq(64, n requires 0 <= n < 64 => Vec3(g[(n / 4) % 4], g[n / 16], g[n % 4]))
  }

  /** The row of the rotation with angles `Groups()[a]`, `Groups()[b]` and
      `Groups()[c]` about x, y and z. */
  function RotationIndex(a: nat, b: nat, c: nat): nat
  {
    b * 16 + a * 4 + c
  }

  /** The base-4 digits of a row number below 64: high, middle and low. */
  lemma Base4Digits(a: nat, b: nat, c: nat)
    requires a < 4 && b < 4 && c < 4
    ensures var n := RotationIndex(a, b, c);
      n < 64 && n / 16 == b && (n / 4) % 4 == a && n % 4 == c
  {
    var n := RotationIndex(a, b, c);
    assert n == b * 16 + (a * 4 + c) && a * 4 + c < 16;
    assert n / 4 == b * 4 + a;
  }

  /** A row number below 64 is recomposed from its base-4 digits. */
  lemma Base4Recompose(n: nat)
    requires n < 64
    ensures (n / 4) % 4 < 4 && n / 16 < 4 && n % 4 < 4
    ensures n == RotationIndex((n / 4) % 4, n / 16, n % 4)
  {
    assert n / 16 == (n / 4) / 4;
  }

  /** Each combination of three angles is a row of the table. */
  lemma RotationsCover(a: nat, b: nat, c: nat)
    requires a < 4 && b < 4 && c < 4
    ensures RotationIndex(a, b, c) < 64
    ensures Rotations()[RotationIndex(a, b, c)] == Vec3(Groups()[a], Groups()[b], Groups()[c])
  {
    Base4Digits(a, b, c);
  }

  /** The four angles are distinct. */
  lemma GroupsDistinct(i: nat, j: nat)
    requires i < 4 && j < 4 && Groups()[i] == Groups()[j]
    ensures i == j
  {
    GroupsValues();
  }

  /** No combination of angles occurs twice: distinct rows are distinct
      rotations, so each of the 64 combinations occurs exactly once. */
  lemma RotationsDistinct(m: nat, n: nat)
    requires m < 64 && n < 64 && Rotations()[m] == Rotations()[n]
    ensures m == n
  {
    Base4Recompose(m);
    Base4Recompose(n);
    GroupsDistinct((m / 4) % 4, (n / 4) % 4);
    GroupsDistinct(m / 16, n / 16);
    GroupsDistinct(m % 4, n % 4);
  }

  /** Every angle of every rotation is one of the four group angles. */
  lemma RotationsInGroups(n: nat)
    requires n < 64
    ensures Rotations()[n].x in Groups() && Rotations()[n].y in Groups() && Rotations()[n].z in Groups()
  {
  }

  /** The scene `get_scene_data` builds, or the error it raises. */
  function SceneOf(name: string, args: Args, cwd: string, reset: bool, draw: DiscreteDraw, rotation: Vec3,
                   orbit: Orbit): (r: Result<SceneData>)
    requires IsAbsolute(cwd) && CatalogValid(args.properties) && PoseRangeShaped(args.properties)
    ensures r.Ok? <==> DiscreteAvailable(args.properties)
    ensures r.Err? ==> Some(r.msg) == DiscreteError(args.properties)
    ensures r.Ok? ==> r.value.name == name
  {
    var s := SceneFromArgs(name, args, cwd, Some(reset));
    var ground := GroundObject();
    var s1 := s.(objects := s.objects.Set(ground.name, ground));
    match GetObjectData(s1, draw, rotation)
    case Err(msg) => Err(msg)
    case Ok(o) =>
      var camera := DiscreteCamera(orbit);
      Ok(s1.(objects := s1.objects.Set(o.name, o), cameras := s1.cameras.Set(camera.name, camera),
             lights := s1.lights.Set("light_0", DiscreteLight(orbit))))
  }

  /** `get_scene_data`. */
  method GetSceneData(name: string, args: Args, cwd: string, reset: bool, draw: DiscreteDraw, rotation: Vec3,
                      orbit: Orbit)
    returns (r: Result<SceneData>)
    requires IsAbsolute(cwd) && CatalogValid(args.properties) && PoseRangeShaped(args.properties)
    ensures r == SceneOf(name, args, cwd, reset, draw, rotation, orbit)
  {
    var scene := SceneFromArgs(name, args, cwd, Some(reset));
    var ground := GroundObject();
    scene := scene.(objects := scene.objects.Set(ground.name, ground));
    var o := GetObjectData(scene, draw, rotation);
    if o.Err? {
      return Err(o.msg);
    }
    scene := scene.(objects := scene.objects.Set(o.value.name, o.value));
    var camera := DiscreteCamera(orbit);
    scene := scene.(cameras := scene.cameras.Set(camera.name, camera));
    var light := DiscreteLight(orbit);
    scene := scene.(lights := scene.lights.Set(light.name, light));
    return Ok(scene);
  }

  /** A built scene holds exactly the ground and one object `{shape}_0`
      (`{shape}_1` for a shape name that `ground` starts with), placed by the
      uniform draws and turned by the given rotation. */
  lemma SceneObjects(name: string, args: Args, cwd: string, reset: bool, draw: DiscreteDraw, rotation: Vec3,
                     orbit: Orbit)
    requires IsAbsolute(cwd) && CatalogValid(args.properties) && PoseRangeShaped(args.properties)
    ensures var r := SceneOf(name, args, cwd, reset, draw, rotation, orbit);
      r.Ok? ==>
        var shape := args.properties.shapes.value.keys[Pick(args.properties.shapes, draw.look.shape)];
        var key := shape + "_" + (if StartsWith("ground", shape) then "1" else "0");
        && r.value.objects.Valid()
        && r.value.objects.keys == ["ground", key]
        && r.value.objects.values["ground"] == GroundObject()
        && r.value.objects.values[key].shapePair.0 == shape
        && r.value.objects.values[key].pose == PoseOf(Placement(args.properties, draw.u), rotation)
  {
    var s := SceneFromArgs(name, args, cwd, Some(reset));
    var s1 := s.(objects := s.objects.Set("ground", GroundObject()));
    if DiscreteAvailable(args.properties) {
      var shape := args.properties.shapes.value.keys[Pick(args.properties.shapes, draw.look.shape)];
      GroundThenObject(shape, GetObjectData(s1, draw, rotation).value);
    }
  }


  /** A built scene has the given name and reset flag, is seen by the camera
      `cam00` (`DiscreteCameraLayout`) alone and lit by the light `light_0` alone. */
  lemma SceneFixtures(name: string, args: Args, cwd: string, reset: bool, draw: DiscreteDraw, rotation: Vec3,
                      orbit: Orbit)
    requires IsAbsolute(cwd) && CatalogValid(args.properties) && PoseRangeShaped(args.properties)
    ensures var r := SceneOf(name, args, cwd, reset, draw, rotation, orbit);
      r.Ok? ==>
        && r.value.name == name && r.value.resetScene == Some(reset)
        && r.value.cameras.keys == [DiscreteCamera(orbit).name]
        && r.value.cameras.values[DiscreteCamera(orbit).name] == DiscreteCamera(orbit)
        && r.value.lights.keys == ["light_0"] && r.value.lights.values["light_0"] == DiscreteLight(orbit)
  {
  }

  /** Scene `n` of a render: named `f'{n:06d}'`, reset only when it is the
      first, and built with the `n`-th draws and the `n`-th rotation. When
      the object cannot be drawn there is no such scene, and the bare scene
      `from_args` gives stands in for it. */
  function SceneAt(args: Args, cwd: string, draws: seq<DiscreteDraw>, orbit: Orbit, n: nat): (s: SceneData)
    requires IsAbsolute(cwd) && CatalogValid(args.properties) && PoseRangeShaped(args.properties)
    requires n < |draws| == 64
    ensures DiscreteAvailable(args.properties) ==>
      Ok(s) == SceneOf(SceneName(n), args, cwd, n == 0, draws[n], Rotations()[n], orbit)
  {
    match SceneOf(SceneName(n), args, cwd, n == 0, draws[n], Rotations()[n], orbit)
    case Ok(scene) => scene
    case Err(_) => SceneFromArgs(SceneName(n), args, cwd, Some(n == 0))
  }

  /** The 64 scenes of a render, in order. */
  function DiscreteScenes(args: Args, cwd: string, draws: seq<DiscreteDraw>, orbit: Orbit): (t: seq<SceneData>)
    requires IsAbsolute(cwd) && CatalogValid(args.properties) && PoseRangeShaped(args.properties)
    requires |draws| == 64
    ensures |t| == 64
    ensures forall n {:trigger SceneAt(args, cwd, draws, orbit, n)} ::
      0 <= n < 64 ==> t[n] == SceneAt(args, cwd, draws, orbit, n)
  {
    ScenesUpTo(args, cwd, draws, orbit, 64)
  }

  /** The first `k` scenes of a render, in order. */
  function ScenesUpTo(args: Args, cwd: string, draws: seq<DiscreteDraw>, orbit: Orbit, k: nat): (t: seq<SceneData>)
    requires IsAbsolute(cwd) && CatalogValid(args.properties) && PoseRangeShaped(args.properties)
    requires |draws| == 64 && k <= 64
    ensures |t| == k
    ensures forall n {:trigger SceneAt(args, cwd, draws, orbit, n)} ::
      0 <= n < k ==> t[n] == SceneAt(args, cwd, draws, orbit, n)
  {
    if k == 0 then [] else ScenesUpTo(args, cwd, draws, orbit, k - 1) + [SceneAt(args, cwd, draws, orbit, k - 1)]
  }

  /** What `get_render_data` returns: one scene per rotation, keyed by its
      name `f'{n:06d}'`, or the error of the first scene. */
  function RenderOf(name: string, args: Args, cwd: string, draws: seq<DiscreteDraw>, orbit: Orbit)
    : (r: Result<RenderData>)
    requires IsAbsolute(cwd) && CatalogValid(args.properties) && PoseRangeShaped(args.properties)
    requires |draws| == 64
    ensures r.Ok? <==> DiscreteAvailable(args.properties)
    ensures r.Err? ==> Some(r.msg) == DiscreteError(args.properties)
    ensures r.Ok? ==> r.value == RenderFromArgs(name, args, cwd).(scenes := r.value.scenes)
  {
    var render := RenderFromArgs(name, args, cwd);
    if !DiscreteAvailable(args.properties) then Err(DiscreteError(args.properties).value)
    else
      SceneNamesInjective();
      InjectiveIsBelow(SceneName, 64);
      Ok(render.(scenes := Indexed(SceneName, DiscreteScenes(args, cwd, draws, orbit))))
  }

  /** One pass of the `get_render_data` loop: build scene `f'{n:06d}'` with
      the `n`-th rotation and store it under its name, or raise what
      building it raises. */
  method AddScene(scenes: OrderedMap<SceneData>, args: Args, cwd: string, draws: seq<DiscreteDraw>,
                  orbit: Orbit, rotations: seq<Vec3>, n: nat)
    returns (r: Result<OrderedMap<SceneData>>)
    requires IsAbsolute(cwd) && CatalogValid(args.properties) && PoseRangeShaped(args.properties)
    requires n < |draws| == 64 && rotations == Rotations() && Injective(SceneName)
    requires scenes == Indexed(SceneName, ScenesUpTo(args, cwd, draws, orbit, n))
    ensures r.Err? ==> Some(r.msg) == DiscreteError(args.properties)
    ensures r.Ok? ==> DiscreteAvailable(args.properties)
    ensures r.Ok? ==> r.value == Indexed(SceneName, ScenesUpTo(args, cwd, draws, orbit, n + 1))
  {
    var scene := GetSceneData(SceneName(n), args, cwd, n == 0, draws[n], rotations[n], orbit);
    if scene.Err? {
      return Err(scene.msg);
    }
    ghost var prev := ScenesUpTo(args, cwd, draws, orbit, n);
    assert scene.value == SceneAt(args, cwd, draws, orbit, n);
    assert ScenesUpTo(args, cwd, draws, orbit, n + 1) == prev + [scene.value];
    IndexedStep(SceneName, prev, scene.value);
    return Ok(scenes.Set(scene.value.name, scene.value));
  }

  /** The loop of `get_render_data`: for `scene_i, rotation` in
      `enumerate(rotations)`, build scene `f'{scene_i:06d}'`, reset only for
      the first, with that rotation and its own draws, and store it under
      its name; the first scene that cannot be built ends the loop with its
      error. */
  method BuildScenes(scenes0: OrderedMap<SceneData>, args: Args, cwd: string, draws: seq<DiscreteDraw>, orbit: Orbit)
    returns (r: Result<OrderedMap<SceneData>>)
    requires IsAbsolute(cwd) && CatalogValid(args.properties) && PoseRangeShaped(args.properties)
    requires |draws| == 64 && scenes0 == Empty() && Injective(SceneName)
    ensures r.Err? ==> Some(r.msg) == DiscreteError(args.properties)
    ensures r.Ok? ==> DiscreteAvailable(args.properties)
    ensures r.Ok? ==> r.value == Indexed(SceneName, ScenesUpTo(args, cwd, draws, orbit, 64))
  {
    var scenes := scenes0;
    var rotations := Rotations();
    var n := 0;
    while n < |rotations|
      invariant 0 <= n <= 64
      invariant n > 0 ==> DiscreteAvailable(args.properties)
      invariant scenes == Indexed(SceneName, ScenesUpTo(args, cwd, draws, orbit, n))
    {
      var next := AddScene(scenes, args, cwd, draws, orbit, rotations, n);
      if next.Err? {
        return Err(next.msg);
      }
      scenes := next.value;
      n := n + 1;
    }
    return Ok(scenes);
  }

  /** `get_render_data`: the render `from_args` gives, holding the scenes
      the loop builds, or the error of the first scene that fails. */
  method GetRenderData(name: string, args: Args, cwd: string, draws: seq<DiscreteDraw>, orbit: Orbit)
    returns (r: Result<RenderData>)
    requires IsAbsolute(cwd) && CatalogValid(args.properties) && PoseRangeShaped(args.properties)
    requires |draws| == 64
    ensures r == RenderOf(name, args, cwd, draws, orbit)
  {
    var render := RenderFromArgs(name, args, cwd);
    SceneNamesInjective();
    InjectiveIsBelow(SceneName, 64);
    var scenes := BuildScenes(render.scenes, args, cwd, draws, orbit);
    if scenes.Err? {
      return Err(scenes.msg);
    }
    return Ok(render.(scenes := scenes.value));
  }

  /** A render holds exactly 64 scenes, the `n`-th named `f'{n:06d}'`, reset
      exactly when it is the first, and built with the `n`-th rotation and
      its own draws. */
  lemma RenderLayout(name: string, args: Args, cwd: string, draws: seq<DiscreteDraw>, orbit: Orbit)
    requires IsAbsolute(cwd) && CatalogValid(args.properties) && PoseRangeShaped(args.properties)
    requires |draws| == 64
    ensures var r := RenderOf(name, args, cwd, draws, orbit);
      r.Ok? ==>
        && r.value.scenes.Valid() && |r.value.scenes.keys| == 64
        && forall n :: 0 <= n < 64 ==>
             && r.value.scenes.keys[n] == SceneName(n)
             && Ok(r.value.scenes.values[SceneName(n)])
                == SceneOf(SceneName(n), args, cwd, n == 0, draws[n], Rotations()[n], orbit)
  {
    if DiscreteAvailable(args.properties) {
      SceneNamesInjective();
      InjectiveIsBelow(SceneName, 64);
      var t := DiscreteScenes(args, cwd, draws, orbit);
      var m := Indexed(SceneName, t);
      assert RenderOf(name, args, cwd, draws, orbit).value.scenes == m;
      forall n | 0 <= n < 64
        ensures m.keys[n] == SceneName(n)
        ensures Ok(m.values[SceneName(n)]) == SceneOf(SceneName(n), args, cwd, n == 0, draws[n], Rotations()[n], orbit)
      {
        assert t[n] == SceneAt(args, cwd, draws, orbit, n);
      }
    }
  }
}
