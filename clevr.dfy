/** The CLEVR-style builder: every scene holds the ground and one randomly
    drawn catalogue object lying flat at a random place and heading, seen by
    an 18-camera grid and lit by one point light; a render holds
    `num_scenes` independent scenes numbered from `start_idx`. */
module Clevr {
  import opened Common
  import opened OrderedMaps
  import opened Names
  import opened Entities

  /** What `random` supplies for one object: the four catalogue indices, the
      two `random.uniform(-2.2, 2.2)` draws and `random.uniform(0, 360)`. */
  datatype ClevrDraw = ClevrDraw(look: CatalogDraw, x: real, y: real, rz: real)

  /** The ranges of the three `random.uniform` draws. */
  predicate DrawInRange(d: ClevrDraw)
  {
    -2.2 <= d.x <= 2.2 && -2.2 <= d.y <= 2.2 && 0.0 <= d.rz <= 360.0
  }

  /** `get_object_data`: the drawn catalogue look, named after how many
      objects of that shape the scene holds, on the floor at a drawn place
      and turned only about the vertical axis. */
  function GetObjectData(scene: SceneData, draw: ClevrDraw): (r: Result<ObjectData>)
    requires scene.objects.Valid() && CatalogValid(scene.properties)
    ensures r.Ok? <==> CatalogAvailable(scene.properties)
    ensures r.Err? ==> Some(r.msg) == CatalogError(scene.properties)
    ensures r.Ok? ==>
      var look := DrawLook(scene.properties, scene.shapeDir, draw.look).value;
      && r.value.name == ObjectName(look.shapePair.0, scene.objects)
      && r.value.shapePair == look.shapePair && r.value.materialPair == Some(look.materialPair)
      && r.value.colorPair == look.colorPair && r.value.scalePair == look.scalePair
      && r.value.pose == Pose(draw.x, draw.y, 0.0, 0.0, 0.0, draw.rz)
  {
    match DrawLook(scene.properties, scene.shapeDir, draw.look)
    case Err(msg) => Err(msg)
    case Ok(look) =>
      Ok(ObjectData(ObjectName(look.shapePair.0, scene.objects), look.shapePair, Some(look.materialPair),
                    look.colorPair, look.scalePair, Pose(draw.x, draw.y, 0.0, 0.0, 0.0, draw.rz)))
  }

  /** `numpy.linspace(0, 60, 3)`, the grid's x-angles. */
  function GridXs(): (s: seq<real>)
    ensures |s| == 3
  {
    Linspace(0.0, 60.0, 3)
  }

  /** The grid's x-angles are 0, 30 and 60 degrees. */
  lemma GridValues()
    ensures GridXs() == [0.0, 30.0, 60.0]
  {
  }

  /** The camera grid at distance 10, named `cam0` ... `cam17`. */
  function ClevrCameras(orbit: Orbit): OrderedMap<CameraData>
  {
    PlainCameraNameInjective();
    CameraGrid(GridXs(), GridAzimuths(), 10.0, PlainCameraName, orbit)
  }

  /** Camera `k` of the grid is `cam{k}` and looks from x-angle
      `GridXs()[k // 6]` and z-angle `GridAzimuths()[k % 6]`. */
  lemma ClevrCameraAt(orbit: Orbit, k: nat)
    requires k < 18
    ensures k < |ClevrCameras(orbit).keys|
    ensures ClevrCameras(orbit).keys[k] == PlainCameraName(k)
    ensures ClevrCameras(orbit).values[PlainCameraName(k)].pose
         == OrbitPose(10.0, GridXs()[k / 6], 0.0, GridAzimuths()[k % 6], orbit)
  {
    var i, j, w := k / 6, k % 6, |GridAzimuths()|;
    assert k == i * w + j by { assert w == 6; }
    PlainCameraNameInjective();
    CameraGridAt(GridXs(), GridAzimuths(), 10.0, PlainCameraName, orbit, i, j, k);
  }

  /** The grid holds `3 * 6` cameras, `cam0` ... `cam17`, camera `k` looking
      from x-angle `30 (k // 6)` and z-angle `60 (k % 6)`. */
  lemma ClevrCamerasLayout(orbit: Orbit)
    ensures ClevrCameras(orbit).Valid() && |ClevrCameras(orbit).keys| == 18
    ensures forall k :: 0 <= k < 18 ==>
      && ClevrCameras(orbit).keys[k] == PlainCameraName(k)
      && ClevrCameras(orbit).values[PlainCameraName(k)].pose
           == OrbitPose(10.0, GridXs()[k / 6], 0.0, GridAzimuths()[k % 6], orbit)
  {
    var rows, cols := |GridXs()|, |GridAzimuths()|;
    GridAnglesLength(GridXs(), GridAzimuths());
    assert rows * cols == 18 by { assert rows == 3 && cols == 6; }
    forall k | 0 <= k < 18
      ensures ClevrCameras(orbit).keys[k] == PlainCameraName(k)
      ensures ClevrCameras(orbit).values[PlainCameraName(k)].pose
           == OrbitPose(10.0, GridXs()[k / 6], 0.0, GridAzimuths()[k % 6], orbit)
    {
      ClevrCameraAt(orbit, k);
    }
  }

  /** The light `light_0` at x-angle 60 and z-angle 135. */
  function ClevrLight(orbit: Orbit): LightData
  {
    PointLight(60.0, 0.0, 135.0, orbit)
  }

  /** The scene `get_scene_data` builds, or the error it raises. The scene
      comes from `from_args` without a reset flag. */
  function SceneOf(name: string, args: Args, cwd: string, draw: ClevrDraw, orbit: Orbit): (r: Result<SceneData>)
    requires IsAbsolute(cwd) && CatalogValid(args.properties)
    ensures r.Ok? <==> CatalogAvailable(args.properties)
    ensures r.Err? ==> Some(r.msg) == CatalogError(args.properties)
    ensures r.Ok? ==> r.value.name == name
  {
    var s := SceneFromArgs(name, args, cwd, None);
    var ground := GroundObject();
    var s1 := s.(objects := s.objects.Set(ground.name, ground));
    match GetObjectData(s1, draw)
    case Err(msg) => Err(msg)
    case Ok(o) =>
      Ok(s1.(objects := s1.objects.Set(o.name, o), cameras := ClevrCameras(orbit),
             lights := s1.lights.Set("light_0", ClevrLight(orbit))))
  }

  /** `get_scene_data`. */
  method GetSceneData(name: string, args: Args, cwd: string, draw: ClevrDraw, orbit: Orbit)
    returns (r: Result<SceneData>)
    requires IsAbsolute(cwd) && CatalogValid(args.properties)
    ensures r == SceneOf(name, args, cwd, draw, orbit)
  {
    var scene := SceneFromArgs(name, args, cwd, None);
    var ground := GroundObject();
    scene := scene.(objects := scene.objects.Set(ground.name, ground));
    var o := GetObjectData(scene, draw);
    if o.Err? {
      return Err(o.msg);
    }
    scene := scene.(objects := scene.objects.Set(o.value.name, o.value));
    PlainCameraNameInjective();
    var cameras := FillCameraGrid(GridXs(), GridAzimuths(), 10.0, PlainCameraName, orbit);
    scene := scene.(cameras := cameras);
    var light := ClevrLight(orbit);
    scene := scene.(lights := scene.lights.Set(light.name, light));
    return Ok(scene);
  }

  /** A built scene holds exactly the ground and one object `{shape}_0`
      (`{shape}_1` for a shape name that `ground` starts with), lying on the
      floor at the drawn place and turned only about the vertical axis by the
      drawn heading. */
  lemma SceneObjects(name: string, args: Args, cwd: string, draw: ClevrDraw, orbit: Orbit)
    requires IsAbsolute(cwd) && CatalogValid(args.properties)
    ensures var r := SceneOf(name, args, cwd, draw, orbit);
      r.Ok? ==>
        var shape := args.properties.shapes.value.keys[Pick(args.properties.shapes, draw.look.shape)];
        var key := shape + "_" + (if StartsWith("ground", shape) then "1" else "0");
        && r.value.objects.Valid()
        && r.value.objects.keys == ["ground", key]
        && r.value.objects.values["ground"] == GroundObject()
        && r.value.objects.values[key].shapePair.0 == shape
        && r.value.objects.values[key].pose == Pose(draw.x, draw.y, 0.0, 0.0, 0.0, draw.rz)
  {
    var s := SceneFromArgs(name, args, cwd, None);
    var s1 := s.(objects := s.objects.Set("ground", GroundObject()));
    if CatalogAvailable(args.properties) {
      var shape := args.properties.shapes.value.keys[Pick(args.properties.shapes, draw.look.shape)];
      GroundThenObject(shape, GetObjectData(s1, draw).value);
    }
  }

  /** With draws from the ranges of the source's `random.uniform` calls,
      every object of a built scene but the ground lies on the floor inside
      the square `[-2.2, 2.2] x [-2.2, 2.2]`, upright, with a heading of 0
      to 360 degrees. */
  lemma SceneInBounds(name: string, args: Args, cwd: string, draw: ClevrDraw, orbit: Orbit)
    requires IsAbsolute(cwd) && CatalogValid(args.properties) && DrawInRange(draw)
    ensures var r := SceneOf(name, args, cwd, draw, orbit);
      r.Ok? ==> forall key :: key in r.value.objects.values && key != "ground" ==>
        var p := r.value.objects.values[key].pose;
        && -2.2 <= p.x <= 2.2 && -2.2 <= p.y <= 2.2 && p.z == 0.0
        && p.rx == 0.0 && p.ry == 0.0 && 0.0 <= p.rz <= 360.0
  {
    SceneObjects(name, args, cwd, draw, orbit);
  }

  /** A built scene has the given name and no reset flag, is seen by the 18
      grid cameras and lit by the light `light_0` alone. */
  lemma SceneFixtures(name: string, args: Args, cwd: string, draw: ClevrDraw, orbit: Orbit)
    requires IsAbsolute(cwd) && CatalogValid(args.properties)
    ensures var r := SceneOf(name, args, cwd, draw, orbit);
      r.Ok? ==>
        && r.value.name == name && r.value.resetScene == None
        && r.value.cameras == ClevrCameras(orbit)
        && r.value.lights.keys == ["light_0"] && r.value.lights.values["light_0"] == ClevrLight(orbit)
  {
  }


  /** `f'{scene_i:06d}'` for the `k`-th scene of a render starting at
      `start`. */
  function ShiftedName(start: nat): nat -> string
  {
    (k: nat) => SceneName(start + k)
  }

  lemma ShiftedNameInjective(start: nat)
    ensures Injective(ShiftedName(start))
  {
    forall a: nat, b: nat | SameKey(ShiftedName(start), a, b) ensures a == b {
      SceneNameInjective(start + a, start + b);
    }
  }

  /** Scene `k` of a render: named `f'{start_idx + k:06d}'` and built with
      the `k`-th draw. When the catalogue cannot be drawn from there is no
      such scene, and the bare scene `from_args` gives stands in for it. */
  function SceneAt(args: Args, cwd: string, draws: seq<ClevrDraw>, orbit: Orbit, k: nat): (s: SceneData)
    requires IsAbsolute(cwd) && CatalogValid(args.properties)
    requires k < |draws|
    ensures CatalogAvailable(args.properties) ==>
      Ok(s) == SceneOf(SceneName(args.startIdx + k), args, cwd, draws[k], orbit)
  {
    match SceneOf(SceneName(args.startIdx + k), args, cwd, draws[k], orbit)
    case Ok(scene) => scene
    case Err(_) => SceneFromArgs(SceneName(args.startIdx + k), args, cwd, None)
  }

  /** The scenes of a render, in order. */
  function ClevrScenes(args: Args, cwd: string, draws: seq<ClevrDraw>, orbit: Orbit): (t: seq<SceneData>)
    requires IsAbsolute(cwd) && CatalogValid(args.properties)
    ensures |t| == |draws|
    ensures forall k {:trigger SceneAt(args, cwd, draws, orbit, k)} ::
      0 <= k < |draws| ==> t[k] == SceneAt(args, cwd, draws, orbit, k)
  {
    seq(|draws|, k requires 0 <= k < |draws| => SceneAt(args, cwd, draws, orbit, k))
  }

  /** What `get_render_data` returns: the scenes `start_idx` ...
      `start_idx + num_scenes - 1` keyed by their names, or the error of the
      first scene. */
  function RenderOf(name: string, args: Args, cwd: string, draws: seq<ClevrDraw>, orbit: Orbit): (r: Result<RenderData>)
    requires IsAbsolute(cwd) && CatalogValid(args.properties) && |draws| == args.numScenes
    ensures r.Ok? <==> args.numScenes == 0 || CatalogAvailable(args.properties)
    ensures r.Err? ==> Some(r.msg) == CatalogError(args.properties)
    ensures r.Ok? ==> r.value == RenderFromArgs(name, args, cwd).(scenes := r.value.scenes)
  {
    var render := RenderFromArgs(name, args, cwd);
    if args.numScenes == 0 then Ok(render)
    else if !CatalogAvailable(args.properties) then Err(CatalogError(args.properties).value)
    else
      ShiftedNameInjective(args.startIdx);
      InjectiveIsBelow(ShiftedName(args.startIdx), |draws|);
      Ok(render.(scenes := Indexed(ShiftedName(args.startIdx), ClevrScenes(args, cwd, draws, orbit))))
  }

  /** A scene the loop builds for index `k` is the `k`-th of the render's
      scenes and is named by the `k`-th key. */
  lemma BuiltIsScene(args: Args, cwd: string, draws: seq<ClevrDraw>, orbit: Orbit, k: nat, scene: SceneData)
    requires IsAbsolute(cwd) && CatalogValid(args.properties) && k < |draws|
    requires Ok(scene) == SceneOf(SceneName(args.startIdx + k), args, cwd, draws[k], orbit)
    ensures scene == ClevrScenes(args, cwd, draws, orbit)[k]
    ensures scene.name == ShiftedName(args.startIdx)(k)
  {
    assert scene == SceneAt(args, cwd, draws, orbit, k);
  }

  /** One pass of the `get_render_data` loop: build scene `f'{i:06d}'` and
      store it under its name, or raise what building it raises. */
  method AddScene(scenes: OrderedMap<SceneData>, args: Args, cwd: string, draws: seq<ClevrDraw>,
                  orbit: Orbit, i: nat, ghost t: seq<SceneData>)
    returns (r: Result<OrderedMap<SceneData>>)
    requires IsAbsolute(cwd) && CatalogValid(args.properties) && |draws| == args.numScenes
    requires t == ClevrScenes(args, cwd, draws, orbit) && Injective(ShiftedName(args.startIdx))
    requires args.startIdx <= i < args.startIdx + args.numScenes
    requires scenes == Indexed(ShiftedName(args.startIdx), t[..i - args.startIdx])
    ensures r.Err? ==> Some(r.msg) == CatalogError(args.properties)
    ensures r.Ok? ==> CatalogAvailable(args.properties)
    ensures r.Ok? ==> r.value == Indexed(ShiftedName(args.startIdx), t[..i - args.startIdx + 1])
  {
    var k := i - args.startIdx;
    var scene := GetSceneData(SceneName(i), args, cwd, draws[k], orbit);
    if scene.Err? {
      return Err(scene.msg);
    }
    BuiltIsScene(args, cwd, draws, orbit, k, scene.value);
    IndexedSnoc(ShiftedName(args.startIdx), t, k);
    return Ok(scenes.Set(scene.value.name, scene.value));
  }

  /** `get_render_data`: for `scene_i` in `range(start_idx, start_idx +
      num_scenes)`, build scene `f'{scene_i:06d}'` with its own draws and
      store it under its name; the first scene that cannot be built ends the
      call with its error. */
  method GetRenderData(name: string, args: Args, cwd: string, draws: seq<ClevrDraw>, orbit: Orbit)
    returns (r: Result<RenderData>)
    requires IsAbsolute(cwd) && CatalogValid(args.properties) && |draws| == args.numScenes
    ensures r == RenderOf(name, args, cwd, draws, orbit)
  {
    var render := RenderFromArgs(name, args, cwd);
    var scenes := render.scenes;
    var start := args.startIdx;
    ghost var key := ShiftedName(start);
    ghost var t := ClevrScenes(args, cwd, draws, orbit);
    ShiftedNameInjective(start);
    InjectiveIsBelow(key, |t|);
    IndexedFirst(key, t);
    var i := start;
    while i < start + args.numScenes
      invariant start <= i <= start + args.numScenes
      invariant i > start ==> CatalogAvailable(args.properties)
      invariant scenes == Indexed(key, t[..i - start])
      decreases start + args.numScenes - i
    {
      var next := AddScene(scenes, args, cwd, draws, orbit, i, t);
      if next.Err? {
        return Err(next.msg);
      }
      scenes := next.value;
      i := i + 1;
    }
    IndexedWhole(key, t, i - start);
    return Ok(render.(scenes := scenes));
  }

  /** The scenes of a render keyed by their shifted names: the `k`-th key
      is `f'{start_idx + k:06d}'` and holds the `k`-th scene. */
  lemma ShiftedScene(args: Args, cwd: string, draws: seq<ClevrDraw>, orbit: Orbit, k: nat)
    requires IsAbsolute(cwd) && CatalogValid(args.properties) && CatalogAvailable(args.properties)
    requires InjectiveBelow(ShiftedName(args.startIdx), |draws|) && k < |draws|
    ensures var m := Indexed(ShiftedName(args.startIdx), ClevrScenes(args, cwd, draws, orbit));
      && m.keys[k] == SceneName(args.startIdx + k)
      && Ok(m.values[SceneName(args.startIdx + k)]) == SceneOf(SceneName(args.startIdx + k), args, cwd, draws[k], orbit)
  {
    var t := ClevrScenes(args, cwd, draws, orbit);
    var m := Indexed(ShiftedName(args.startIdx), t);
    var n := SceneName(args.startIdx + k);
    assert m.keys[k] == n by {
      assert ShiftedName(args.startIdx)(k) == n;
    }
    assert m.values[n] == t[k];
    assert Ok(t[k]) == SceneOf(n, args, cwd, draws[k], orbit) by {
      assert t[k] == SceneAt(args, cwd, draws, orbit, k);
    }
  }

  /** A render holds exactly `num_scenes` scenes, the `k`-th named
      `f'{start_idx + k:06d}'`, each built from its own draws. */
  lemma RenderLayout(name: string, args: Args, cwd: string, draws: seq<ClevrDraw>, orbit: Orbit)
    requires IsAbsolute(cwd) && CatalogValid(args.properties) && |draws| == args.numScenes
    ensures var r := RenderOf(name, args, cwd, draws, orbit);
      r.Ok? ==>
        && r.value.scenes.Valid() && |r.value.scenes.keys| == args.numScenes
        && forall k :: 0 <= k < args.numScenes ==>
             && r.value.scenes.keys[k] == SceneName(args.startIdx + k)
             && Ok(r.value.scenes.values[SceneName(args.startIdx + k)])
                == SceneOf(SceneName(args.startIdx + k), args, cwd, draws[k], orbit)
  {
    if args.numScenes > 0 && CatalogAvailable(args.properties) {
      ShiftedNameInjective(args.startIdx);
      InjectiveIsBelow(ShiftedName(args.startIdx), |draws|);
      forall k | 0 <= k < args.numScenes
        ensures var m := Indexed(ShiftedName(args.startIdx), ClevrScenes(args, cwd, draws, orbit));
          && m.keys[k] == SceneName(args.startIdx + k)
          && Ok(m.values[SceneName(args.startIdx + k)]) == SceneOf(SceneName(args.startIdx + k), args, cwd, draws[k], orbit)
      {
        ShiftedScene(args, cwd, draws, orbit, k);
      }
    }
  }
}
