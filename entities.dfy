/** The declarative scene description: objects, cameras and lights owned by
    a scene, scenes owned by a render job, and the pieces every scene builder
    shares (the ground plane, the point light, the camera grid, argument
    copying, catalogue draws). All entities are values, so a scene copied
    into the next trajectory step can never alias the one before it. */
module Entities {
  import opened Common
  import opened OrderedMaps
  import opened Names

  /** Position of the point `(0, 0, d)` after rotation by the XYZ Euler
      angles `(r_x, r_y, r_z)` in degrees (`mathutils.Vector.rotate`). */
  type Orbit = (real, real, real, real) -> Vec3

  datatype ObjectData = ObjectData(
    name: string,
    shapePair: (string, string),
    materialPair: Option<(string, string)>,
    colorPair: (string, seq<real>),
    scalePair: (string, seq<real>),
    pose: Pose)

  datatype CameraData = CameraData(name: string, pose: Pose)

  datatype LightData = LightData(name: string, lightType: string, energy: real, pose: Pose)

  /** The properties file: colour byte triples, sizes, material and shape
      asset names, and the optional 6x2 `pose_range`. A category missing
      from the file is `None`. */
  datatype Catalog = Catalog(
    colors: Option<OrderedMap<seq<int>>>,
    sizes: Option<OrderedMap<seq<real>>>,
    materials: Option<OrderedMap<string>>,
    shapes: Option<OrderedMap<string>>,
    poseRange: Option<seq<seq<real>>>)

  datatype SceneData = SceneData(
    name: string,
    resetScene: Option<bool>,
    baseSceneBlendfile: Option<string>,
    properties: Catalog,
    shapeDir: string,
    materialDir: string,
    objects: OrderedMap<ObjectData>,
    cameras: OrderedMap<CameraData>,
    lights: OrderedMap<LightData>)

  datatype RenderData = RenderData(
    name: string,
    outputDir: string,
    width: int,
    height: int,
    renderTileSize: int,
    deviceType: string,
    renderNumSamples: int,
    renderMinBounces: int,
    renderMaxBounces: int,
    modes: seq<string>,
    scenes: OrderedMap<SceneData>)

  /** The parsed command line, with the properties file already loaded. */
  datatype Args = Args(
    outputDir: string,
    width: int,
    height: int,
    renderTileSize: int,
    deviceType: string,
    renderNumSamples: int,
    renderMinBounces: int,
    renderMaxBounces: int,
    modes: seq<string>,
    numScenes: nat,
    startIdx: nat,
    baseSceneBlendfile: Option<string>,
    shapeDir: string,
    materialDir: string,
    properties: Catalog)

  predicate IsAbsolute(p: string) { |p| > 0 && p[0] == '/' }

  /** POSIX `os.path.join(a, b)`. */
  function PathJoin(a: string, b: string): string
  {
    if IsAbsolute(b) then b
    else if a == [] || a[|a| - 1] == '/' then a + b
    else a + "/" + b
  }

  /** `os.path.abspath(p)` relative to the working directory `cwd`, without
      the `normpath` clean-up of `.` and `..` segments. */
  function AbsPath(cwd: string, p: string): (r: string)
    requires IsAbsolute(cwd)
    ensures IsAbsolute(r)
    ensures IsAbsolute(p) ==> r == p
  {
    if IsAbsolute(p) then p else PathJoin(cwd, p)
  }

  /** `render_data.from_args`: copies the argument fields, makes the output
      directory absolute and starts with no scenes. */
  function RenderFromArgs(name: string, args: Args, cwd: string): (r: RenderData)
    requires IsAbsolute(cwd)
    ensures IsAbsolute(r.outputDir) && r.scenes == Empty()
    ensures r.name == name && r.modes == args.modes && r.deviceType == args.deviceType
    ensures (r.width, r.height, r.renderTileSize) == (args.width, args.height, args.renderTileSize)
    ensures (r.renderNumSamples, r.renderMinBounces, r.renderMaxBounces)
         == (args.renderNumSamples, args.renderMinBounces, args.renderMaxBounces)
  {
    RenderData(name, AbsPath(cwd, args.outputDir), args.width, args.height, args.renderTileSize,
               args.deviceType, args.renderNumSamples, args.renderMinBounces,
               args.renderMaxBounces, args.modes, Empty())
  }

  /** `scene_data.from_args`, reconstructed from what its callers read: a
      scene with the given name and reset flag, the catalogue, absolute asset
      directories and no objects, cameras or lights yet. */
  function SceneFromArgs(name: string, args: Args, cwd: string, reset: Option<bool>): (s: SceneData)
    requires IsAbsolute(cwd)
    ensures s.name == name && s.resetScene == reset && s.properties == args.properties
    ensures IsAbsolute(s.shapeDir) && IsAbsolute(s.materialDir)
    ensures s.objects == Empty() && s.cameras == Empty() && s.lights == Empty()
  {
    var base := match args.baseSceneBlendfile
      case Some(f) => Some(AbsPath(cwd, f))
      case None => None;
    SceneData(name, reset, base, args.properties, AbsPath(cwd, args.shapeDir),
              AbsPath(cwd, args.materialDir), Empty(), Empty(), Empty())
  }

  /** The ground plane every builder puts first: `ground`, all-zero pose,
      opaque white, unit scale, `solid` material. */
  function GroundObject(): (o: ObjectData)
    ensures o.name == "ground"
    ensures Translation(o.pose) == Zero3() && Angles(o.pose) == Zero3()
    ensures o.colorPair.1 == [1.0, 1.0, 1.0, 1.0] && o.scalePair.1 == [1.0, 1.0, 1.0]
    ensures o.materialPair == Some(("solid", "solid"))
  {
    ObjectData("ground", ("plane", "plane"), Some(("solid", "solid")),
               ("white", [1.0, 1.0, 1.0, 1.0]), ("1", [1.0, 1.0, 1.0]), ZeroPose())
  }

  /** `os.path.join(shape_dir, f'{shape}.blend', 'Object', shape)`. */
  function ShapeValue(shapeDir: string, shape: string): string
  {
    PathJoin(PathJoin(PathJoin(shapeDir, shape + ".blend"), "Object"), shape)
  }

  /** A catalogue colour: the byte triple divided by 255 with alpha 1.0
      appended (`numpy.append(numpy.array(rgb) / 255, 1.0)`). */
  function ColorPair(name: string, bytes: seq<int>): (c: (string, seq<real>))
    ensures c.0 == name && |c.1| == |bytes| + 1
  {
    (name, seq(|bytes|, i requires 0 <= i < |bytes| => bytes[i] as real / 255.0) + [1.0])
  }

  /** The colour channels are the bytes over 255 and the alpha is 1, so
      bytes in `[0, 255]` give channels in `[0, 1]`. */
  lemma ColorPairChannels(name: string, bytes: seq<int>)
    ensures var c := ColorPair(name, bytes).1;
      && c[|bytes|] == 1.0
      && (forall i :: 0 <= i < |bytes| ==> c[i] * 255.0 == bytes[i] as real)
      && ((forall i :: 0 <= i < |bytes| ==> 0 <= bytes[i] <= 255) ==>
            forall i :: 0 <= i < |c| ==> 0.0 <= c[i] <= 1.0)
  {
  }

  /** What `random.choice` raises on a category that is missing (`KeyError`
      from the lookup) or empty (`IndexError`). */
  function ChoiceError<V>(category: Option<OrderedMap<V>>, what: string): string
  {
    if category.None? then "KeyError: " + what else "IndexError: cannot choose from an empty sequence"
  }

  /** `random.choice([*catalog[category].items()])` with the draw `index`:
      a missing category raises `KeyError`, an empty one `IndexError`. */
  function Choose<V>(category: Option<OrderedMap<V>>, what: string, index: nat): (r: Result<(string, V)>)
    requires category.Some? ==> category.value.Valid()
    requires category.Some? && |category.value.keys| > 0 ==> index < |category.value.keys|
    ensures r.Ok? <==> category.Some? && |category.value.keys| > 0
    ensures r.Err? ==> r.msg == ChoiceError(category, what)
    ensures r.Ok? ==>
      && r.value.0 == category.value.keys[index]
      && r.value.0 in category.value.values
      && r.value.1 == category.value.values[r.value.0]
  {
    match category
    case None => Err("KeyError: " + what)
    case Some(m) =>
      if |m.keys| == 0 then Err("IndexError: cannot choose from an empty sequence")
      else Ok((m.keys[index], m.values[m.keys[index]]))
  }

  ghost predicate CatalogValid(c: Catalog)
  {
    && (c.colors.Some? ==> c.colors.value.Valid())
    && (c.sizes.Some? ==> c.sizes.value.Valid())
    && (c.materials.Some? ==> c.materials.value.Valid())
    && (c.shapes.Some? ==> c.shapes.value.Valid())
  }

  /** A category `random.choice` can draw from: present and not empty. */
  predicate Available<V>(category: Option<OrderedMap<V>>)
  {
    category.Some? && |category.value.keys| > 0
  }

  /** The error the CLEVR object draws raise, if any: that of the first of
      shapes, colours, materials and sizes that cannot be drawn from. */
  function CatalogError(c: Catalog): Option<string>
  {
    if !Available(c.shapes) then Some(ChoiceError(c.shapes, "shapes"))
    else if !Available(c.colors) then Some(ChoiceError(c.colors, "colors"))
    else if !Available(c.materials) then Some(ChoiceError(c.materials, "materials"))
    else if !Available(c.sizes) then Some(ChoiceError(c.sizes, "sizes"))
    else None
  }

  /** All four categories the CLEVR builders draw from are available. */
  predicate CatalogAvailable(c: Catalog)
  {
    CatalogError(c).None?
  }

  /** What `random` supplies to the four `random.choice` calls on the
      shapes, colours, materials and sizes of the catalogue. */
  datatype CatalogDraw = CatalogDraw(shape: nat, color: nat, material: nat, size: nat)

  /** The entry `random.choice` takes from an available category for the
      draw `d`: any natural number, reduced modulo the category's size. */
  function Pick<V>(category: Option<OrderedMap<V>>, d: nat): (i: nat)
    ensures Available(category) ==> i < |category.value.keys|
  {
    if Available(category) then d % |category.value.keys| else 0
  }

  /** Every entry of an available category is drawn by some draw. */
  lemma PickCovers<V>(category: Option<OrderedMap<V>>, i: nat)
    requires Available(category) && i < |category.value.keys|
    ensures Pick(category, i) == i
  {
  }

  /** The four catalogue pairs of a CLEVR object. */
  datatype Look = Look(shapePair: (string, string), materialPair: (string, string),
                       colorPair: (string, seq<real>), scalePair: (string, seq<real>))

  /** The catalogue draws of the CLEVR `get_object_data`: shape, colour,
      material and size, in that order, so the first category that cannot
      be drawn from is the one whose error is raised. The shape pair is the
      shape's name and the path of its asset; the colour is converted by
      `ColorPair`; material and size are the catalogue entries as they are. */
  function DrawLook(c: Catalog, shapeDir: string, d: CatalogDraw): (r: Result<Look>)
    requires CatalogValid(c)
    ensures r.Ok? <==> CatalogAvailable(c)
    ensures r.Err? ==> Some(r.msg) == CatalogError(c)
    ensures r.Ok? ==>
      var shape := c.shapes.value.keys[Pick(c.shapes, d.shape)];
      var color := c.colors.value.keys[Pick(c.colors, d.color)];
      var material := c.materials.value.keys[Pick(c.materials, d.material)];
      var size := c.sizes.value.keys[Pick(c.sizes, d.size)];
      && r.value.shapePair == (shape, ShapeValue(shapeDir, shape))
      && r.value.colorPair == ColorPair(color, c.colors.value.values[color])
      && r.value.materialPair == (material, c.materials.value.values[material])
      && r.value.scalePair == (size, c.sizes.value.values[size])
  {
    match Choose(c.shapes, "shapes", Pick(c.shapes, d.shape))
    case Err(msg) => Err(msg)
    case Ok(shape) =>
      match Choose(c.colors, "colors", Pick(c.colors, d.color))
      case Err(msg) => Err(msg)
      case Ok(color) =>
        match Choose(c.materials, "materials", Pick(c.materials, d.material))
        case Err(msg) => Err(msg)
        case Ok(material) =>
          match Choose(c.sizes, "sizes", Pick(c.sizes, d.size))
          case Err(msg) => Err(msg)
          case Ok(size) =>
            Ok(Look((shape.0, ShapeValue(shapeDir, shape.0)), material, ColorPair(color.0, color.1), size))
  }

  /** The `name` fields of the objects, in dictionary order. */
  function ObjectNames(objects: OrderedMap<ObjectData>): seq<string>
    requires objects.Valid()
  {
    seq(|objects.keys|, i requires 0 <= i < |objects.keys| => objects.values[objects.keys[i]].name)
  }

  /** Adding an object under a new key appends its name. */
  lemma ObjectNamesAdd(objects: OrderedMap<ObjectData>, key: string, o: ObjectData)
    requires objects.Valid() && key !in objects.values
    ensures ObjectNames(objects.Set(key, o)) == ObjectNames(objects) + [o.name]
  {
  }

  /** Number of names starting with `prefix`. */
  function CountPrefixed(names: seq<string>, prefix: string): (n: nat)
    ensures n <= |names|
  {
    if names == [] then 0
    else CountPrefixed(names[..|names| - 1], prefix)
         + (if StartsWith(names[|names| - 1], prefix) then 1 else 0)
  }

  /** No name starting with `prefix` counts zero. */
  lemma {:induction false} CountPrefixedNone(names: seq<string>, prefix: string)
    requires forall i :: 0 <= i < |names| ==> !StartsWith(names[i], prefix)
    ensures CountPrefixed(names, prefix) == 0
    decreases |names|
  {
    if names != [] {
      CountPrefixedNone(names[..|names| - 1], prefix);
    }
  }

  /** `f'{shape}_{count}'`, where `count` is the number of objects already in
      the scene whose name starts with `shape`. */
  function ObjectName(shape: string, objects: OrderedMap<ObjectData>): string
    requires objects.Valid()
  {
    shape + "_" + Decimal(CountPrefixed(ObjectNames(objects), shape))
  }

  /** The object added after the ground is `{shape}_0`, or `{shape}_1` when
      `ground` itself starts with the shape name; either way it does not
      overwrite the ground. */
  lemma NameAfterGround(shape: string, objects: OrderedMap<ObjectData>)
    requires objects.Valid() && ObjectNames(objects) == ["ground"]
    ensures ObjectName(shape, objects) == shape + "_" + (if StartsWith("ground", shape) then "1" else "0")
    ensures ObjectName(shape, objects) != "ground"
  {
    assert ["ground"][..0] == [];
    assert Decimal(0) == "0" && Decimal(1) == "1";
    var name := ObjectName(shape, objects);
    assert name[|shape|] == '_';
  }

  /** The objects of a scene that holds the ground and then one object drawn
      with the given shape: the object's key is `{shape}_0`, or `{shape}_1`
      when `ground` starts with the shape name. */
  lemma GroundThenObject(shape: string, o: ObjectData)
    requires o.name == ObjectName(shape, Empty<ObjectData>().Set("ground", GroundObject()))
    ensures var m := Empty<ObjectData>().Set("ground", GroundObject()).Set(o.name, o);
      var key := shape + "_" + (if StartsWith("ground", shape) then "1" else "0");
      && m.Valid() && m.keys == ["ground", key]
      && m.values["ground"] == GroundObject() && m.values[key] == o
  {
    var g := Empty<ObjectData>().Set("ground", GroundObject());
    ObjectNamesAdd(Empty(), "ground", GroundObject());
    NameAfterGround(shape, g);
  }

  /** A camera (or light) pose: the orbit position then the three angles. */
  function OrbitPose(d: real, rx: real, ry: real, rz: real, orbit: Orbit): (p: Pose)
    ensures Translation(p) == orbit(d, rx, ry, rz) && Angles(p) == Vec3(rx, ry, rz)
  {
    PoseOf(orbit(d, rx, ry, rz), Vec3(rx, ry, rz))
  }

  /** The single `POINT` light `light_0` of energy 1000 at distance 10. */
  function PointLight(rx: real, ry: real, rz: real, orbit: Orbit): (l: LightData)
    ensures l.name == "light_0" && l.lightType == "POINT" && l.energy == 1000.0
    ensures Angles(l.pose) == Vec3(rx, ry, rz) && Translation(l.pose) == orbit(10.0, rx, ry, rz)
  {
    LightData("light_0", "POINT", 1000.0, OrbitPose(10.0, rx, ry, rz, orbit))
  }

  /** `numpy.linspace(a, b, n)` in exact arithmetic. */
  function Linspace(a: real, b: real, n: nat): (s: seq<real>)
    ensures |s| == n
    ensures n >= 1 ==> s[0] == a
    ensures n >= 2 ==> s[n - 1] == b
  {
    if n == 1 then [a]
    else seq(n, i requires 0 <= i < n => a + (b - a) * (i as real) / ((n - 1) as real))
  }

  /** `numpy.linspace(0, 300, 6)`: the z-angles of both 18-camera grids. */
  function GridAzimuths(): (s: seq<real>)
    ensures |s| == 6
  {
    Linspace(0.0, 300.0, 6)
  }

  /** The grid azimuths are 0, 60, ..., 300 degrees. */
  lemma GridAzimuthValues()
    ensures GridAzimuths() == [0.0, 60.0, 120.0, 180.0, 240.0, 300.0]
  {
  }

  lemma SceneNamesInjective()
    ensures Injective(SceneName)
  {
    forall a: nat, b: nat | SameKey(SceneName, a, b) ensures a == b {
      SceneNameInjective(a, b);
    }
  }

  /** `f'cam{k:02d}'`, the camera naming of the cap builder. */
  function PaddedCameraName(k: nat): string { "cam" + ZeroPad(k, 2) }

  /** `f'cam{k}'`, the camera naming of the CLEVR builder. */
  function PlainCameraName(k: nat): string { "cam" + Decimal(k) }

  lemma PaddedCameraNameInjective()
    ensures Injective(PaddedCameraName)
  {
    forall a: nat, b: nat | SameKey(PaddedCameraName, a, b) ensures a == b {
      PrefixedInjective("cam", ZeroPad(a, 2), ZeroPad(b, 2));
      ZeroPadInjective(a, b, 2);
    }
  }

  lemma PlainCameraNameInjective()
    ensures Injective(PlainCameraName)
  {
    forall a: nat, b: nat | SameKey(PlainCameraName, a, b) ensures a == b {
      PrefixedInjective("cam", Decimal(a), Decimal(b));
      DecimalValue(a);
      DecimalValue(b);
    }
  }

  /** The `(r_x, r_z)` angle pairs in the order of the nested loops: all of
      `rzs` for the first `r_x`, then for the second, and so on. */
  function GridAngles(rxs: seq<real>, rzs: seq<real>): seq<(real, real)>
  {
    if rxs == [] then []
    else GridAngles(rxs[..|rxs| - 1], rzs) + RowAngles(rxs[|rxs| - 1], rzs)
  }

  /** One row of the grid: `rx` paired with each of `rzs`. */
  function RowAngles(rx: real, rzs: seq<real>): (g: seq<(real, real)>)
    ensures |g| == |rzs|
    ensures forall j :: 0 <= j < |rzs| ==> g[j] == (rx, rzs[j])
  {
    seq(|rzs|, j requires 0 <= j < |rzs| => (rx, rzs[j]))
  }

  /** Extending a partial row by its next angle. */
  lemma RowAnglesSnoc(done: seq<(real, real)>, rx: real, rzs: seq<real>, j: nat)
    requires j < |rzs|
    ensures done + RowAngles(rx, rzs[..j + 1]) == (done + RowAngles(rx, rzs[..j])) + [(rx, rzs[j])]
  {
    assert RowAngles(rx, rzs[..j + 1]) == RowAngles(rx, rzs[..j]) + [(rx, rzs[j])];
  }

  /** The grid has one entry per pair of angles. */
  lemma {:induction false} GridAnglesLength(rxs: seq<real>, rzs: seq<real>)
    ensures |GridAngles(rxs, rzs)| == |rxs| * |rzs|
    decreases |rxs|
  {
    if rxs != [] {
      var n := |rxs|;
      GridAnglesLength(rxs[..n - 1], rzs);
      assert (n - 1) * |rzs| + |rzs| == n * |rzs|;
    }
  }

  /** Entry `i * |rzs| + j` of the grid pairs `rxs[i]` with `rzs[j]`. */
  lemma {:induction false} GridAnglesAt(rxs: seq<real>, rzs: seq<real>, i: nat, j: nat)
    requires i < |rxs| && j < |rzs|
    ensures i * |rzs| + j < |GridAngles(rxs, rzs)|
    ensures GridAngles(rxs, rzs)[i * |rzs| + j] == (rxs[i], rzs[j])
    decreases |rxs|
  {
    var n := |rxs|;
    var front := rxs[..n - 1];
    GridAnglesLength(rxs, rzs);
    GridAnglesLength(front, rzs);
    assert |rxs| * |rzs| == (n - 1) * |rzs| + |rzs|;
    if i < n - 1 {
      GridAnglesAt(front, rzs, i, j);
    } else {
      assert i * |rzs| == (n - 1) * |rzs|;
    }
  }

  /** The camera for angle pair `p`, named `name`. */
  function GridCamera(name: string, p: (real, real), d: real, orbit: Orbit): CameraData
  {
    CameraData(name, OrbitPose(d, p.0, 0.0, p.1, orbit))
  }

  /** The k-th camera for each angle pair. */
  function GridCameraList(pairs: seq<(real, real)>, d: real, camName: nat -> string, orbit: Orbit): (cs: seq<CameraData>)
    ensures |cs| == |pairs|
    ensures forall k :: 0 <= k < |pairs| ==> cs[k] == GridCamera(camName(k), pairs[k], d, orbit)
  {
    seq(|pairs|, k requires 0 <= k < |pairs| => GridCamera(camName(k), pairs[k], d, orbit))
  }

  /** Cameras for the given angle pairs, the k-th named `camName(k)`. */
  function GridCameras(pairs: seq<(real, real)>, d: real, camName: nat -> string, orbit: Orbit): (m: OrderedMap<CameraData>)
    requires Injective(camName)
    ensures m.Valid() && |m.keys| == |pairs|
  {
    InjectiveIsBelow(camName, |pairs|);
    Indexed(camName, GridCameraList(pairs, d, camName, orbit))
  }

  /** The Cartesian product of x-angles (outer) and z-angles (inner), at
      distance `d` and zero y-angle. */
  function CameraGrid(rxs: seq<real>, rzs: seq<real>, d: real, camName: nat -> string, orbit: Orbit): OrderedMap<CameraData>
    requires Injective(camName)
  {
    GridCameras(GridAngles(rxs, rzs), d, camName, orbit)
  }

  /** Camera `k = i * |rzs| + j` of the grid is named after its index and
      looks from `(rxs[i], 0, rzs[j])`. */
  lemma CameraGridAt(rxs: seq<real>, rzs: seq<real>, d: real, camName: nat -> string, orbit: Orbit, i: nat, j: nat, k: nat)
    requires Injective(camName)
    requires i < |rxs| && j < |rzs| && k == i * |rzs| + j
    ensures var m := CameraGrid(rxs, rzs, d, camName, orbit);
      && k < |m.keys|
      && m.keys[k] == camName(k)
      && m.values[camName(k)] == CameraData(camName(k), OrbitPose(d, rxs[i], 0.0, rzs[j], orbit))
  {
    GridAnglesAt(rxs, rzs, i, j);
    GridCamerasAt(GridAngles(rxs, rzs), d, camName, orbit, k);
  }

  /** Camera `k` is named `camName(k)` and looks from the `k`-th pair. */
  lemma GridCamerasAt(pairs: seq<(real, real)>, d: real, camName: nat -> string, orbit: Orbit, k: nat)
    requires Injective(camName) && k < |pairs|
    ensures var m := GridCameras(pairs, d, camName, orbit);
      && m.keys[k] == camName(k)
      && m.values[camName(k)] == GridCamera(camName(k), pairs[k], d, orbit)
  {
    InjectiveIsBelow(camName, |pairs|);
  }

  /** One more angle pair adds exactly its camera at the end. */
  lemma GridCamerasStep(pairs: seq<(real, real)>, p: (real, real), d: real, camName: nat -> string, orbit: Orbit)
    requires Injective(camName)
    ensures GridCameras(pairs, d, camName, orbit).Set(camName(|pairs|), GridCamera(camName(|pairs|), p, d, orbit))
         == GridCameras(pairs + [p], d, camName, orbit)
  {
    var v := GridCamera(camName(|pairs|), p, d, orbit);
    assert GridCameraList(pairs + [p], d, camName, orbit) == GridCameraList(pairs, d, camName, orbit) + [v];
    InjectiveIsBelow(camName, |pairs| + 1);
    IndexedStep(camName, GridCameraList(pairs, d, camName, orbit), v);
  }

  /** The inner loop of the camera grid: one camera per `r_z`, at `r_x`. */
  method FillCameraRow(cameras0: OrderedMap<CameraData>, ghost done: seq<(real, real)>, rx: real, rzs: seq<real>,
                       d: real, camName: nat -> string, orbit: Orbit)
    returns (cameras: OrderedMap<CameraData>)
    requires Injective(camName)
    requires cameras0 == GridCameras(done, d, camName, orbit)
    ensures cameras == GridCameras(done + RowAngles(rx, rzs), d, camName, orbit)
  {
    cameras := cameras0;
    ghost var sofar := done;
    var j := 0;
    while j < |rzs|
      invariant 0 <= j <= |rzs|
      invariant sofar == done + RowAngles(rx, rzs[..j])
      invariant cameras == GridCameras(sofar, d, camName, orbit)
    {
      var camera := GridCamera(camName(|cameras.keys|), (rx, rzs[j]), d, orbit);
      GridCamerasStep(sofar, (rx, rzs[j]), d, camName, orbit);
      cameras := cameras.Set(camera.name, camera);
      RowAnglesSnoc(done, rx, rzs, j);
      sofar := sofar + [(rx, rzs[j])];
      j := j + 1;
    }
    assert rzs[..j] == rzs;
  }

  /** The camera loop shared by the grid builders: for `r_x` in `rxs`, for
      `r_z` in `rzs`, insert the next camera, named after the current count. */
  method FillCameraGrid(rxs: seq<real>, rzs: seq<real>, d: real, camName: nat -> string, orbit: Orbit)
    returns (cameras: OrderedMap<CameraData>)
    requires Injective(camName)
    ensures cameras == CameraGrid(rxs, rzs, d, camName, orbit)
  {
    cameras := Empty();
    IndexedEmpty<CameraData>(camName);
    var i := 0;
    while i < |rxs|
      invariant 0 <= i <= |rxs|
      invariant cameras == GridCameras(GridAngles(rxs[..i], rzs), d, camName, orbit)
    {
      cameras := FillCameraRow(cameras, GridAngles(rxs[..i], rzs), rxs[i], rzs, d, camName, orbit);
      assert rxs[..i + 1][..i] == rxs[..i];
      i := i + 1;
    }
    assert rxs[..i] == rxs;
  }
}
