/** The entity records as the Python objects the builders create, and the
    round trip `from_object(to_object(r), RenderData)` of
    `lib/data/render_data.py` over them: every field and every
    scene/object/camera/light key comes back in order, except that the
    pairs and the mode list built as tuples come back as lists. */
module SerialEntities {
  import opened Common
  import opened OrderedMaps
  import opened Entities
  import opened Serial

  /** A record of class `kind` whose attributes, in constructor order, hold
      `vals`. */
  function Record(kind: Kind, vals: seq<Py>): (p: Py)
    requires |vals| == FieldCount(kind)
  {
    PRecord(kind, Zip(FieldNames(kind), vals))
  }


  /** A dict of entities keyed by name, in insertion order. */
  function MapPy<V>(m: OrderedMap<V>, f: V --> Py): (p: Py)
    requires m.Valid() && forall k :: k in m.values ==> f.requires(m.values[k])
  {
    PDict(seq(|m.keys|, i requires 0 <= i < |m.keys| => (m.keys[i], f(m.values[m.keys[i]]))))
  }

  function StrPy(s: string): Py { PStr(s) }

  /** A string pair. The builders make it a tuple (`built`); after
      `from_object` it is the list `to_object` produced. */
  function StrPair(p: (string, string), built: bool): Py
  {
    if built then PTuple([PStr(p.0), PStr(p.1)]) else PList([PStr(p.0), PStr(p.1)])
  }

  /** A `(name, numpy.ndarray)` pair. */
  function ArrayPair(p: (string, seq<real>)): Py { PTuple([PStr(p.0), PArray(p.1)]) }

  function PoseArray(p: Pose): Py { PArray(PoseSeq(p)) }

  function ObjectPy(o: ObjectData, built: bool): Py
  {
    Record(ObjectKind, [
      PStr(o.name),
      StrPair(o.shapePair, built),
      MaterialPairPy(o.materialPair, built),
      ArrayPair(o.colorPair),
      ArrayPair(o.scalePair),
      PoseArray(o.pose)])
  }

  /** An object's material pair: `None` or a pair of strings. */
  function MaterialPairPy(mp: Option<(string, string)>, built: bool): Py
  {
    match mp
    case None => PNone
    case Some(m) => StrPair(m, built)
  }

  function CameraPy(c: CameraData): Py
  {
    Record(CameraKind, [PStr(c.name), PoseArray(c.pose)])
  }

  function LightPy(l: LightData): Py
  {
    Record(LightKind, [PStr(l.name), PStr(l.lightType), PFloat(l.energy), PoseArray(l.pose)])
  }

  function IntList(xs: seq<int>): Py
  {
    PList(seq(|xs|, i requires 0 <= i < |xs| => PInt(xs[i])))
  }

  function RealList(xs: seq<real>): Py
  {
    PList(seq(|xs|, i requires 0 <= i < |xs| => PFloat(xs[i])))
  }

  function RealTable(rows: seq<seq<real>>): Py
  {
    PList(seq(|rows|, i requires 0 <= i < |rows| => RealList(rows[i])))
  }

  function Category<V>(key: string, category: Option<OrderedMap<V>>, f: V -> Py): (es: seq<(string, Py)>)
    requires category.Some? ==> category.value.Valid()
  {
    match category
    case None => []
    case Some(m) => [(key, MapPy(m, f))]
  }

  /** The properties dict as `json.load` returns it: the categories present,
      byte triples and sizes as lists. The keys come in the fixed order
      colors, sizes, materials, shapes, pose_range; the key order of the
      source's JSON file and any keys beyond these five are not kept. */
  function CatalogPy(c: Catalog): Py
    requires CatalogValid(c)
  {
    PDict(Category("colors", c.colors, IntList)
        + Category("sizes", c.sizes, RealList)
        + Category("materials", c.materials, StrPy)
        + Category("shapes", c.shapes, StrPy)
        + PoseRangeEntries(c.poseRange))
  }

  function PoseRangeEntries(poseRange: Option<seq<seq<real>>>): seq<(string, Py)>
  {
    match poseRange
    case None => []
    case Some(t) => [("pose_range", RealTable(t))]
  }

  function BoolPy(b: bool): Py { PBool(b) }

  function OptionPy<T>(o: Option<T>, f: T -> Py): Py
  {
    match o
    case None => PNone
    case Some(x) => f(x)
  }

  ghost predicate SceneValid(s: SceneData)
  {
    CatalogValid(s.properties) && s.objects.Valid() && s.cameras.Valid() && s.lights.Valid()
  }

  function ScenePy(s: SceneData, built: bool): Py
    requires SceneValid(s)
  {
    Record(SceneKind, SceneHead(s) + [
      MapPy(s.objects, ObjectEncoder(built)),
      MapPy(s.cameras, CameraPy),
      MapPy(s.lights, LightPy)])
  }

  /** The six scene attributes that are not dicts of entities. */
  function SceneHead(s: SceneData): (h: seq<Py>)
    requires CatalogValid(s.properties)
    ensures |h| == 6
  {
    [PStr(s.name),
     OptionPy(s.resetScene, BoolPy),
     OptionPy(s.baseSceneBlendfile, StrPy),
     CatalogPy(s.properties),
     PStr(s.shapeDir),
     PStr(s.materialDir)]
  }

  function ObjectEncoder(built: bool): ObjectData -> Py
  {
    o => ObjectPy(o, built)
  }

  function SceneEncoder(built: bool): SceneData --> Py
  {
    (s: SceneData) requires SceneValid(s) => ScenePy(s, built)
  }

  /** A list of strings; the default `modes` is a tuple. */
  function StrList(xs: seq<string>, built: bool): Py
  {
    var items := seq(|xs|, i requires 0 <= i < |xs| => PStr(xs[i]));
    if built then PTuple(items) else PList(items)
  }

  ghost predicate RenderValid(r: RenderData)
  {
    r.scenes.Valid() && forall k :: k in r.scenes.values ==> SceneValid(r.scenes.values[k])
  }

  function RenderPy(r: RenderData, built: bool): Py
    requires RenderValid(r)
  {
    Record(RenderKind, RenderHead(r) + [StrList(r.modes, built), MapPy(r.scenes, SceneEncoder(built))])
  }

  /** The nine scalar attributes of a render job. */
  function RenderHead(r: RenderData): (h: seq<Py>)
    ensures |h| == 9
  {
    [PStr(r.name),
     PStr(r.outputDir),
     PInt(r.width),
     PInt(r.height),
     PInt(r.renderTileSize),
     PStr(r.deviceType),
     PInt(r.renderNumSamples),
     PInt(r.renderMinBounces),
     PInt(r.renderMaxBounces)]
  }

  // ---------------------------------------------------------------------
  // Round trips

  /** No class has two attributes of the same name. */
  lemma NamesDistinct(kind: Kind)
    ensures forall a, b :: 0 <= a < b < FieldCount(kind) ==> FieldNames(kind)[a] != FieldNames(kind)[b]
  {
  }

  /** `to_object` of a record whose attributes convert to `objs` is the
      dict of `objs` under the attribute names, in order. */
  lemma RecordObject(kind: Kind, vals: seq<Py>, objs: seq<Py>)
    requires |vals| == |objs| == FieldCount(kind)
    requires forall i :: 0 <= i < |vals| ==> ToObject(vals[i]) == Ok(objs[i])
    ensures ToObject(Record(kind, vals)) == Ok(PDict(Zip(FieldNames(kind), objs)))
  {
    var fs := Zip(FieldNames(kind), vals);
    EntriesToObject(fs, kind);
    var es := ToEntries(fs).value;
    forall i | 0 <= i < |es| ensures es[i] == (FieldNames(kind)[i], objs[i]) {
      ToEntriesAt(fs, i);
    }
    assert es == Zip(FieldNames(kind), objs);
  }

  /** `from_object` of the dict holding, under the class's attribute names
      in order, values that decode as `outs` is the record holding `outs`. */
  lemma RecordDecode(kind: Kind, objs: seq<Py>, outs: seq<Py>)
    requires |objs| == |outs| == FieldCount(kind)
    requires forall i :: 0 <= i < |objs| ==> FieldValue(Decodings(kind)[i], objs[i]) == Ok(outs[i])
    ensures FromObject(PDict(Zip(FieldNames(kind), objs)), RecordOf(kind)) == Ok(Record(kind, outs))
  {
    var es := Zip(FieldNames(kind), objs);
    var vs := FieldValues(kind, es);
    DecodingsAgree(kind);
    assert forall i :: 0 <= i < |vs| ==> vs[i] == Ok(outs[i]);
    NamesDistinct(kind);
    assert DistinctNames(EmptyFields(kind));
    AssignAllNames(EmptyFields(kind), Keys(es), vs, outs);
  }

  /** A record whose attributes convert to `objs`, which decode as `outs`,
      comes back from `from_object` as the record holding `outs`. */
  lemma RecordRoundTrip(kind: Kind, vals: seq<Py>, objs: seq<Py>, outs: seq<Py>)
    requires |vals| == |objs| == |outs| == FieldCount(kind)
    requires forall i :: 0 <= i < |vals| ==> ToObject(vals[i]) == Ok(objs[i])
    requires forall i :: 0 <= i < |vals| ==> FieldValue(Decodings(kind)[i], objs[i]) == Ok(outs[i])
    ensures ToObject(Record(kind, vals)) == Ok(PDict(Zip(FieldNames(kind), objs)))
    ensures FromObject(PDict(Zip(FieldNames(kind), objs)), RecordOf(kind)) == Ok(Record(kind, outs))
  {
    RecordObject(kind, vals, objs);
    RecordDecode(kind, objs, outs);
  }

  /** The dict of the converted entities, keys in order. */
  function ConvertedMap<V>(m: OrderedMap<V>, f: V --> Py): (es: seq<(string, Py)>)
    requires m.Valid()
    requires forall k :: k in m.values ==> f.requires(m.values[k]) && ToObject(f(m.values[k])).Ok?
    ensures |es| == |m.keys|
  {
    seq(|m.keys|, i requires 0 <= i < |m.keys| => (m.keys[i], ToObject(f(m.values[m.keys[i]])).value))
  }

  /** `to_object` of a dict of entities converts each entity in place. */
  lemma MapObject<V>(m: OrderedMap<V>, f: V --> Py)
    requires m.Valid()
    requires forall k :: k in m.values ==> f.requires(m.values[k]) && ToObject(f(m.values[k])).Ok?
    ensures ToObject(MapPy(m, f)) == Ok(PDict(ConvertedMap(m, f)))
  {
    var es := MapPy(m, f).entries;
    assert forall i :: 0 <= i < |es| ==> es[i].1 == f(m.values[m.keys[i]]);
    EntriesToObject(es, RenderKind);
    var vs := ToEntries(es).value;
    forall i | 0 <= i < |vs| ensures vs[i] == ConvertedMap(m, f)[i] {
      ToEntriesAt(es, i);
    }
    assert vs == ConvertedMap(m, f);
  }

  /** A dict of entities each of which round-trips to its `g` image comes
      back as the dict of those images, keys in order. */
  lemma MapRoundTrip<V>(m: OrderedMap<V>, f: V --> Py, g: V --> Py, kind: Kind)
    requires m.Valid()
    requires forall k :: k in m.values ==> f.requires(m.values[k]) && g.requires(m.values[k])
    requires forall k :: k in m.values ==> ToObject(f(m.values[k])).Ok?
    requires forall k :: k in m.values ==>
      FromObject(ToObject(f(m.values[k])).value, RecordOf(kind)) == Ok(g(m.values[k]))
    ensures ToObject(MapPy(m, f)).Ok?
    ensures DictOf(ToObject(MapPy(m, f)).value, kind) == Ok(MapPy(m, g))
  {
    MapObject(m, f);
    FromEntriesAll(ConvertedMap(m, f), kind, MapPy(m, g).entries);
  }

  /** A float array comes back from its list as the same array. */
  lemma FloatsRoundTrip(data: seq<real>)
    ensures ToObject(PArray(data)) == Ok(FloatList(data))
    ensures FromObject(FloatList(data), ArrayType) == Ok(PArray(data))
  {
    var items := FloatList(data).items;
    assert seq(|items|, i requires 0 <= i < |items| => items[i].f) == data;
  }

  /** The list `to_object` makes of a `(name, array)` pair. */
  function ArrayPairObject(p: (string, seq<real>)): Py { PList([PStr(p.0), FloatList(p.1)]) }

  lemma ArrayPairRoundTrip(p: (string, seq<real>))
    ensures ToObject(ArrayPair(p)) == Ok(ArrayPairObject(p))
    ensures FromObject(ArrayPairObject(p), TupleType) == Ok(ArrayPair(p))
  {
    FloatsRoundTrip(p.1);
    var ps := [PStr(p.0), PArray(p.1)];
    ToObjectsOk(ps);
    ToObjectsAt(ps, 0);
    ToObjectsAt(ps, 1);
    assert ToObjects(ps).value == [PStr(p.0), FloatList(p.1)];
  }

  /** A string pair serialises to the list form whether built as a tuple or
      not. */
  lemma StrPairObject(p: (string, string), built: bool)
    ensures ToObject(StrPair(p, built)) == Ok(StrPair(p, false))
  {
    var ps := [PStr(p.0), PStr(p.1)];
    ToObjectsOk(ps);
    ToObjectsAt(ps, 0);
    ToObjectsAt(ps, 1);
    assert ToObjects(ps).value == ps;
  }

  lemma StrListObject(xs: seq<string>, built: bool)
    ensures ToObject(StrList(xs, built)) == Ok(StrList(xs, false))
  {
    var items := StrList(xs, false).items;
    assert IsPlain(StrList(xs, false));
    PlainFixed(StrList(xs, false));
    if built {
      forall i | 0 <= i < |items| ensures ToObject(items[i]) == Ok(items[i]) {
      }
      forall i | 0 <= i < |items| ensures ToObjects(items).value[i] == items[i] {
        ToObjectsAt(items, i);
      }
      assert ToObjects(items).value == items;
    }
  }

  lemma MaterialPairRoundTrip(mp: Option<(string, string)>, built: bool)
    ensures ToObject(MaterialPairPy(mp, built)) == Ok(MaterialPairPy(mp, false))
  {
    if mp.Some? {
      StrPairObject(mp.value, built);
    }
  }

  /** An object comes back with every attribute, its shape and material
      pairs as lists. */
  lemma ObjectRoundTrip(o: ObjectData, built: bool)
    ensures ToObject(ObjectPy(o, built)).Ok?
    ensures FromObject(ToObject(ObjectPy(o, built)).value, RecordOf(ObjectKind)) == Ok(ObjectPy(o, false))
  {
    var material := MaterialPairPy(o.materialPair, built);
    var material' := MaterialPairPy(o.materialPair, false);
    var vals := [PStr(o.name), StrPair(o.shapePair, built), material, ArrayPair(o.colorPair),
                 ArrayPair(o.scalePair), PoseArray(o.pose)];
    var outs := [PStr(o.name), StrPair(o.shapePair, false), material', ArrayPair(o.colorPair),
                 ArrayPair(o.scalePair), PoseArray(o.pose)];
    var objs := [PStr(o.name), StrPair(o.shapePair, false), material', ArrayPairObject(o.colorPair),
                 ArrayPairObject(o.scalePair), FloatList(PoseSeq(o.pose))];
    StrPairObject(o.shapePair, built);
    MaterialPairRoundTrip(o.materialPair, built);
    ArrayPairRoundTrip(o.colorPair);
    ArrayPairRoundTrip(o.scalePair);
    FloatsRoundTrip(PoseSeq(o.pose));
    var ds := Decodings(ObjectKind);
    forall i | 0 <= i < 6
      ensures ToObject(vals[i]) == Ok(objs[i])
      ensures FieldValue(ds[i], objs[i]) == Ok(outs[i])
    {
      if i < 3 {
        assert ds[i] == Assign && objs[i] == outs[i];
      } else if i < 5 {
        assert ds[i] == ArrayTuple;
      } else {
        assert ds[i] == Array;
      }
    }
    RecordRoundTrip(ObjectKind, vals, objs, outs);
  }

  lemma CameraRoundTrip(c: CameraData)
    ensures ToObject(CameraPy(c)).Ok?
    ensures FromObject(ToObject(CameraPy(c)).value, RecordOf(CameraKind)) == Ok(CameraPy(c))
  {
    var vals := [PStr(c.name), PoseArray(c.pose)];
    FloatsRoundTrip(PoseSeq(c.pose));
    RecordRoundTrip(CameraKind, vals, [PStr(c.name), FloatList(PoseSeq(c.pose))], vals);
  }

  lemma LightRoundTrip(l: LightData)
    ensures ToObject(LightPy(l)).Ok?
    ensures FromObject(ToObject(LightPy(l)).value, RecordOf(LightKind)) == Ok(LightPy(l))
  {
    var vals := [PStr(l.name), PStr(l.lightType), PFloat(l.energy), PoseArray(l.pose)];
    FloatsRoundTrip(PoseSeq(l.pose));
    RecordRoundTrip(LightKind, vals, [PStr(l.name), PStr(l.lightType), PFloat(l.energy), FloatList(PoseSeq(l.pose))], vals);
  }

  /** Every value in the entries is JSON-shaped. */
  ghost predicate AllPlain(es: seq<(string, Py)>)
  {
    forall i :: 0 <= i < |es| ==> IsPlain(es[i].1)
  }

  lemma MapPlain<V>(m: OrderedMap<V>, f: V -> Py)
    requires m.Valid()
    requires forall k :: k in m.values ==> IsPlain(f(m.values[k]))
    ensures IsPlain(MapPy(m, f))
  {
    var es := MapPy(m, f).entries;
    assert forall i :: 0 <= i < |es| ==> es[i].1 == f(m.values[m.keys[i]]);
  }

  lemma CategoryPlain<V>(key: string, category: Option<OrderedMap<V>>, f: V -> Py)
    requires category.Some? ==> category.value.Valid()
    requires forall v :: IsPlain(f(v))
    ensures AllPlain(Category(key, category, f))
  {
    if category.Some? {
      MapPlain(category.value, f);
    }
  }

  lemma AllPlainConcat(a: seq<(string, Py)>, b: seq<(string, Py)>)
    requires AllPlain(a) && AllPlain(b)
    ensures AllPlain(a + b)
  {
    forall i | 0 <= i < |a + b| ensures IsPlain((a + b)[i].1) {
      if i >= |a| {
        assert (a + b)[i] == b[i - |a|];
      }
    }
  }

  /** The properties dict is JSON-shaped, so `to_object` and `from_object`
      both pass it through unchanged. */
  lemma CatalogPlain(c: Catalog)
    requires CatalogValid(c)
    ensures ToObject(CatalogPy(c)) == Ok(CatalogPy(c))
  {
    CategoryPlain("colors", c.colors, IntList);
    CategoryPlain("sizes", c.sizes, RealList);
    CategoryPlain("materials", c.materials, StrPy);
    CategoryPlain("shapes", c.shapes, StrPy);
    var pr := PoseRangeEntries(c.poseRange);
    if c.poseRange.Some? {
      var t := c.poseRange.value;
      assert forall i :: 0 <= i < |t| ==> IsPlain(RealTable(t).items[i]);
      assert IsPlain(pr[0].1);
    }
    var a := Category("colors", c.colors, IntList);
    var b := Category("sizes", c.sizes, RealList);
    var m := Category("materials", c.materials, StrPy);
    var sh := Category("shapes", c.shapes, StrPy);
    AllPlainConcat(a, b);
    AllPlainConcat(a + b, m);
    AllPlainConcat(a + b + m, sh);
    AllPlainConcat(a + b + m + sh, pr);
    PlainFixed(CatalogPy(c));
  }

  /** The objects of a scene round-trip one by one. */
  lemma ObjectsRoundTrip(m: OrderedMap<ObjectData>, built: bool)
    requires m.Valid()
    ensures ToObject(MapPy(m, ObjectEncoder(built))).Ok?
    ensures DictOf(ToObject(MapPy(m, ObjectEncoder(built))).value, ObjectKind) == Ok(MapPy(m, ObjectEncoder(false)))
  {
    forall k | k in m.values
      ensures ToObject(ObjectPy(m.values[k], built)).Ok?
      ensures FromObject(ToObject(ObjectPy(m.values[k], built)).value, RecordOf(ObjectKind)) == Ok(ObjectPy(m.values[k], false))
    {
      ObjectRoundTrip(m.values[k], built);
    }
    MapRoundTrip(m, ObjectEncoder(built), ObjectEncoder(false), ObjectKind);
  }

  lemma CamerasRoundTrip(m: OrderedMap<CameraData>)
    requires m.Valid()
    ensures ToObject(MapPy(m, CameraPy)).Ok?
    ensures DictOf(ToObject(MapPy(m, CameraPy)).value, CameraKind) == Ok(MapPy(m, CameraPy))
  {
    forall k | k in m.values
      ensures ToObject(CameraPy(m.values[k])).Ok?
      ensures FromObject(ToObject(CameraPy(m.values[k])).value, RecordOf(CameraKind)) == Ok(CameraPy(m.values[k]))
    {
      CameraRoundTrip(m.values[k]);
    }
    MapRoundTrip(m, CameraPy, CameraPy, CameraKind);
  }

  lemma LightsRoundTrip(m: OrderedMap<LightData>)
    requires m.Valid()
    ensures ToObject(MapPy(m, LightPy)).Ok?
    ensures DictOf(ToObject(MapPy(m, LightPy)).value, LightKind) == Ok(MapPy(m, LightPy))
  {
    forall k | k in m.values
      ensures ToObject(LightPy(m.values[k])).Ok?
      ensures FromObject(ToObject(LightPy(m.values[k])).value, RecordOf(LightKind)) == Ok(LightPy(m.values[k]))
    {
      LightRoundTrip(m.values[k]);
    }
    MapRoundTrip(m, LightPy, LightPy, LightKind);
  }

  /** The plain attributes of a scene pass through `to_object` unchanged. */
  lemma SceneHeadFixed(s: SceneData)
    requires CatalogValid(s.properties)
    ensures forall i :: 0 <= i < 6 ==> ToObject(SceneHead(s)[i]) == Ok(SceneHead(s)[i])
  {
    var h := SceneHead(s);
    CatalogPlain(s.properties);
    assert ToObject(h[1]) == Ok(h[1]) by { if s.resetScene.Some? { assert h[1] == PBool(s.resetScene.value); } }
    assert ToObject(h[2]) == Ok(h[2]) by { if s.baseSceneBlendfile.Some? { assert h[2] == PStr(s.baseSceneBlendfile.value); } }
  }

  /** A scene comes back with every attribute, its catalogue unchanged and
      its objects, cameras and lights decoded under the same names in the
      same order. */
  lemma SceneRoundTrip(s: SceneData, built: bool)
    requires SceneValid(s)
    ensures ToObject(ScenePy(s, built)).Ok?
    ensures FromObject(ToObject(ScenePy(s, built)).value, RecordOf(SceneKind)) == Ok(ScenePy(s, false))
  {
    var head := SceneHead(s);
    var os := MapPy(s.objects, ObjectEncoder(built));
    var cs := MapPy(s.cameras, CameraPy);
    var ls := MapPy(s.lights, LightPy);
    var vals := head + [os, cs, ls];
    SceneHeadFixed(s);
    ObjectsRoundTrip(s.objects, built);
    CamerasRoundTrip(s.cameras);
    LightsRoundTrip(s.lights);
    var objs := head + [ToObject(os).value, ToObject(cs).value, ToObject(ls).value];
    var outs := head + [MapPy(s.objects, ObjectEncoder(false)), cs, ls];
    var ds := Decodings(SceneKind);
    forall i | 0 <= i < 9
      ensures ToObject(vals[i]) == Ok(objs[i])
      ensures FieldValue(ds[i], objs[i]) == Ok(outs[i])
    {
      if i < 6 {
        assert vals[i] == objs[i] == outs[i] == head[i];
        assert ds[i] == Assign;
      } else if i == 6 {
        assert ds[i] == EntityDict(ObjectKind);
      } else if i == 7 {
        assert ds[i] == EntityDict(CameraKind);
      } else {
        assert ds[i] == EntityDict(LightKind);
      }
    }
    RecordRoundTrip(SceneKind, vals, objs, outs);
  }

  lemma ScenesRoundTrip(m: OrderedMap<SceneData>, built: bool)
    requires m.Valid()
    requires forall k :: k in m.values ==> SceneValid(m.values[k])
    ensures ToObject(MapPy(m, SceneEncoder(built))).Ok?
    ensures DictOf(ToObject(MapPy(m, SceneEncoder(built))).value, SceneKind) == Ok(MapPy(m, SceneEncoder(false)))
  {
    forall k | k in m.values
      ensures ToObject(ScenePy(m.values[k], built)).Ok?
      ensures FromObject(ToObject(ScenePy(m.values[k], built)).value, RecordOf(SceneKind)) == Ok(ScenePy(m.values[k], false))
    {
      SceneRoundTrip(m.values[k], built);
    }
    MapRoundTrip(m, SceneEncoder(built), SceneEncoder(false), SceneKind);
  }

  /** Saving a render job and loading it back gives the same job: every
      attribute, every scene and every entity under its own name, in its
      own order. The only change is that tuples built in memory come back
      as lists (`modes`, and the `shape_pair`/`material_pair` of objects). */
  lemma RenderRoundTrip(r: RenderData, built: bool)
    requires RenderValid(r)
    ensures ToObject(RenderPy(r, built)).Ok?
    ensures FromObject(ToObject(RenderPy(r, built)).value, RecordOf(RenderKind)) == Ok(RenderPy(r, false))
  {
    var head := RenderHead(r);
    var ms := StrList(r.modes, built);
    var ss := MapPy(r.scenes, SceneEncoder(built));
    var vals := head + [ms, ss];
    StrListObject(r.modes, built);
    ScenesRoundTrip(r.scenes, built);
    var objs := head + [StrList(r.modes, false), ToObject(ss).value];
    var outs := head + [StrList(r.modes, false), MapPy(r.scenes, SceneEncoder(false))];
    var ds := Decodings(RenderKind);
    forall i | 0 <= i < 11
      ensures ToObject(vals[i]) == Ok(objs[i])
      ensures FieldValue(ds[i], objs[i]) == Ok(outs[i])
    {
      if i < 10 {
        assert ds[i] == Assign;
      } else {
        assert ds[i] == EntityDict(SceneKind);
      }
    }
    RecordRoundTrip(RenderKind, vals, objs, outs);
  }

  /** A job whose tuples were built in memory is not the job that is loaded
      back: the round trip is exact only up to tuples becoming lists. */
  lemma BuiltTuplesBecomeLists(r: RenderData)
    requires RenderValid(r)
    ensures RenderPy(r, true) != RenderPy(r, false)
  {
    var a := RenderPy(r, true).fields;
    var b := RenderPy(r, false).fields;
    assert a[9].1 == StrList(r.modes, true);
    assert b[9].1 == StrList(r.modes, false);
  }
}
