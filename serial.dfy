/** `to_object` and `from_object` of `lib/data/render_data.py`: the
    conversion between the entity records and the JSON-shaped tree of
    `None`, strings, numbers, lists and dicts that is written to disk.
    Python values are a tagged tree; `to_object` is structural recursion
    over it, `from_object` rebuilds records by assigning attributes of an
    all-`None` record one by one. */
module Serial {
  import opened Common

  /** The record classes `to_object` recognises. */
  datatype Kind = RenderKind | SceneKind | ObjectKind | CameraKind | LightKind

  /** A Python value. A record's `fields` are its `__dict__` in attribute
      order; a dict's `entries` are its items in insertion order; an array
      is a one-dimensional float `numpy.ndarray`; `PForeign` is a value of
      any other type. */
  datatype Py =
    | PNone
    | PStr(s: string)
    | PBool(b: bool)
    | PInt(i: int)
    | PFloat(f: real)
    | PTuple(items: seq<Py>)
    | PList(items: seq<Py>)
    | PDict(entries: seq<(string, Py)>)
    | PArray(data: seq<real>)
    | PRecord(kind: Kind, fields: seq<(string, Py)>)
    | PForeign(typeName: string)

  /** The keys of a dict or the attribute names of a record, in order. */
  function Keys(es: seq<(string, Py)>): (ks: seq<string>)
    ensures |ks| == |es| && forall i :: 0 <= i < |es| ==> ks[i] == es[i].0
  {
    seq(|es|, i requires 0 <= i < |es| => es[i].0)
  }

  /** JSON-shaped data: only `None`, scalars, lists and dicts. */
  predicate IsPlain(v: Py)
  {
    match v
    case PNone => true
    case PStr(_) => true
    case PBool(_) => true
    case PInt(_) => true
    case PFloat(_) => true
    case PList(items) => forall i :: 0 <= i < |items| ==> IsPlain(items[i])
    case PDict(es) => forall i :: 0 <= i < |es| ==> IsPlain(es[i].1)
    case _ => false
  }

  /** Somewhere in the value sits an object of a type `to_object` does not
      handle. */
  predicate HasForeign(p: Py)
  {
    match p
    case PForeign(_) => true
    case PTuple(items) => exists i :: 0 <= i < |items| && HasForeign(items[i])
    case PList(items) => exists i :: 0 <= i < |items| && HasForeign(items[i])
    case PDict(es) => exists i :: 0 <= i < |es| && HasForeign(es[i].1)
    case PRecord(_, es) => exists i :: 0 <= i < |es| && HasForeign(es[i].1)
    case _ => false
  }

  /** `ndarray.tolist()` of a float array. */
  function FloatList(data: seq<real>): (v: Py)
    ensures v.PList? && |v.items| == |data|
  {
    PList(seq(|data|, i requires 0 <= i < |data| => PFloat(data[i])))
  }

  /** `to_object`: `None` and scalars are kept, tuples and lists become
      lists, dicts keep their keys in order, arrays become lists, a record
      becomes the dict of its attributes; any other type raises. What this
      promises is stated by `ToObjectFails`, `ToObjectPlain`,
      `ToObjectShape` and `PlainFixed` below. */
  function ToObject(p: Py): (r: Result<Py>)
    ensures p.PForeign? ==> r.Err?
    ensures r.Ok? && (p.PTuple? || p.PList?) ==> r.value.PList? && |r.value.items| == |p.items|
    ensures r.Ok? && (p.PDict? || p.PRecord?) ==> r.value.PDict?
    decreases p
  {
    match p
    case PNone => Ok(PNone)
    case PStr(_) => Ok(p)
    case PBool(_) => Ok(p)
    case PInt(_) => Ok(p)
    case PFloat(_) => Ok(p)
    case PTuple(items) =>
      (match ToObjects(items) case Ok(vs) => Ok(PList(vs)) case Err(m) => Err(m))
    case PList(items) =>
      (match ToObjects(items) case Ok(vs) => Ok(PList(vs)) case Err(m) => Err(m))
    case PDict(es) =>
      (match ToEntries(es) case Ok(vs) => Ok(PDict(vs)) case Err(m) => Err(m))
    case PArray(data) => Ok(FloatList(data))
    case PRecord(_, fields) =>
      (match ToEntries(fields) case Ok(vs) => Ok(PDict(vs)) case Err(m) => Err(m))
    case PForeign(t) => Err("unknown type " + t)
  }

  /** The list loop of `to_object`: the first failing element raises. */
  function ToObjects(ps: seq<Py>): (r: Result<seq<Py>>)
    ensures r.Ok? ==> |r.value| == |ps|
    decreases ps
  {
    if ps == [] then Ok([])
    else match ToObject(ps[0])
      case Err(m) => Err(m)
      case Ok(v) =>
        match ToObjects(ps[1..])
        case Err(m) => Err(m)
        case Ok(vs) => Ok([v] + vs)
  }

  /** The dict loop of `to_object`: keys are kept, values converted. */
  function ToEntries(es: seq<(string, Py)>): (r: Result<seq<(string, Py)>>)
    ensures r.Ok? ==> |r.value| == |es|
    decreases es
  {
    if es == [] then Ok([])
    else
      assert es[0].1 < es[0];
      match ToObject(es[0].1)
      case Err(m) => Err(m)
      case Ok(v) =>
        match ToEntries(es[1..])
        case Err(m) => Err(m)
        case Ok(vs) => Ok([(es[0].0, v)] + vs)
  }

  /** The list loop succeeds exactly when every element converts. */
  lemma {:induction false} ToObjectsOk(ps: seq<Py>)
    ensures ToObjects(ps).Ok? <==> forall i :: 0 <= i < |ps| ==> ToObject(ps[i]).Ok?
    decreases ps
  {
    if ps != [] {
      ToObjectsOk(ps[1..]);
      assert forall i :: 1 <= i < |ps| ==> ps[i] == ps[1..][i - 1];
    }
  }

  /** The dict loop succeeds exactly when every value converts. */
  lemma {:induction false} ToEntriesOk(es: seq<(string, Py)>)
    ensures ToEntries(es).Ok? <==> forall i :: 0 <= i < |es| ==> ToObject(es[i].1).Ok?
    decreases es
  {
    if es != [] {
      ToEntriesOk(es[1..]);
      assert forall i :: 1 <= i < |es| ==> es[i] == es[1..][i - 1];
    }
  }

  /** Element `i` of a converted list is the conversion of element `i`. */
  lemma {:induction false} ToObjectsAt(ps: seq<Py>, i: nat)
    requires ToObjects(ps).Ok? && i < |ps|
    ensures ToObject(ps[i]) == Ok(ToObjects(ps).value[i])
    decreases ps
  {
    if i > 0 {
      ToObjectsAt(ps[1..], i - 1);
    }
  }

  /** Entry `i` of a converted dict is entry `i`'s key with its value
      converted. */
  lemma {:induction false} ToEntriesAt(es: seq<(string, Py)>, i: nat)
    requires ToEntries(es).Ok? && i < |es|
    ensures ToEntries(es).value[i].0 == es[i].0 && ToObject(es[i].1) == Ok(ToEntries(es).value[i].1)
    decreases es
  {
    if i > 0 {
      ToEntriesAt(es[1..], i - 1);
    }
  }

  /** `to_object` raises exactly when the value holds, at any depth, an
      object of a type it does not handle. */
  lemma {:induction false} ToObjectFails(p: Py)
    ensures ToObject(p).Err? <==> HasForeign(p)
    decreases p
  {
    match p
    case PTuple(items) =>
      ToObjectsOk(items);
      forall i | 0 <= i < |items| ensures ToObject(items[i]).Err? <==> HasForeign(items[i]) {
        ToObjectFails(items[i]);
      }
    case PList(items) =>
      ToObjectsOk(items);
      forall i | 0 <= i < |items| ensures ToObject(items[i]).Err? <==> HasForeign(items[i]) {
        ToObjectFails(items[i]);
      }
    case PDict(es) =>
      ToEntriesOk(es);
      forall i | 0 <= i < |es| ensures ToObject(es[i].1).Err? <==> HasForeign(es[i].1) {
        assert es[i].1 < es[i];
        ToObjectFails(es[i].1);
      }
    case PRecord(_, es) =>
      ToEntriesOk(es);
      forall i | 0 <= i < |es| ensures ToObject(es[i].1).Err? <==> HasForeign(es[i].1) {
        assert es[i].1 < es[i];
        ToObjectFails(es[i].1);
      }
    case _ =>
  }

  /** What `to_object` returns is JSON-shaped. */
  lemma {:induction false} ToObjectPlain(p: Py)
    requires ToObject(p).Ok?
    ensures IsPlain(ToObject(p).value)
    decreases p
  {
    match p
    case PTuple(items) =>
      forall i | 0 <= i < |items| ensures IsPlain(ToObjects(items).value[i]) {
        ToObjectsAt(items, i);
        ToObjectPlain(items[i]);
      }
    case PList(items) =>
      forall i | 0 <= i < |items| ensures IsPlain(ToObjects(items).value[i]) {
        ToObjectsAt(items, i);
        ToObjectPlain(items[i]);
      }
    case PDict(es) =>
      forall i | 0 <= i < |es| ensures IsPlain(ToEntries(es).value[i].1) {
        ToEntriesAt(es, i);
        assert es[i].1 < es[i];
        ToObjectPlain(es[i].1);
      }
    case PRecord(_, es) =>
      forall i | 0 <= i < |es| ensures IsPlain(ToEntries(es).value[i].1) {
        ToEntriesAt(es, i);
        assert es[i].1 < es[i];
        ToObjectPlain(es[i].1);
      }
    case _ =>
  }

  /** The shape `to_object` gives each kind of value: `None` and scalars
      unchanged, tuples and lists as lists of the same length, dicts with
      the same keys in the same order, arrays as lists of their floats,
      records as the dict of their attributes in attribute order. */
  lemma ToObjectShape(p: Py)
    requires ToObject(p).Ok?
    ensures var v := ToObject(p).value;
      && ((p.PNone? || p.PStr? || p.PBool? || p.PInt? || p.PFloat?) ==> v == p)
      && ((p.PTuple? || p.PList?) ==> v.PList? && |v.items| == |p.items|)
      && (p.PDict? ==> v.PDict? && Keys(v.entries) == Keys(p.entries))
      && (p.PRecord? ==> v.PDict? && Keys(v.entries) == Keys(p.fields))
      && (p.PArray? ==> v == FloatList(p.data))
  {
    if p.PDict? || p.PRecord? {
      var es := if p.PDict? then p.entries else p.fields;
      forall i | 0 <= i < |es| ensures ToEntries(es).value[i].0 == es[i].0 {
        ToEntriesAt(es, i);
      }
    }
  }

  /** A dict, or a record, all of whose values convert converts to the dict
      of the converted entries. */
  lemma EntriesToObject(es: seq<(string, Py)>, kind: Kind)
    requires forall i :: 0 <= i < |es| ==> ToObject(es[i].1).Ok?
    ensures ToEntries(es).Ok?
    ensures ToObject(PDict(es)) == Ok(PDict(ToEntries(es).value))
    ensures ToObject(PRecord(kind, es)) == Ok(PDict(ToEntries(es).value))
  {
    ToEntriesOk(es);
  }

  /** Data that is already JSON-shaped comes out of `to_object` unchanged;
      so `to_object` is idempotent. */
  lemma {:induction false} PlainFixed(v: Py)
    requires IsPlain(v)
    ensures ToObject(v) == Ok(v)
    decreases v
  {
    match v
    case PList(items) =>
      forall i | 0 <= i < |items| ensures ToObject(items[i]) == Ok(items[i]) {
        PlainFixed(items[i]);
      }
      ToObjectsOk(items);
      var vs := ToObjects(items).value;
      forall i | 0 <= i < |items| ensures vs[i] == items[i] {
        ToObjectsAt(items, i);
      }
      assert vs == items;
    case PDict(es) =>
      forall i | 0 <= i < |es| ensures ToObject(es[i].1) == Ok(es[i].1) {
        assert es[i].1 < es[i];
        PlainFixed(es[i].1);
      }
      ToEntriesOk(es);
      var vs := ToEntries(es).value;
      forall i | 0 <= i < |es| ensures vs[i] == es[i] {
        ToEntriesAt(es, i);
      }
      assert vs == es;
    case _ =>
  }

  /** Converting twice is converting once. */
  lemma ToObjectIdempotent(p: Py)
    requires ToObject(p).Ok?
    ensures ToObject(ToObject(p).value) == ToObject(p)
  {
    ToObjectPlain(p);
    PlainFixed(ToObject(p).value);
  }

  // ---------------------------------------------------------------------
  // from_object

  /** The type argument of `from_object`: one of the record classes,
      `tuple`, `numpy.ndarray`, or anything else. */
  datatype Target = RecordOf(kind: Kind) | TupleType | ArrayType | OtherType(name: string)

  /** The attribute names of each record class, in constructor order. */
  function FieldCount(kind: Kind): nat
  {
    match kind
    case RenderKind => 11
    case SceneKind => 9
    case ObjectKind => 6
    case CameraKind => 2
    case LightKind => 4
  }

  function FieldNames(kind: Kind): (names: seq<string>)
    ensures |names| == FieldCount(kind)
  {
    match kind
    case RenderKind => ["name", "output_dir", "width", "height", "render_tile_size", "device_type",
                        "render_num_samples", "render_min_bounces", "render_max_bounces", "modes",
                        "scenes_data"]
    case SceneKind => ["name", "reset_scene", "base_scene_blendfile", "properties", "shape_dir",
                       "material_dir", "objects_data", "cameras_data", "lights_data"]
    case ObjectKind => ["name", "shape_pair", "material_pair", "color_pair", "scale_pair", "pose"]
    case CameraKind => ["name", "pose"]
    case LightKind => ["name", "type", "energy", "pose"]
  }

  /** `empty()` of each class: every argument `None`. The render's
      constructor also starts `scenes_data` as `{}`. */
  function EmptyFields(kind: Kind): (fs: seq<(string, Py)>)
    ensures Keys(fs) == FieldNames(kind)
  {
    var names := FieldNames(kind);
    seq(|names|, i requires 0 <= i < |names| =>
      (names[i], if kind == RenderKind && names[i] == "scenes_data" then PDict([]) else PNone))
  }

  /** `obj.__setattr__(name, v)`: an existing attribute keeps its place in
      `__dict__`, a new one goes last. */
  function SetAttr(fields: seq<(string, Py)>, name: string, v: Py): (r: seq<(string, Py)>)
    ensures (name, v) in r
    ensures (forall j :: 0 <= j < |fields| ==> fields[j].0 != name) ==> r == fields + [(name, v)]
    ensures (exists j :: 0 <= j < |fields| && fields[j].0 == name) ==> |r| == |fields|
  {
    if fields == [] then [(name, v)]
    else if fields[0].0 == name then [(name, v)] + fields[1..]
    else [fields[0]] + SetAttr(fields[1..], name, v)
  }

  /** Assigning the first attribute of that name replaces it in place. */
  lemma {:induction false} SetAttrAt(fields: seq<(string, Py)>, name: string, v: Py, i: nat)
    requires i < |fields| && fields[i].0 == name
    requires forall j :: 0 <= j < i ==> fields[j].0 != name
    ensures SetAttr(fields, name, v) == fields[i := (name, v)]
  {
    if i > 0 {
      SetAttrAt(fields[1..], name, v, i - 1);
      assert [fields[0]] + fields[1..][i - 1 := (name, v)] == fields[i := (name, v)];
    }
  }

  /** How `from_object` treats one attribute: assigned as it is, decoded
      as a dict of entities, as a `(name, array)` tuple, or as an array. */
  datatype Decoding = Assign | EntityDict(of: Kind) | ArrayTuple | Array

  /** The branch of `from_object` an attribute name takes: the nested entity
      dicts are decoded entry by entry, colour and scale pairs as tuples,
      poses as arrays; everything else is assigned as it is. */
  function DecodingOf(kind: Kind, name: string): Decoding
  {
    if kind == RenderKind && name == "scenes_data" then EntityDict(SceneKind)
    else if kind == SceneKind && name == "objects_data" then EntityDict(ObjectKind)
    else if kind == SceneKind && name == "lights_data" then EntityDict(LightKind)
    else if kind == SceneKind && name == "cameras_data" then EntityDict(CameraKind)
    else if kind == ObjectKind && (name == "color_pair" || name == "scale_pair") then ArrayTuple
    else if kind != RenderKind && kind != SceneKind && name == "pose" then Array
    else Assign
  }

  /** The branch each attribute of a class takes, in attribute order. */
  function Decodings(kind: Kind): (ds: seq<Decoding>)
    ensures |ds| == FieldCount(kind)
  {
    match kind
    case RenderKind => seq(10, _ => Assign) + [EntityDict(SceneKind)]
    case SceneKind => seq(6, _ => Assign) + [EntityDict(ObjectKind), EntityDict(CameraKind), EntityDict(LightKind)]
    case ObjectKind => [Assign, Assign, Assign, ArrayTuple, ArrayTuple, Array]
    case CameraKind => [Assign, Array]
    case LightKind => [Assign, Assign, Assign, Array]
  }

  lemma DecodingsAgree(kind: Kind)
    ensures forall i :: 0 <= i < |FieldNames(kind)| ==> DecodingOf(kind, FieldNames(kind)[i]) == Decodings(kind)[i]
  {
  }

  /** The value an attribute is set to. */
  function FieldValue(d: Decoding, v: Py): (r: Result<Py>)
    decreases v, 1
  {
    match d
    case Assign => Ok(v)
    case EntityDict(kind) => DictOf(v, kind)
    case ArrayTuple => FromObject(v, TupleType)
    case Array => FromObject(v, ArrayType)
  }

  /** `{key: from_object(v, kind) for key, v in value.items()}`. */
  function DictOf(v: Py, kind: Kind): (r: Result<Py>)
    decreases v, 0
  {
    if !v.PDict? then Err("AttributeError: 'items'")
    else match FromEntries(v.entries, kind)
      case Ok(es) => Ok(PDict(es))
      case Err(m) => Err(m)
  }

  function FromEntries(es: seq<(string, Py)>, kind: Kind): (r: Result<seq<(string, Py)>>)
    decreases es, 0
  {
    if es == [] then Ok([])
    else
      assert es[0].1 < es[0];
      match FromObject(es[0].1, RecordOf(kind))
      case Err(m) => Err(m)
      case Ok(v) =>
        match FromEntries(es[1..], kind)
        case Err(m) => Err(m)
        case Ok(vs) => Ok([(es[0].0, v)] + vs)
  }

  /** The decoded value of every item of the input dict, in order. */
  function FieldValues(kind: Kind, es: seq<(string, Py)>): (vs: seq<Result<Py>>)
    ensures |vs| == |es|
    decreases es, 0
  {
    seq(|es|, i requires 0 <= i < |es| => assert es[i].1 < es[i]; FieldValue(DecodingOf(kind, es[i].0), es[i].1))
  }

  /** The attribute loop of `from_object`: assigns the items in order; the
      first item whose value fails to decode raises. */
  function AssignAll(fields: seq<(string, Py)>, names: seq<string>, vals: seq<Result<Py>>): (r: Result<seq<(string, Py)>>)
    requires |names| == |vals|
    decreases names
  {
    if names == [] then Ok(fields)
    else match vals[0]
      case Err(m) => Err(m)
      case Ok(v) => AssignAll(SetAttr(fields, names[0], v), names[1..], vals[1..])
  }

  /** `from_object(input, type)`. A record is built from `empty()` by
      assigning every item of the input dict; a tuple is `(input[0],
      numpy.array(input[1]))`; an array is `numpy.array(input)`; any other
      type raises. */
  function FromObject(v: Py, t: Target): (r: Result<Py>)
    ensures t.OtherType? ==> r.Err?
    ensures r.Ok? && t.RecordOf? ==> r.value.PRecord? && r.value.kind == t.kind
    ensures r.Ok? && t.TupleType? ==> r.value.PTuple? && |r.value.items| == 2
    ensures r.Ok? && t.ArrayType? ==> r.value.PArray?
    decreases v, 0
  {
    match t
    case RecordOf(kind) =>
      if !v.PDict? then Err("AttributeError: 'items'")
      else (match AssignAll(EmptyFields(kind), Keys(v.entries), FieldValues(kind, v.entries))
        case Ok(fs) => Ok(PRecord(kind, fs))
        case Err(m) => Err(m))
    case TupleType =>
      if !v.PList? || |v.items| < 2 then Err("IndexError: tuple input")
      else (match FromObject(v.items[1], ArrayType)
        case Ok(a) => Ok(PTuple([v.items[0], a]))
        case Err(m) => Err(m))
    case ArrayType =>
      if v.PList? && forall i :: 0 <= i < |v.items| ==> v.items[i].PFloat? then
        Ok(PArray(seq(|v.items|, i requires 0 <= i < |v.items| => v.items[i].f)))
      else Err("numpy.array input outside the model")
    case OtherType(n) => Err("unknown type " + n)
  }

  /** A dict whose every value decodes decodes entry by entry, keys kept. */
  lemma {:induction false} FromEntriesAll(es: seq<(string, Py)>, kind: Kind, out: seq<(string, Py)>)
    requires |out| == |es|
    requires forall i :: 0 <= i < |es| ==> out[i].0 == es[i].0 && FromObject(es[i].1, RecordOf(kind)) == Ok(out[i].1)
    ensures FromEntries(es, kind) == Ok(out)
    decreases es
  {
    if es != [] {
      FromEntriesAll(es[1..], kind, out[1..]);
      assert out == [(es[0].0, out[0].1)] + out[1..];
    }
  }

  /** Attribute names are pairwise different. */
  ghost predicate DistinctNames(fields: seq<(string, Py)>)
  {
    forall a, b :: 0 <= a < b < |fields| ==> fields[a].0 != fields[b].0
  }

  /** Assigning, in order, the remaining attribute names `fields[j..]`
      replaces each of those attributes in place and keeps the first `j`. */
  lemma {:induction false} AssignMatching(fields: seq<(string, Py)>, names: seq<string>, vals: seq<Result<Py>>,
                                          j: nat, out: seq<Py>)
    requires |fields| == j + |names| && DistinctNames(fields)
    requires forall k :: j <= k < |fields| ==> fields[k].0 == names[k - j]
    requires |vals| == |names| == |out|
    requires forall i :: 0 <= i < |names| ==> vals[i] == Ok(out[i])
    ensures AssignAll(fields, names, vals).Ok?
    ensures var r := AssignAll(fields, names, vals).value;
      && |r| == |fields|
      && (forall i :: 0 <= i < j ==> r[i] == fields[i])
      && (forall k :: j <= k < |fields| ==> r[k] == (names[k - j], out[k - j]))
    decreases names
  {
    if names != [] {
      SetAttrAt(fields, names[0], out[0], j);
      var next := fields[j := (names[0], out[0])];
      assert AssignAll(fields, names, vals) == AssignAll(next, names[1..], vals[1..]);
      AssignMatching(next, names[1..], vals[1..], j + 1, out[1..]);
      var r := AssignAll(next, names[1..], vals[1..]).value;
      forall k | j <= k < |fields| ensures r[k] == (names[k - j], out[k - j]) {
        if k > j {
          assert r[k] == (names[1..][k - (j + 1)], out[1..][k - (j + 1)]);
        }
      }
    }
  }

  /** The entries pairing `names[i]` with `vals[i]`. */
  function Zip(names: seq<string>, vals: seq<Py>): (es: seq<(string, Py)>)
    requires |names| == |vals|
    ensures |es| == |names|
  {
    seq(|vals|, i requires 0 <= i < |vals| => (names[i], vals[i]))
  }

  /** Assigning every attribute, in attribute order, gives the record that
      holds the assigned values. */
  lemma AssignAllNames(fields: seq<(string, Py)>, names: seq<string>, vals: seq<Result<Py>>, outs: seq<Py>)
    requires DistinctNames(fields) && names == Keys(fields)
    requires |vals| == |outs| == |fields|
    requires forall i :: 0 <= i < |vals| ==> vals[i] == Ok(outs[i])
    ensures AssignAll(fields, names, vals) == Ok(Zip(names, outs))
  {
    AssignMatching(fields, names, vals, 0, outs);
    var r := AssignAll(fields, names, vals).value;
    assert r == Zip(names, outs);
  }
}
