/** NOCS colouring: each mesh's loops are coloured by the position of their
    vertex inside the mesh's bounding box (normalised to the unit cube),
    and meshes that are flat along some axis get a plain emission material
    instead. The Blender mesh is a sequence of vertex positions and, per
    loop, the index of its vertex; the colour layer is an array with one
    colour per loop. */
module Nocs {
  import opened Common
  import opened Names
  import opened Entities

  /** Blender guarantees that every loop names one of the mesh's vertices. */
  ghost predicate LoopsValid(verts: seq<Vec3>, loops: seq<nat>)
  {
    forall i :: 0 <= i < |loops| ==> loops[i] < |verts|
  }

  function Min(a: real, b: real): real { if a <= b then a else b }
  function Max(a: real, b: real): real { if a >= b then a else b }

  /** `numpy.minimum` and `numpy.maximum` of two 3-vectors. */
  function Min3(a: Vec3, b: Vec3): Vec3 { Vec3(Min(a.x, b.x), Min(a.y, b.y), Min(a.z, b.z)) }
  function Max3(a: Vec3, b: Vec3): Vec3 { Vec3(Max(a.x, b.x), Max(a.y, b.y), Max(a.z, b.z)) }

  /** `min_coord` after scanning the loops: it starts at the origin. */
  function MinCorner(verts: seq<Vec3>, loops: seq<nat>): Vec3
    requires LoopsValid(verts, loops)
  {
    if loops == [] then Zero3() else Min3(MinCorner(verts, loops[..|loops| - 1]), verts[loops[|loops| - 1]])
  }

  /** `max_coord` after scanning the loops: it starts at the origin. */
  function MaxCorner(verts: seq<Vec3>, loops: seq<nat>): Vec3
    requires LoopsValid(verts, loops)
  {
    if loops == [] then Zero3() else Max3(MaxCorner(verts, loops[..|loops| - 1]), verts[loops[|loops| - 1]])
  }

  /** The box always contains the origin. */
  lemma {:induction false} CornersStraddleOrigin(verts: seq<Vec3>, loops: seq<nat>, a: nat)
    requires LoopsValid(verts, loops) && a < 3
    ensures Coord(MinCorner(verts, loops), a) <= 0.0 <= Coord(MaxCorner(verts, loops), a)
    decreases |loops|
  {
    if loops != [] {
      CornersStraddleOrigin(verts, loops[..|loops| - 1], a);
    }
  }

  /** Every loop's vertex lies in the box. */
  lemma {:induction false} CornersContain(verts: seq<Vec3>, loops: seq<nat>, i: nat, a: nat)
    requires LoopsValid(verts, loops) && i < |loops| && a < 3
    ensures Coord(MinCorner(verts, loops), a) <= Coord(verts[loops[i]], a) <= Coord(MaxCorner(verts, loops), a)
    decreases |loops|
  {
    if i < |loops| - 1 {
      var init := loops[..|loops| - 1];
      assert init[i] == loops[i];
      CornersContain(verts, init, i, a);
    }
  }

  /** The box is the smallest such: each face is the origin or touches a
      loop's vertex. */
  lemma {:induction false} CornersAttained(verts: seq<Vec3>, loops: seq<nat>, a: nat)
    requires LoopsValid(verts, loops) && a < 3
    ensures Coord(MinCorner(verts, loops), a) == 0.0 ||
            exists i :: 0 <= i < |loops| && Coord(verts[loops[i]], a) == Coord(MinCorner(verts, loops), a)
    ensures Coord(MaxCorner(verts, loops), a) == 0.0 ||
            exists i :: 0 <= i < |loops| && Coord(verts[loops[i]], a) == Coord(MaxCorner(verts, loops), a)
    decreases |loops|
  {
    if loops != [] {
      var init := loops[..|loops| - 1];
      CornersAttained(verts, init, a);
      forall i | 0 <= i < |init| ensures init[i] == loops[i] { }
    }
  }

  lemma CornersStep(verts: seq<Vec3>, loops: seq<nat>, k: nat)
    requires LoopsValid(verts, loops) && k < |loops|
    ensures LoopsValid(verts, loops[..k]) && LoopsValid(verts, loops[..k + 1])
    ensures MinCorner(verts, loops[..k + 1]) == Min3(MinCorner(verts, loops[..k]), verts[loops[k]])
    ensures MaxCorner(verts, loops[..k + 1]) == Max3(MaxCorner(verts, loops[..k]), verts[loops[k]])
  {
    assert loops[..k + 1][..k] == loops[..k];
  }

  /** The first loop of `get_vertex_color_layer`: the bounding box of the
      loops' vertices, grown from the origin. */
  method BoundingBox(verts: seq<Vec3>, loops: seq<nat>) returns (lo: Vec3, hi: Vec3)
    requires LoopsValid(verts, loops)
    ensures lo == MinCorner(verts, loops) && hi == MaxCorner(verts, loops)
  {
    lo, hi := Zero3(), Zero3();
    var k := 0;
    while k < |loops|
      invariant 0 <= k <= |loops| && LoopsValid(verts, loops[..k])
      invariant lo == MinCorner(verts, loops[..k]) && hi == MaxCorner(verts, loops[..k])
    {
      var co := verts[loops[k]];
      CornersStep(verts, loops, k);
      hi := Max3(hi, co);
      lo := Min3(lo, co);
      k := k + 1;
    }
    assert loops[..k] == loops;
  }

  /** Some axis of the box has zero extent. */
  predicate Flat(lo: Vec3, hi: Vec3) { hi.x - lo.x == 0.0 || hi.y - lo.y == 0.0 || hi.z - lo.z == 0.0 }

  /** An RGBA colour of the layer. */
  datatype Color = Color(r: real, g: real, b: real, a: real)

  /** `(co - min_coord) / (max_coord - min_coord)` with alpha 1. */
  function NocsColor(co: Vec3, lo: Vec3, hi: Vec3): Color
    requires !Flat(lo, hi)
  {
    Color((co.x - lo.x) / (hi.x - lo.x), (co.y - lo.y) / (hi.y - lo.y), (co.z - lo.z) / (hi.z - lo.z), 1.0)
  }

  ghost predicate InUnit(c: Color)
  {
    0.0 <= c.r <= 1.0 && 0.0 <= c.g <= 1.0 && 0.0 <= c.b <= 1.0 && c.a == 1.0
  }

  lemma RatioInUnit(v: real, lo: real, hi: real)
    requires lo <= v <= hi && lo < hi
    ensures 0.0 <= (v - lo) / (hi - lo) <= 1.0
  {
    var d := hi - lo;
    var r := (v - lo) / d;
    assert r * d == v - lo;
    if r > 1.0 {
      assert r * d > 1.0 * d;
    }
  }

  /** Every loop of a mesh that is not flat gets a colour in the unit cube,
      with alpha 1. */
  lemma NocsColorInUnit(verts: seq<Vec3>, loops: seq<nat>, i: nat)
    requires LoopsValid(verts, loops) && i < |loops|
    requires !Flat(MinCorner(verts, loops), MaxCorner(verts, loops))
    ensures InUnit(NocsColor(verts[loops[i]], MinCorner(verts, loops), MaxCorner(verts, loops)))
  {
    var lo, hi, co := MinCorner(verts, loops), MaxCorner(verts, loops), verts[loops[i]];
    CornersContain(verts, loops, i, 0);
    CornersContain(verts, loops, i, 1);
    CornersContain(verts, loops, i, 2);
    RatioInUnit(co.x, lo.x, hi.x);
    RatioInUnit(co.y, lo.y, hi.y);
    RatioInUnit(co.z, lo.z, hi.z);
  }

  /** `get_vertex_color_layer`: `false` stands for the `None` returned for a
      flat mesh, which leaves the new layer as it was; otherwise every loop's
      entry is its NOCS colour. */
  method VertexColorLayer(verts: seq<Vec3>, loops: seq<nat>, layer: array<Color>) returns (ok: bool)
    requires LoopsValid(verts, loops) && layer.Length == |loops|
    modifies layer
    ensures ok <==> !Flat(MinCorner(verts, loops), MaxCorner(verts, loops))
    ensures !ok ==> layer[..] == old(layer[..])
    ensures ok ==> forall i :: 0 <= i < |loops| ==>
      layer[i] == NocsColor(verts[loops[i]], MinCorner(verts, loops), MaxCorner(verts, loops))
  {
    var lo, hi := BoundingBox(verts, loops);
    if Flat(lo, hi) {
      return false;
    }
    var k := 0;
    while k < |loops|
      invariant 0 <= k <= |loops|
      invariant forall i :: 0 <= i < k ==> layer[i] == NocsColor(verts[loops[i]], lo, hi)
    {
      layer[k] := NocsColor(verts[loops[k]], lo, hi);
      k := k + 1;
    }
    return true;
  }

  /** An object of the Blender scene: whether it is a mesh, and its mesh. */
  datatype SceneObject = SceneObject(isMesh: bool, verts: seq<Vec3>, loops: seq<nat>)

  ghost predicate ObjectsValid(objects: seq<SceneObject>)
  {
    forall i :: 0 <= i < |objects| ==> LoopsValid(objects[i].verts, objects[i].loops)
  }

  function FlatMesh(o: SceneObject): bool
    requires LoopsValid(o.verts, o.loops)
  {
    Flat(MinCorner(o.verts, o.loops), MaxCorner(o.verts, o.loops))
  }

  const EmissionPrefix: string := "emission_material"
  const NocsPrefix: string := "nocs_material"

  /** `get_emission_material` / `get_nocs_material` name the new material
      `{prefix}_{count}`, counting the existing materials whose names start
      with the prefix. */
  function MaterialName(prefix: string, materials: seq<string>): string
  {
    prefix + "_" + Decimal(CountPrefixed(materials, prefix))
  }

  /** The prefix of the material an object gets: emission for a flat mesh,
      NOCS otherwise. */
  function MaterialPrefix(o: SceneObject): string
    requires LoopsValid(o.verts, o.loops)
  {
    if FlatMesh(o) then EmissionPrefix else NocsPrefix
  }

  /** `blend_nocs` over the objects in order: for each, its only (and
      active) material, `None` for an object that is not a mesh, and the
      material names of the file afterwards. */
  function Blend(objects: seq<SceneObject>, materials: seq<string>): (r: (seq<Option<string>>, seq<string>))
    requires ObjectsValid(objects)
    ensures |r.0| == |objects|
  {
    if objects == [] then ([], materials)
    else
      var init := objects[..|objects| - 1];
      assert ObjectsValid(init) by { forall i | 0 <= i < |init| ensures init[i] == objects[i] { } }
      var prev := Blend(init, materials);
      var o := objects[|objects| - 1];
      if !o.isMesh then (prev.0 + [None], prev.1)
      else
        var name := MaterialName(MaterialPrefix(o), prev.1);
        (prev.0 + [Some(name)], prev.1 + [name])
  }

  /** `blend_nocs`: the object loop, each mesh's colour layer written into
      its own fresh layer. */
  method BlendNocs(objects: seq<SceneObject>, materials0: seq<string>) returns (chosen: seq<Option<string>>, materials: seq<string>)
    requires ObjectsValid(objects)
    ensures (chosen, materials) == Blend(objects, materials0)
  {
    chosen, materials := [], materials0;
    var k := 0;
    while k < |objects|
      invariant 0 <= k <= |objects| && ObjectsValid(objects[..k])
      invariant (chosen, materials) == Blend(objects[..k], materials0)
    {
      var o := objects[k];
      assert objects[..k + 1][..k] == objects[..k];
      assert ObjectsValid(objects[..k + 1]);
      if o.isMesh {
        var layer := new Color[|o.loops|](_ => Color(1.0, 1.0, 1.0, 1.0));
        var ok := VertexColorLayer(o.verts, o.loops, layer);
        var name := MaterialName(if ok then NocsPrefix else EmissionPrefix, materials);
        materials := materials + [name];
        chosen := chosen + [Some(name)];
      } else {
        chosen := chosen + [None];
      }
      k := k + 1;
    }
    assert objects[..k] == objects;
  }

  lemma BlendPrefix(objects: seq<SceneObject>, materials: seq<string>, k: nat)
    requires ObjectsValid(objects) && k <= |objects|
    ensures ObjectsValid(objects[..k])
    ensures Blend(objects[..k], materials).0 == Blend(objects, materials).0[..k]
    decreases |objects| - k
  {
    assert ObjectsValid(objects[..k]) by { forall i | 0 <= i < k ensures objects[..k][i] == objects[i] { } }
    if k < |objects| {
      BlendPrefix(objects, materials, k + 1);
      assert objects[..k + 1][..k] == objects[..k];
    } else {
      assert objects[..k] == objects;
    }
  }

  /** A material name starts with the emission prefix exactly when it was
      numbered under that prefix, and likewise for the NOCS prefix. */
  lemma MaterialNamePrefix(prefix: string, materials: seq<string>)
    requires prefix == EmissionPrefix || prefix == NocsPrefix
    ensures StartsWith(MaterialName(prefix, materials), EmissionPrefix) <==> prefix == EmissionPrefix
    ensures StartsWith(MaterialName(prefix, materials), NocsPrefix) <==> prefix == NocsPrefix
  {
    var name := MaterialName(prefix, materials);
    assert name[..|prefix|] == prefix;
    assert name[0] == prefix[0];
    if prefix == EmissionPrefix {
      assert !StartsWith(name, NocsPrefix) by { assert name[0] != NocsPrefix[0]; }
    } else {
      assert !StartsWith(name, EmissionPrefix) by { assert name[0] != EmissionPrefix[0]; }
    }
  }

  /** An object that is not a mesh gets nothing; a mesh gets the emission
      material exactly when it is flat along some axis, and the NOCS material
      otherwise. */
  lemma BlendChoice(objects: seq<SceneObject>, materials: seq<string>, i: nat)
    requires ObjectsValid(objects) && i < |objects|
    ensures var m := Blend(objects, materials).0[i];
      (m.None? <==> !objects[i].isMesh) &&
      (m.Some? ==> StartsWith(m.value, EmissionPrefix) == FlatMesh(objects[i]) &&
                   StartsWith(m.value, NocsPrefix) == !FlatMesh(objects[i]))
  {
    BlendPrefix(objects, materials, i + 1);
    var pre := objects[..i + 1];
    assert pre[..i] == objects[..i];
    assert pre[i] == objects[i];
    var ms := Blend(objects[..i], materials).1;
    var m := Blend(objects, materials).0[i];
    if objects[i].isMesh {
      var prefix := MaterialPrefix(objects[i]);
      assert m == Some(MaterialName(prefix, ms));
      MaterialNamePrefix(prefix, ms);
    }
  }

  /** The file's existing materials are all kept. The model lists materials
      in creation order, so they stay a prefix of the list; Blender itself
      lists `bpy.data.materials` by name. */
  lemma {:induction false} BlendKeepsMaterials(objects: seq<SceneObject>, materials: seq<string>)
    requires ObjectsValid(objects)
    ensures |materials| <= |Blend(objects, materials).1|
    ensures Blend(objects, materials).1[..|materials|] == materials
    decreases |objects|
  {
    if objects != [] {
      var init := objects[..|objects| - 1];
      assert ObjectsValid(init) by { forall i | 0 <= i < |init| ensures init[i] == objects[i] { } }
      BlendKeepsMaterials(init, materials);
    }
  }
}
