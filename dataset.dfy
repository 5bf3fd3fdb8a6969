/** The behaviour-cloning dataset: one sample per (render, scene, camera)
    whose scene has a successor, and for each sample the action that moves
    the cap and the bottle from this scene's poses to the next scene's,
    expressed in the camera's frame. */
module Dataset {
  import opened Common
  import opened Names
  import opened Rigid

  /** What the dataset reads of one scene of a render's JSON: its cameras
      and objects, each a name with its pose, in insertion order. */
  datatype SceneEntry = SceneEntry(name: string, cameras: seq<(string, Pose)>, objects: seq<(string, Pose)>)

  /** One render group of the HDF5 file: its name and its scenes in order. */
  datatype RenderEntry = RenderEntry(name: string, scenes: seq<SceneEntry>)

  /** `(render_name, scene_name, camera_name)`. */
  datatype Key = Key(render: string, scene: string, camera: string)

  const CapName: string := "swell_cap_0"
  const BottleName: string := "swell_bottle_0"

  /** The keys of one scene, one per camera in order. */
  function CameraKeys(render: string, s: SceneEntry): (ks: seq<Key>)
    ensures |ks| == |s.cameras|
  {
    seq(|s.cameras|, c requires 0 <= c < |s.cameras| => Key(render, s.name, s.cameras[c].0))
  }

  /** The keys of a run of scenes, scene by scene. */
  function ScenesKeys(render: string, ss: seq<SceneEntry>): seq<Key>
  {
    if ss == [] then [] else ScenesKeys(render, ss[..|ss| - 1]) + CameraKeys(render, ss[|ss| - 1])
  }

  /** The scenes that have a successor: all but the last. */
  function Kept(ss: seq<SceneEntry>): seq<SceneEntry>
  {
    if ss == [] then [] else ss[..|ss| - 1]
  }

  function RenderKeys(r: RenderEntry): seq<Key> { ScenesKeys(r.name, Kept(r.scenes)) }

  /** `self.keys` for a file: renders in order, and within each render
      every kept scene with every camera. */
  function AllKeys(rs: seq<RenderEntry>): seq<Key>
  {
    if rs == [] then [] else AllKeys(rs[..|rs| - 1]) + RenderKeys(rs[|rs| - 1])
  }

  /** The key of camera `c` of scene `s` of render `a`. */
  function KeyOf(rs: seq<RenderEntry>, a: nat, s: nat, c: nat): Key
    requires a < |rs| && s < |rs[a].scenes| && c < |rs[a].scenes[s].cameras|
  {
    Key(rs[a].name, rs[a].scenes[s].name, rs[a].scenes[s].cameras[c].0)
  }

  lemma CameraKeysPrefix(render: string, s: SceneEntry, c: nat)
    requires c < |s.cameras|
    ensures CameraKeys(render, s)[..c + 1] == CameraKeys(render, s)[..c] + [Key(render, s.name, s.cameras[c].0)]
  {
  }

  lemma ScenesKeysStep(render: string, ss: seq<SceneEntry>, j: nat)
    requires j < |ss|
    ensures ScenesKeys(render, ss[..j + 1]) == ScenesKeys(render, ss[..j]) + CameraKeys(render, ss[j])
  {
    assert ss[..j + 1][..j] == ss[..j];
  }

  lemma AllKeysStep(rs: seq<RenderEntry>, i: nat)
    requires i < |rs|
    ensures AllKeys(rs[..i + 1]) == AllKeys(rs[..i]) + RenderKeys(rs[i])
  {
    assert rs[..i + 1][..i] == rs[..i];
  }

  /** Every camera of every scene but the last of a run has its key. */
  lemma {:induction false} ScenesKeyPresent(render: string, ss: seq<SceneEntry>, s: nat, c: nat)
    requires s < |ss| && c < |ss[s].cameras|
    ensures Key(render, ss[s].name, ss[s].cameras[c].0) in ScenesKeys(render, ss)
    decreases |ss|
  {
    var init := ss[..|ss| - 1];
    if s == |ss| - 1 {
      assert CameraKeys(render, ss[s])[c] == Key(render, ss[s].name, ss[s].cameras[c].0);
    } else {
      assert init[s] == ss[s];
      ScenesKeyPresent(render, init, s, c);
    }
  }

  /** Every key of a run of scenes comes from one of its scenes and one of
      that scene's cameras. */
  lemma {:induction false} ScenesKeyOrigin(render: string, ss: seq<SceneEntry>, i: nat)
    requires i < |ScenesKeys(render, ss)|
    ensures exists s, c :: (0 <= s < |ss| && 0 <= c < |ss[s].cameras| &&
                            ScenesKeys(render, ss)[i] == Key(render, ss[s].name, ss[s].cameras[c].0))
    decreases |ss|
  {
    var init := ss[..|ss| - 1];
    var head := ScenesKeys(render, init);
    if i < |head| {
      ScenesKeyOrigin(render, init, i);
      var s, c :| 0 <= s < |init| && 0 <= c < |init[s].cameras| && head[i] == Key(render, init[s].name, init[s].cameras[c].0);
      assert init[s] == ss[s];
    } else {
      var c := i - |head|;
      assert ScenesKeys(render, ss)[i] == CameraKeys(render, ss[|ss| - 1])[c];
    }
  }

  /** The key of every camera of every scene that has a successor is in
      `self.keys`. */
  lemma {:induction false} KeyPresent(rs: seq<RenderEntry>, a: nat, s: nat, c: nat)
    requires a < |rs| && s + 1 < |rs[a].scenes| && c < |rs[a].scenes[s].cameras|
    ensures KeyOf(rs, a, s, c) in AllKeys(rs)
    decreases |rs|
  {
    var init := rs[..|rs| - 1];
    if a == |rs| - 1 {
      var kept := Kept(rs[a].scenes);
      assert kept[s] == rs[a].scenes[s];
      ScenesKeyPresent(rs[a].name, kept, s, c);
    } else {
      assert init[a] == rs[a];
      KeyPresent(init, a, s, c);
    }
  }

  /** Every key names a render, one of its scenes other than the last, and
      one of that scene's cameras: the last scene of a render never yields
      a sample. */
  lemma {:induction false} KeyOrigin(rs: seq<RenderEntry>, i: nat)
    requires i < |AllKeys(rs)|
    ensures exists a, s, c :: (0 <= a < |rs| && 0 <= s && s + 1 < |rs[a].scenes| && 0 <= c < |rs[a].scenes[s].cameras| &&
                               AllKeys(rs)[i] == KeyOf(rs, a, s, c))
    decreases |rs|
  {
    var init := rs[..|rs| - 1];
    var head := AllKeys(init);
    if i < |head| {
      KeyOrigin(init, i);
      var a, s, c :| 0 <= a < |init| && 0 <= s && s + 1 < |init[a].scenes| && 0 <= c < |init[a].scenes[s].cameras| &&
        head[i] == KeyOf(init, a, s, c);
      assert init[a] == rs[a];
      assert AllKeys(rs)[i] == KeyOf(rs, a, s, c);
    } else {
      var a := |rs| - 1;
      var kept := Kept(rs[a].scenes);
      ScenesKeyOrigin(rs[a].name, kept, i - |head|);
      var s, c :| 0 <= s < |kept| && 0 <= c < |kept[s].cameras| &&
        ScenesKeys(rs[a].name, kept)[i - |head|] == Key(rs[a].name, kept[s].name, kept[s].cameras[c].0);
      assert kept[s] == rs[a].scenes[s];
      assert AllKeys(rs)[i] == KeyOf(rs, a, s, c);
    }
  }

  /** Every scene of the run has `cameras` cameras. */
  ghost predicate CamerasEach(ss: seq<SceneEntry>, cameras: nat)
  {
    forall s :: 0 <= s < |ss| ==> |ss[s].cameras| == cameras
  }

  /** Every render has `scenes` scenes of `cameras` cameras each. */
  ghost predicate Uniform(rs: seq<RenderEntry>, scenes: nat, cameras: nat)
  {
    forall a :: 0 <= a < |rs| ==> |rs[a].scenes| == scenes && CamerasEach(rs[a].scenes, cameras)
  }

  lemma {:induction false} ScenesKeysCount(render: string, ss: seq<SceneEntry>, cameras: nat)
    requires CamerasEach(ss, cameras)
    ensures |ScenesKeys(render, ss)| == |ss| * cameras
    decreases |ss|
  {
    if ss != [] {
      var init := ss[..|ss| - 1];
      assert CamerasEach(init, cameras) by {
        forall s | 0 <= s < |init| ensures |init[s].cameras| == cameras { assert init[s] == ss[s]; }
      }
      ScenesKeysCount(render, init, cameras);
      assert |ScenesKeys(render, ss)| == (|ss| - 1) * cameras + cameras;
    }
  }

  /** With `r` renders of `s >= 1` scenes and `c` cameras each there are
      `r * (s - 1) * c` keys. */
  lemma {:induction false} UniformKeyCount(rs: seq<RenderEntry>, scenes: nat, cameras: nat)
    requires scenes >= 1 && Uniform(rs, scenes, cameras)
    ensures |AllKeys(rs)| == |rs| * ((scenes - 1) * cameras)
    decreases |rs|
  {
    if rs != [] {
      var init := rs[..|rs| - 1];
      var last := rs[|rs| - 1];
      assert Uniform(init, scenes, cameras) by {
        forall a | 0 <= a < |init| ensures |init[a].scenes| == scenes && CamerasEach(init[a].scenes, cameras) {
          assert init[a] == rs[a];
        }
      }
      UniformKeyCount(init, scenes, cameras);
      var kept := Kept(last.scenes);
      assert CamerasEach(kept, cameras) by {
        forall s | 0 <= s < |kept| ensures |kept[s].cameras| == cameras { assert kept[s] == last.scenes[s]; }
      }
      ScenesKeysCount(last.name, kept, cameras);
      var per := (scenes - 1) * cameras;
      assert |kept| == scenes - 1;
      assert |RenderKeys(last)| == per;
      assert |AllKeys(rs)| == |AllKeys(init)| + per;
      assert (|rs| - 1) * per + per == |rs| * per;
    }
  }

  /** `seq[i]` with Python's reading of negative indices; `None` is the
      `IndexError`. */
  function PyIndex<T>(s: seq<T>, i: int): (r: Option<T>)
    ensures r.Some? <==> -|s| <= i < |s|
    ensures 0 <= i < |s| ==> r == Some(s[i])
    ensures -|s| <= i < 0 ==> r == Some(s[|s| + i])
  {
    if 0 <= i < |s| then Some(s[i]) else if -|s| <= i < 0 then Some(s[|s| + i]) else None
  }

  /** `d[k]` on a dict kept as its items; `None` is the `KeyError`. */
  function Lookup<T>(es: seq<(string, T)>, k: string): (r: Option<T>)
    ensures r.None? <==> forall i :: 0 <= i < |es| ==> es[i].0 != k
    ensures r.Some? ==> exists i :: 0 <= i < |es| && es[i] == (k, r.value)
  {
    if es == [] then None
    else if es[0].0 == k then Some(es[0].1)
    else
      var r := Lookup(es[1..], k);
      assert forall i :: 1 <= i < |es| ==> es[i] == es[1..][i - 1];
      r
  }

  function RenderEntryName(r: RenderEntry): string { r.name }

  function SceneEntryName(s: SceneEntry): string { s.name }

  /** `h5f[name]` on an HDF5 group, or `data[name]` on a JSON dict, kept as
      its members in order: the first member called `name`, or `None` for
      the `KeyError`. */
  function Find<T>(xs: seq<T>, nameOf: T -> string, name: string): (r: Option<T>)
    ensures r.Some? ==> r.value in xs && nameOf(r.value) == name
    ensures r.None? ==> forall i :: 0 <= i < |xs| ==> nameOf(xs[i]) != name
  {
    if xs == [] then None
    else if nameOf(xs[0]) == name then Some(xs[0])
    else
      var r := Find(xs[1..], nameOf, name);
      assert forall i :: 1 <= i < |xs| ==> xs[i] == xs[1..][i - 1];
      r
  }

  /** What `__getitem__` returns, less the two images. */
  datatype Sample = Sample(subgoal: nat, action: seq<real>, currPose: seq<real>, nextPose: seq<real>, cameraPose: seq<real>)

  function QuatSeq(q: Quat): seq<real> { [q.w, q.v.x, q.v.y, q.v.z] }

  /** `cameraTworld @ worldTp`: the pose `p` seen from the camera. */
  function CameraFrame(camera: Pose, p: Pose, rot: Rotations): Transform
  {
    Compose(PoseEulerToInvT(camera, rot.euler), PoseEulerToT(p, rot.euler))
  }

  /** The 7-float action for one object: the translation from the current
      to the next pose in the camera's frame, then the quaternion of the
      relative rotation with its vector part turned by the rotation block of
      `cameraTcurr`. */
  function ObjectAction(camera: Pose, curr: Pose, next: Pose, rot: Rotations): (a: seq<real>)
    ensures |a| == 7
  {
    var cameraTcurr := CameraFrame(camera, curr, rot);
    var cameraTnext := CameraFrame(camera, next, rot);
    var currTnext := Compose(PoseEulerToInvT(curr, rot.euler), PoseEulerToT(next, rot.euler));
    var t := Sub(cameraTnext.trans, cameraTcurr.trans);
    var q := rot.toQuat(currTnext.rot);
    Vec3ToSeq(t) + QuatSeq(Quat(q.w, MulV(cameraTcurr.rot, q.v)))
  }

  /** The sample of one key, or the exception `__getitem__` raises. The
      images at lines 76-77 are not modelled; what the model keeps of them
      is that both scenes must hold the camera. */
  function SampleOfKey(file: seq<RenderEntry>, key: Key, rot: Rotations): (r: Result<Sample>)
    ensures ParseInt(key.scene).None? ==> r == Err("ValueError: invalid literal for int()")
    ensures Find(file, RenderEntryName, key.render).None? ==> r.Err?
    ensures r.Ok? ==> |r.value.action| == 14 && |r.value.currPose| == 12 && |r.value.nextPose| == 12
                      && |r.value.cameraPose| == 6
  {
    match ParseInt(key.scene)
    case None => Err("ValueError: invalid literal for int()")
    case Some(n) =>
      var next := SceneName(n + 1);
      match Find(file, RenderEntryName, key.render)
      case None => Err("KeyError: " + key.render)
      case Some(r) =>
        match (Find(r.scenes, SceneEntryName, key.scene), Find(r.scenes, SceneEntryName, next))
        case (None, _) => Err("KeyError: " + key.scene)
        case (_, None) => Err("KeyError: " + next)
        case (Some(cur), Some(nxt)) =>
          match (Lookup(cur.cameras, key.camera), Lookup(nxt.cameras, key.camera))
          case (None, _) => Err("KeyError: " + key.camera)
          case (_, None) => Err("KeyError: " + key.camera)
          case (Some(camera), Some(_)) =>
            match (Lookup(cur.objects, CapName), Lookup(nxt.objects, CapName),
                   Lookup(cur.objects, BottleName), Lookup(nxt.objects, BottleName))
            case (Some(capCurr), Some(capNext), Some(bottleCurr), Some(bottleNext)) =>
              Ok(Sample((n + 1) / 10,
                        ObjectAction(camera, capCurr, capNext, rot) + ObjectAction(camera, bottleCurr, bottleNext, rot),
                        PoseSeq(capCurr) + PoseSeq(bottleCurr),
                        PoseSeq(capNext) + PoseSeq(bottleNext),
                        PoseSeq(camera)))
            case _ => Err("KeyError: objects_data")
  }

  /** `__getitem__(item)`: the key at `indices[item]`, then its sample. */
  function SampleAt(file: seq<RenderEntry>, keys: seq<Key>, indices: seq<int>, item: int, rot: Rotations): (r: Result<Sample>)
    ensures !(-|indices| <= item < |indices|) ==> r == Err("IndexError: list index out of range")
    ensures 0 <= item < |indices| && !(-|keys| <= indices[item] < |keys|) ==> r == Err("IndexError: list index out of range")
    ensures 0 <= item < |indices| && 0 <= indices[item] < |keys| ==> r == SampleOfKey(file, keys[indices[item]], rot)
  {
    match PyIndex(indices, item)
    case None => Err("IndexError: list index out of range")
    case Some(idx) =>
      match PyIndex(keys, idx)
      case None => Err("IndexError: list index out of range")
      case Some(key) => SampleOfKey(file, key, rot)
  }

  /** A 6-float array read back as a pose. */
  function PoseOfSeq(s: seq<real>): Pose
    requires |s| == 6
  {
    Pose(s[0], s[1], s[2], s[3], s[4], s[5])
  }

  lemma PoseSeqInverse(p: Pose)
    ensures PoseOfSeq(PoseSeq(p)) == p
  {
  }

  /** The translation part of the action is the displacement from the
      current to the next position, rotated into the camera's frame:
      `R_cam^T (t_next - t_curr)`. The camera's own position cancels, for
      any rotation library. */
  lemma ActionTranslation(camera: Pose, curr: Pose, next: Pose, rot: Rotations)
    ensures ObjectAction(camera, curr, next, rot)[..3]
         == Vec3ToSeq(MulV(Transpose(rot.euler(Angles(camera))), Sub(Translation(next), Translation(curr))))
  {
    var rct := Transpose(rot.euler(Angles(camera)));
    MulVSub(rct, Translation(next), Translation(curr));
  }

  /** The rotation part is the quaternion of `R_curr^T R_next`, the next
      orientation seen from the current one; its scalar part is kept and
      its vector part is rotated by `R_cam^T R_curr`. */
  lemma ActionRotation(camera: Pose, curr: Pose, next: Pose, rot: Rotations)
    ensures var q := rot.toQuat(Mul(Transpose(rot.euler(Angles(curr))), rot.euler(Angles(next))));
      ObjectAction(camera, curr, next, rot)[3..]
        == QuatSeq(Quat(q.w, MulV(Mul(Transpose(rot.euler(Angles(camera))), rot.euler(Angles(curr))), q.v)))
  {
  }

  /** A sample holds the two objects' poses, cap then bottle, and its
      14-float action is the cap's action followed by the bottle's, each
      computed from the camera pose and the poses in the sample. */
  lemma SampleLayout(file: seq<RenderEntry>, key: Key, rot: Rotations)
    requires SampleOfKey(file, key, rot).Ok?
    ensures var smp := SampleOfKey(file, key, rot).value;
      |smp.action| == 14 && |smp.currPose| == 12 && |smp.nextPose| == 12 && |smp.cameraPose| == 6 &&
      smp.action[..7] == ObjectAction(PoseOfSeq(smp.cameraPose), PoseOfSeq(smp.currPose[..6]), PoseOfSeq(smp.nextPose[..6]), rot) &&
      smp.action[7..] == ObjectAction(PoseOfSeq(smp.cameraPose), PoseOfSeq(smp.currPose[6..]), PoseOfSeq(smp.nextPose[6..]), rot)
  {
    var smp := SampleOfKey(file, key, rot).value;
    var n := ParseInt(key.scene).value;
    var r := Find(file, RenderEntryName, key.render).value;
    var cur := Find(r.scenes, SceneEntryName, key.scene).value;
    var nxt := Find(r.scenes, SceneEntryName, SceneName(n + 1)).value;
    var camera := Lookup(cur.cameras, key.camera).value;
    var cc, cn := Lookup(cur.objects, CapName).value, Lookup(nxt.objects, CapName).value;
    var bc, bn := Lookup(cur.objects, BottleName).value, Lookup(nxt.objects, BottleName).value;
    var capAction, bottleAction := ObjectAction(camera, cc, cn, rot), ObjectAction(camera, bc, bn, rot);
    assert smp == Sample((n + 1) / 10, capAction + bottleAction, PoseSeq(cc) + PoseSeq(bc),
                         PoseSeq(cn) + PoseSeq(bn), PoseSeq(camera));
    assert smp.action[..7] == capAction && smp.action[7..] == bottleAction;
    assert smp.currPose[..6] == PoseSeq(cc) && smp.currPose[6..] == PoseSeq(bc);
    assert smp.nextPose[..6] == PoseSeq(cn) && smp.nextPose[6..] == PoseSeq(bn);
    PoseSeqInverse(camera);
    PoseSeqInverse(cc);
    PoseSeqInverse(cn);
    PoseSeqInverse(bc);
    PoseSeqInverse(bn);
  }

  /** For the key of scene `i` the subgoal is `(i + 1) // 10`: the stage of
      the next scene of a 10-step trajectory, 0, 1 or 2 for scenes 0 to 28. */
  lemma SubgoalOfScene(file: seq<RenderEntry>, key: Key, rot: Rotations, i: nat)
    requires key.scene == SceneName(i)
    requires SampleOfKey(file, key, rot).Ok?
    ensures SampleOfKey(file, key, rot).value.subgoal == (i + 1) / 10
    ensures i <= 28 ==> SampleOfKey(file, key, rot).value.subgoal <= 2
  {
    ParseSceneName(i);
  }

  /** A scene name that does not parse as an integer raises `ValueError`. */
  lemma BadSceneName(file: seq<RenderEntry>, key: Key, rot: Rotations)
    requires ParseInt(key.scene).None?
    ensures SampleOfKey(file, key, rot) == Err("ValueError: invalid literal for int()")
  {
  }

  /** The innermost loop of `__init__`: one key per camera of a scene, in
      camera order, appended to `ks`. */
  method AppendCameraKeys(ks: seq<Key>, render: string, s: SceneEntry) returns (r: seq<Key>)
    ensures r == ks + CameraKeys(render, s)
  {
    r := ks;
    var c := 0;
    while c < |s.cameras|
      invariant 0 <= c <= |s.cameras|
      invariant r == ks + CameraKeys(render, s)[..c]
    {
      CameraKeysPrefix(render, s, c);
      r := r + [Key(render, s.name, s.cameras[c].0)];
      c := c + 1;
    }
    assert CameraKeys(render, s)[..c] == CameraKeys(render, s);
  }

  /** The dataset object. `file` is the content of the HDF5 file at `path`;
      `h5Open` records whether `self.h5f` has been opened yet. */
  class BCData {
    const file: seq<RenderEntry>
    var keys: seq<Key>
    var indices: seq<int>
    var h5Open: bool

    /** `__init__`: enumerates the keys render by render, scene by scene
        (stopping before the last scene) and camera by camera. */
    constructor (file: seq<RenderEntry>, indices: seq<int>)
      ensures this.file == file && this.indices == indices && !h5Open
      ensures keys == AllKeys(file)
    {
      var ks: seq<Key> := [];
      var i := 0;
      while i < |file|
        invariant 0 <= i <= |file|
        invariant ks == AllKeys(file[..i])
      {
        var r := file[i];
        var j := 0;
        while j < |r.scenes|
          invariant 0 <= j <= |r.scenes| && (j < |r.scenes| || |r.scenes| == 0)
          invariant ks == AllKeys(file[..i]) + ScenesKeys(r.name, r.scenes[..j])
        {
          if j == |r.scenes| - 1 {
            break;
          }
          ks := AppendCameraKeys(ks, r.name, r.scenes[j]);
          ScenesKeysStep(r.name, r.scenes, j);
          j := j + 1;
        }
        assert r.scenes[..j] == Kept(r.scenes);
        AllKeysStep(file, i);
        i := i + 1;
      }
      assert file[..i] == file;
      this.file := file;
      this.keys := ks;
      this.indices := indices;
      this.h5Open := false;
    }

    /** `__len__`: the number of indices the dataset was given, not the
        number of keys. */
    function Len(): (n: nat)
      reads this
      ensures n == |indices|
    {
      |indices|
    }

    /** `enumerate(data)` asks for items 0, 1, ... until one raises
        `IndexError`: with indices that all name a key, every item below
        `Len()` is the sample of its key and item `Len()` is the one that
        raises, so the loop visits exactly the indexed samples. */
    lemma EnumerateStopsAtLen(rot: Rotations)
      requires forall j :: 0 <= j < |indices| ==> 0 <= indices[j] < |keys|
      ensures forall item :: 0 <= item < Len() ==>
        SampleAt(file, keys, indices, item, rot) == SampleOfKey(file, keys[indices[item]], rot)
      ensures SampleAt(file, keys, indices, Len(), rot) == Err("IndexError: list index out of range")
    {
      forall item | 0 <= item < Len()
        ensures SampleAt(file, keys, indices, item, rot) == SampleOfKey(file, keys[indices[item]], rot)
      {
        assert 0 <= indices[item] < |keys|;
      }
    }

    /** `__getitem__`: opens the file on first use, then reads one sample. */
    method GetItem(item: int, rot: Rotations) returns (r: Result<Sample>)
      modifies this
      ensures h5Open && keys == old(keys) && indices == old(indices)
      ensures r == SampleAt(file, keys, indices, item, rot)
    {
      if !h5Open {
        h5Open := true;
      }
      r := SampleAt(file, keys, indices, item, rot);
    }
  }
}
