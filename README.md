# Scene, trajectory and behaviour-cloning data model

This project models the data side of a Blender-based pipeline. The pipeline
builds synthetic scenes, serialises them as JSON and turns the renders into
behaviour-cloning samples. The model covers:

- **Scene builders.**
  - The cap-on-bottle builder: a ground plane, `swell_cap_0`, `swell_bottle_0`, 18 orbit cameras and one light. It also builds a `3·N`-step trajectory that moves only the cap: two receding-horizon approaches, then a screw-down.
  - The CLEVR builder: one catalogue-drawn object, an 18-camera grid and `num_scenes` scenes from `start_idx`.
  - The discrete CLEVR builder: 64 scenes over a 4×4×4 grid of rotations.
- **Render records.**
  - `RenderData`/`SceneData`/`ObjectData`/`CameraData`/`LightData` as value datatypes.
  - Each name→entity dictionary is an `OrderedMap`: a key sequence plus a map, so insertion order is explicit.
  - `to_object`/`from_object` over a tagged tree of Python values (`Serial.Py`).
- **The behaviour-cloning dataset.**
  - `BCData` is a class whose key list is built by nested loops.
  - Python indexing semantics.
  - The subgoal and next-scene-name arithmetic.
  - The camera-frame action: translation plus quaternion, for the cap and the bottle.
  - 4×4 rigid transforms as (rotation, translation) blocks, with their inverse law.
- **The prediction script's ground-truth decode.**
  - `valid_indices`.
  - The decode that inverts the action encoding. It writes into the action buffer in place.
- **NOCS colouring.**
  - The bounding-box scan of `get_vertex_color_layer` and its per-loop normalisation into an array.
  - The choice between the NOCS and emission material in `blend_nocs`.

Three inputs are parameters:

- **Random draws.** Every `random.choice`, `random.uniform` and `numpy.random.uniform` is an explicit draw.
- **Rotation libraries.** Orbit positions (`mathutils` `Vector.rotate`), the stage-2 Euler composition, and pytorch3d's Euler, matrix and quaternion conversions are function-typed values. The latter form the `Rigid.Rotations` datatype. Orthonormality of a rotation matrix is a hypothesis (`Rigid.Orthonormal`) where a law needs it.
- **The working directory.** `os.path.abspath` depends on it, so it is a parameter.

Floats are modelled as exact `real`s. The interpolation results therefore hold exactly, where Python floats meet them only approximately.

`lib/blend.py:78` converts the stored degrees to radians for Blender, while `lib/dataset.py:29-42` passes the stored degrees unchanged to `euler_angles_to_matrix`; the model applies the rotation parameter to the stored angles.

## Model

| member | source | states |
|---|---|---|
| Entities.AbsPath | lib/data/render_data.py:14 | the output directory becomes absolute, and an absolute path is kept as it is |
| Entities.RenderFromArgs | lib/data/render_data.py:13-16 | `from_args` copies name, modes, device, size, tile size, samples and bounces from the arguments; makes `output_dir` absolute; starts with no scenes |
| Entities.SceneFromArgs | make_caps_onlycap.py:85-86 | a fresh scene carries the given name, reset flag and catalogue, has absolute shape and material directories, and no objects, cameras or lights |
| Entities.GroundObject | make_clevr.py:19-28 | the ground is named `ground`, has an all-zero pose, white RGBA (1,1,1,1), unit scale and the `solid` material |
| Entities.ColorPair | make_caps_onlycap.py:33 | a colour keeps its name and gains one channel (alpha) |
| Entities.ColorPairChannels | make_clevr.py:36-37 | each channel is the catalogue byte over 255 and alpha is 1.0, so every channel lies in [0,1] when the bytes are in [0,255] |
| Entities.Choose | make_clevr.py:32-41 | `random.choice` over a catalogue category succeeds exactly when the category exists and is non-empty, and returns the drawn key with its value; otherwise the KeyError or IndexError message |
| Entities.Pick | make_clevr.py:32-41 | a draw always selects an index inside an available category |
| Entities.PickCovers | make_clevr.py:32-41 | every key of a category can be drawn |
| Entities.DrawLook | make_clevr.py:32-42 | shape, colour, material and size come from the four categories; the call succeeds iff all four are available, and otherwise reports the first failing one |
| Entities.CountPrefixedNone | make_clevr.py:52-54 | with no existing name starting with the shape, the count is 0 |
| Entities.NameAfterGround | make_clevr.py:52-54 | after the ground alone, the object is `{shape}_0`, or `{shape}_1` when `ground` itself starts with the shape; it never collides with `ground` |
| Entities.GroundThenObject | make_clevr.py:93-97 | inserting the ground and then the object gives keys `[ground, name]` in that order |
| Entities.OrbitPose | make_clevr.py:60-69 | a camera pose has the orbit position at distance d and Euler angles (rx, ry, rz) |
| Entities.PointLight | make_clevr.py:72-87 | the light is `light_0`, of type POINT, with energy 1000, angles (rx, ry, rz) and the orbit position at distance 10 |
| Entities.Linspace | make_clevr.py:99-100 | `numpy.linspace` has n points starting at a and, for n ≥ 2, ending at b |
| Entities.SceneNamesInjective | make_clevr.py:114 | distinct scene indices give distinct dictionary keys |
| Entities.PaddedCameraNameInjective | make_caps_onlycap.py:56 | `cam{k:02d}` names are distinct |
| Entities.PlainCameraNameInjective | make_clevr.py:61 | `cam{k}` names are distinct |
| Entities.GridAnglesLength | make_clevr.py:99-102 | the nested angle loops produce rows × columns pairs |
| Entities.GridAnglesAt | make_clevr.py:99-102 | pair `i·cols + j` is `(rx[i], rz[j])`: outer loop first |
| Entities.CameraGridAt | make_clevr.py:99-102 | camera k of the grid is named `camName(k)` and sits at the orbit pose of its angle pair |
| Entities.GridCamerasAt | make_clevr.py:99-102 | the k-th inserted camera has the k-th name and the k-th pose |
| Entities.FillCameraRow | make_clevr.py:100-102 | the inner loop appends one camera per r_z angle, in order |
| Entities.FillCameraGrid | make_clevr.py:99-102 | the nested loops build exactly the camera grid |
| Names.ParseZeroPad | lib/dataset.py:74 | `int()` of a zero-padded number gives back the number |
| Names.ParseSceneName | lib/dataset.py:74 | parsing a scene name recovers its index |
| Names.ZeroPadInjective | make_caps_onlycap.py:112 | zero-padding to a fixed width is injective |
| Names.SceneNameInjective | make_clevr.py:114 | two scenes share a name only if they share an index |
| Names.NextOfSceneName | lib/dataset.py:74 | the next scene name of scene i is the name of scene i+1 |
| Names.DecimalValue | lib/dataset.py:74 | the decimal digits of n read back as n |
| Names.ZeroPadLength | make_caps_onlycap.py:112 | a number below 10^w pads to exactly w characters |
| Names.ZeroPad | make_caps_onlycap.py:112 | `f'{i:06d}'` gives only digits and at least the field width |
| CapsOnlyCap.GetObjectData | make_caps_onlycap.py:28-52 | the object gets `{shape}_{count}`, the drawn colour, scale 0.15, no material, position (x, y, rest height·0.75) and zero rotation; it fails iff there is no colour to draw |
| CapsOnlyCap.CapNamedFirst | make_caps_onlycap.py:47-49 | after the ground, the cap is named `swell_cap_0` |
| CapsOnlyCap.BottleNamedFirst | make_caps_onlycap.py:47-49 | after ground and cap, the bottle is named `swell_bottle_0` |
| CapsOnlyCap.PlaceObjects | make_caps_onlycap.py:88-94 | the scene holds `ground`, `swell_cap_0`, `swell_bottle_0` in that order, cap at z = 0.2796·0.75 and bottle at z = 1.3085·0.75, both at their drawn x and y, the cap upright; nothing else in the scene changes |
| CapsOnlyCap.RingAngles | make_caps_onlycap.py:96-97 | camera elevations are 60, 30, 0 |
| CapsOnlyCap.CapCameraAt | make_caps_onlycap.py:96-99 | camera k is `cam{k:02d}` with elevation `[60,30,0][k/6]` and azimuth `[0..300][k%6]`, at distance 10 |
| CapsOnlyCap.CapCamerasCount | make_caps_onlycap.py:96-99 | there are 18 cameras |
| CapsOnlyCap.CapCamerasLayout | make_caps_onlycap.py:96-99 | all 18 cameras are named and placed in loop order |
| CapsOnlyCap.GetSceneData | make_caps_onlycap.py:85-104 | the method builds the scene its specification describes |
| CapsOnlyCap.SceneLayout | make_caps_onlycap.py:85-104 | the scene has the given name and reset flag, the ground, cap and bottle in that order, the 18 cameras and the point light `light_0` at angles (45, 0, 45); it fails iff no colour is available |
| CapsOnlyCap.Goals | make_caps_onlycap.py:115-117 | both waypoints are above the bottle's x and y with zero rotation: hover at z = 1.3085·1.5·lift, seat at z = 1.3085·1.5 |
| CapsOnlyCap.HoverAboveSeat | make_caps_onlycap.py:116-117 | for lift ≥ 1.1 the hover waypoint is strictly above the seat |
| CapsOnlyCap.ApproachShrinks | make_caps_onlycap.py:122-123 | one interpolation step with divisor d scales the remaining gap by (d−1)/d on every component |
| CapsOnlyCap.ScrewStep | make_caps_onlycap.py:129-136 | a screw step lowers z by exactly 0.01, keeps x and y, and applies the Euler composition to the angles |
| CapsOnlyCap.StageOf | make_caps_onlycap.py:110-123 | the stage `i // N` is 0, 1 or 2 by the range of i, and the divisor `N − i mod N` is the number of steps left in the stage |
| CapsOnlyCap.CapReachesHover | make_caps_onlycap.py:118-123 | for N ≥ 2 the cap is exactly at the hover waypoint at step N−1 |
| CapsOnlyCap.CapReachesSeat | make_caps_onlycap.py:118-123 | for N ≥ 1 the cap is exactly at the seat waypoint at step 2N−1 |
| CapsOnlyCap.CapStaysUpright | make_caps_onlycap.py:118-123 | through the two approach stages the cap's rotation stays zero |
| CapsOnlyCap.CapCentred | make_caps_onlycap.py:115-136 | from step N−1 onward the cap stays at the bottle's x and y |
| CapsOnlyCap.CapPose | make_caps_onlycap.py:110-137 | the cap pose at step i of the trajectory; computes only, and what the source promises of it is stated by `CapReachesHover`, `CapReachesSeat`, `CapStaysUpright`, `CapCentred` and `ScrewDescent` |
| CapsOnlyCap.ScrewDescent | make_caps_onlycap.py:125-136 | j screw steps after the seat, the cap's z is the seat height minus 0.01·j |
| CapsOnlyCap.StepScene | make_caps_onlycap.py:119-124 | a later scene copies the previous one, is named `{i:06d}`, is a reset scene only for i = 0, and differs only in the cap's pose |
| CapsOnlyCap.StepSceneFirst | make_caps_onlycap.py:111-113 | step 0 is the built scene itself |
| CapsOnlyCap.Trajectory | make_caps_onlycap.py:109-137 | the trajectory has one scene per step, and scene i is the first scene with the cap moved to its pose at step i |
| CapsOnlyCap.NextScene | make_caps_onlycap.py:118-137 | one loop iteration turns step i−1 into step i |
| CapsOnlyCap.AddNextScene | make_caps_onlycap.py:118-137 | one iteration extends the render's scene dictionary by the next trajectory scene |
| CapsOnlyCap.FillTrajectory | make_caps_onlycap.py:109-137 | the loop fills the scene dictionary with all 3N trajectory scenes under their names |
| CapsOnlyCap.GetRenderData | make_caps_onlycap.py:107-139 | the method returns the render its specification describes |
| CapsOnlyCap.TrajectoryAt | make_caps_onlycap.py:109-137 | the scene dictionary has 3N keys, and key i is scene i's name mapped to the step-i scene |
| CapsOnlyCap.RenderScenes | make_caps_onlycap.py:107-139 | a successful render is `from_args` plus the 3N-step trajectory from the built scene toward the bottle's waypoints |
| CapsOnlyCap.TrajectoryScenes | make_caps_onlycap.py:107-139 | the render has 3N scenes named `000000`…, in order; only scene 0 resets; every scene has scene 0's cameras, lights and object keys, and all objects but the cap are unchanged |
| Clevr.GetObjectData | make_clevr.py:31-57 | the object takes its look from the catalogue draw and its name from the shape count, with pose (x, y, 0, 0, 0, rz); it fails with the catalogue's error iff a category is missing or empty |
| Clevr.GridValues | make_clevr.py:99-100 | camera elevations 0, 30, 60 |
| Entities.GridAzimuthValues | make_clevr.py:99-100 | the azimuths of both camera grids (this one and `make_caps_onlycap.py:96-97`) are 0, 60, …, 300 |
| Clevr.ClevrCameraAt | make_clevr.py:99-102 | camera k is `cam{k}` (not padded), with elevation `[0,30,60][k/6]` and azimuth `[0..300][k%6]` |
| Clevr.ClevrCamerasLayout | make_clevr.py:99-102 | all 18 cameras are named and placed in loop order |
| Clevr.SceneOf | make_clevr.py:90-107 | a scene is built iff the catalogue is available (else its error), under the given name |
| Clevr.GetSceneData | make_clevr.py:90-107 | the method builds the scene its specification describes |
| Clevr.SceneObjects | make_clevr.py:93-97 | the scene holds `ground` then `{shape}_0` (or `_1`), with the drawn shape and pose |
| Clevr.SceneInBounds | make_clevr.py:43-49 | with draws in the source's ranges, every object except the ground has x, y in [-2.2, 2.2], z = 0, rx = ry = 0 and rz in [0, 360] |
| Clevr.SceneFixtures | make_clevr.py:99-105 | the scene has no reset flag (`from_args` is called without one), the 18 grid cameras and the single light `light_0` |
| Clevr.ShiftedNameInjective | make_clevr.py:113-115 | names of scenes counted from `start_idx` are distinct |
| Clevr.RenderOf | make_clevr.py:110-116 | the render succeeds iff there are no scenes or the catalogue is available; it is `from_args` with its scenes |
| Clevr.AddScene | make_clevr.py:113-115 | one iteration adds the next scene under its name, or stops with the catalogue error |
| Clevr.GetRenderData | make_clevr.py:110-116 | the method returns the render its specification describes |
| Clevr.ShiftedScene | make_clevr.py:113-115 | key k of the scene dictionary is `{start_idx+k:06d}`, mapped to the scene built from draw k |
| Clevr.RenderLayout | make_clevr.py:110-116 | a render holds exactly `num_scenes` scenes named from `start_idx` in order, each built from its own draw |
| ClevrDiscrete.UniformRange | make_clevr_discrete.py:41-43 | `numpy.random.uniform(lo, hi)` lies in [lo, hi) |
| ClevrDiscrete.UniformCovers | make_clevr_discrete.py:41-43 | every point of [lo, hi) is produced by some unit draw |
| ClevrDiscrete.PlacementInRange | make_clevr_discrete.py:41-43 | each coordinate of the placement lies in its axis's `pose_range` interval |
| ClevrDiscrete.Placement | make_clevr_discrete.py:41-42 | one uniform draw per axis between the `pose_range` bounds; computes only, and its bound is `PlacementInRange` |
| ClevrDiscrete.DiscreteAvailableIff | make_clevr_discrete.py:29-43 | an object can be built iff all four categories are available and `pose_range` is present |
| ClevrDiscrete.GetObjectData | make_clevr_discrete.py:28-50 | the object takes its look from the catalogue, translation from the placement and rotation unchanged from the grid row; otherwise the catalogue's or the `pose_range` error |
| ClevrDiscrete.DiscreteCameraLayout | make_clevr_discrete.py:53-66 | the single camera is `cam00` with angles (60, 0, 0) at distance 8 |
| ClevrDiscrete.GroupsValues | make_clevr_discrete.py:108-109 | the angle groups are 0, 90, 180, 270 |
| ClevrDiscrete.Rotations | make_clevr_discrete.py:108-110 | the rotation grid has 64 rows |
| ClevrDiscrete.RotationsCover | make_clevr_discrete.py:108-110 | every triple of group angles occurs as a row, at its meshgrid position |
| ClevrDiscrete.RotationsDistinct | make_clevr_discrete.py:108-110 | no two rows are equal |
| ClevrDiscrete.RotationsInGroups | make_clevr_discrete.py:108-110 | every component of every row is a group angle |
| ClevrDiscrete.SceneOf | make_clevr_discrete.py:87-102 | a scene is built iff the catalogue and `pose_range` are available, under the given name |
| ClevrDiscrete.GetSceneData | make_clevr_discrete.py:87-102 | the method builds the scene its specification describes |
| ClevrDiscrete.SceneObjects | make_clevr_discrete.py:90-94 | the scene holds `ground` then `{shape}_0` (or `_1`) at the placement, with the grid rotation |
| ClevrDiscrete.SceneFixtures | make_clevr_discrete.py:87-102 | the scene carries the given reset flag, the single camera `cam00` and the single light `light_0` |
| ClevrDiscrete.RenderOf | make_clevr_discrete.py:105-115 | the render succeeds iff the catalogue and `pose_range` are available; it is `from_args` with its scenes |
| ClevrDiscrete.AddScene | make_clevr_discrete.py:112-114 | one iteration adds scene n under `{n:06d}`, or stops with the error |
| ClevrDiscrete.BuildScenes | make_clevr_discrete.py:112-114 | the loop builds all 64 scenes under their names, whatever `num_scenes` is |
| ClevrDiscrete.GetRenderData | make_clevr_discrete.py:105-115 | the method returns the render its specification describes |
| ClevrDiscrete.RenderLayout | make_clevr_discrete.py:105-115 | a render holds exactly 64 scenes named `000000`… in order; scene n resets iff n = 0 and uses rotation row n |
| Common.PoseOf | make_clevr_discrete.py:43 | concatenating a translation and angles gives the pose with those parts |
| Serial.ToObjectsOk | lib/data/render_data.py:44-48 | a list converts iff each element converts |
| Serial.ToEntriesOk | lib/data/render_data.py:50-54 | a dict converts iff each value converts |
| Serial.ToObjectsAt | lib/data/render_data.py:44-48 | element i of a converted list is the conversion of element i |
| Serial.ToEntriesAt | lib/data/render_data.py:50-54 | entry i of a converted dict keeps its key and holds the converted value |
| Serial.ToObjectFails | lib/data/render_data.py:37-64 | `to_object` raises iff the value contains an object of an unknown type |
| Serial.ToObjectPlain | lib/data/render_data.py:37-64 | the result contains only None, scalars, lists and dicts |
| Serial.ToObjectShape | lib/data/render_data.py:37-62 | None and scalars are returned unchanged; lists and tuples become lists of the same length; dicts and records become dicts with the same keys in order; arrays become float lists |
| Serial.EntriesToObject | lib/data/render_data.py:50-62 | a record converts exactly like the dict of its fields |
| Serial.PlainFixed | lib/data/render_data.py:37-54 | `to_object` leaves plain JSON values unchanged |
| Serial.ToObjectIdempotent | lib/data/render_data.py:37-64 | converting twice gives what converting once gives |
| Serial.ToObject | lib/data/render_data.py:37-64 | an object of an unknown type raises; a list or tuple that converts becomes a list of the same length; a dict or record becomes a dict (the full laws are `ToObjectShape`, `ToObjectFails` and `ToObjectPlain`) |
| Serial.EmptyFields | lib/data/render_data.py:9-34 | `empty()` has each of the record's fields, in declaration order |
| Serial.SetAttrAt | lib/data/render_data.py:75 | `__setattr__` on an existing field replaces its value in place and keeps the field order |
| Serial.SetAttr | lib/data/render_data.py:75 | after `__setattr__` the record holds the new value; a new attribute goes last, and an existing one keeps the number of attributes |
| Serial.DecodingsAgree | lib/data/render_data.py:67-114 | each field is decoded by the rule its name selects |
| Serial.FromObject | lib/data/render_data.py:67-122 | an unknown target raises; a record target gives a record of that kind; `tuple` gives a pair; `numpy.ndarray` gives an array |
| Serial.FromEntriesAll | lib/data/render_data.py:72-88 | a dict comprehension decodes every value and keeps the keys in order |
| Serial.AssignMatching | lib/data/render_data.py:70-75 | assigning fields in order replaces each one with its decoded value and leaves the earlier fields alone |
| Serial.AssignAllNames | lib/data/render_data.py:78-91 | assigning every field of `empty()` in order gives exactly the decoded fields |
| SerialEntities.RecordObject | lib/data/render_data.py:59-62 | a record converts to the dict of its converted fields |
| SerialEntities.RecordDecode | lib/data/render_data.py:67-114 | decoding that dict rebuilds the record from the decoded fields |
| SerialEntities.RecordRoundTrip | lib/data/render_data.py:37-122 | a record survives a conversion followed by a decode, field by field |
| SerialEntities.MapObject | lib/data/render_data.py:50-54 | a name→entity map converts to a dict with the same keys in order |
| SerialEntities.MapRoundTrip | lib/data/render_data.py:72-88 | a converted name→entity map decodes back to the same keys in order, with each entity decoded |
| SerialEntities.FloatsRoundTrip | lib/data/render_data.py:56-57 | `tolist()` then `numpy.array` gives back the array |
| SerialEntities.ArrayPairRoundTrip | lib/data/render_data.py:115-116 | a `(name, array)` pair round-trips through the `tuple` decode |
| SerialEntities.StrPairObject | lib/data/render_data.py:44-48 | a string pair converts to a two-element list |
| SerialEntities.StrListObject | lib/data/render_data.py:44-48 | a tuple of strings converts to a list of the same strings |
| SerialEntities.MaterialPairRoundTrip | lib/data/render_data.py:38-48 | a material pair, or None, converts to its list form, which decoding keeps as is |
| SerialEntities.ObjectRoundTrip | lib/data/render_data.py:92-100 | an object decodes back with its pose as an array and its colour and scale as `(name, array)` tuples; its shape and material pairs come back as lists |
| SerialEntities.CameraRoundTrip | lib/data/render_data.py:101-107 | a camera round-trips exactly |
| SerialEntities.LightRoundTrip | lib/data/render_data.py:108-114 | a light round-trips exactly |
| SerialEntities.CatalogPlain | lib/data/render_data.py:50-54 | the scene's catalogue is plain JSON, so conversion leaves it unchanged |
| SerialEntities.ObjectsRoundTrip | lib/data/render_data.py:80-82 | the objects dictionary round-trips with keys in order |
| SerialEntities.CamerasRoundTrip | lib/data/render_data.py:86-88 | the cameras dictionary round-trips exactly |
| SerialEntities.LightsRoundTrip | lib/data/render_data.py:83-85 | the lights dictionary round-trips exactly |
| SerialEntities.SceneHeadFixed | lib/data/render_data.py:89-90 | the scene's plain fields are copied back unchanged |
| SerialEntities.SceneRoundTrip | lib/data/render_data.py:77-91 | a scene decodes back with every field and every key order restored, tuples becoming lists |
| SerialEntities.ScenesRoundTrip | lib/data/render_data.py:71-73 | the scenes dictionary round-trips with keys in order |
| SerialEntities.RenderRoundTrip | lib/data/render_data.py:37-122 | `from_object(to_object(r), RenderData)` restores every field and every key order; the only change is that tuples come back as lists |
| SerialEntities.BuiltTuplesBecomeLists | lib/data/render_data.py:44-48 | a freshly built render is not identical to its round trip, because its `modes` tuple comes back as a list |
| Rigid.InvTIsLeftInverse | lib/dataset.py:37-42 | `[Rᵀ, −Rᵀt] · [R, t]` is the identity for orthonormal R |
| Rigid.InvTIsRightInverse | lib/dataset.py:29-42 | `[R, t] · [Rᵀ, −Rᵀt]` is the identity for orthonormal R |
| Rigid.InvTUndoesT | lib/dataset.py:29-42 | applying the inverse transform undoes the transform on every point |
| Rigid.PoseEulerInverse | lib/dataset.py:29-42 | `pose_euler_to_invT` and `pose_euler_to_T` are inverse on both sides |
| Rigid.PoseQuatInverse | lib/dataset.py:13-26 | `pose_quat_to_invT` and `pose_quat_to_T` are inverse on both sides |
| Rigid.PoseQuatToT | lib/dataset.py:13-18 | the origin of the pose's frame is mapped to the pose's position |
| Rigid.PoseQuatToInvT | lib/dataset.py:21-26 | the pose's position is mapped to the origin of its frame |
| Rigid.PoseEulerToT | lib/dataset.py:29-34 | the origin of the pose's frame is mapped to the pose's position |
| Rigid.PoseEulerToInvT | lib/dataset.py:37-42 | the pose's position is mapped to the origin of its frame |
| Dataset.KeyPresent | lib/dataset.py:55-61 | each (render, scene, camera) triple of a scene that is not its render's last is a key |
| Dataset.KeyOrigin | lib/dataset.py:55-61 | every key comes from such a triple |
| Dataset.UniformKeyCount | lib/dataset.py:55-61 | with S scenes of C cameras in each render, there are renders·(S−1)·C keys |
| Dataset.AllKeys | lib/dataset.py:55-61 | the keys in enumeration order; computes only, and what they hold is stated by `KeyPresent`, `KeyOrigin` and `UniformKeyCount` |
| Dataset.AppendCameraKeys | lib/dataset.py:60-61 | the innermost loop appends one key per camera, in camera order |
| Dataset.BCData.constructor | lib/dataset.py:46-64 | the key list has exactly the enumeration's keys, in insertion order; indices are stored and the file is not yet open |
| Dataset.BCData.Len | lib/dataset.py:66-67 | the length is the number of indices |
| Dataset.BCData.EnumerateStopsAtLen | lib/dataset.py:66-73 | when every index names a key, each item below the length reads the sample of its key and the item equal to the length raises IndexError, so enumerating the dataset visits exactly the indexed samples |
| Dataset.BCData.GetItem | lib/dataset.py:69-107 | an item opens the file on first use, keeps keys and indices, and returns the sample its index selects |
| Dataset.PyIndex | lib/dataset.py:73 | a Python index succeeds iff −len ≤ i < len; a negative index counts from the end |
| Dataset.Lookup | lib/dataset.py:82 | a dictionary lookup fails iff the key is absent, and otherwise returns a value stored under that key |
| Dataset.Find | lib/dataset.py:76-89 | a lookup by name fails iff no member has that name, and otherwise returns a member with that name |
| Dataset.ObjectAction | lib/dataset.py:87-100 | an object's action has 7 components |
| Dataset.ActionTranslation | lib/dataset.py:94-97 | the action's translation is `R_camᵀ (t_next − t_curr)`; the camera's position cancels |
| Dataset.ActionRotation | lib/dataset.py:94-99 | the action's quaternion is that of `R_currᵀ R_next`: w is kept and the vector part is rotated by `R_camᵀ R_curr` |
| Dataset.SampleLayout | lib/dataset.py:84-107 | the action has 14 components, the cap's action followed by the bottle's; the current and next poses have 12 components, and the camera pose has 6 |
| Dataset.SubgoalOfScene | lib/dataset.py:80 | the subgoal of scene i is `(i + 1) // 10`, at most 2 for scenes 0–28 |
| Dataset.BadSceneName | lib/dataset.py:74 | a scene name that is not an integer raises `ValueError` |
| Dataset.SampleOfKey | lib/dataset.py:73-107 | a scene name that is not an integer raises `ValueError`; a missing render raises; a sample has a 14-float action, 12-float current and next poses and a 6-float camera pose |
| Dataset.SampleAt | lib/dataset.py:73 | an item outside `indices`, or an index outside `keys`, raises `IndexError`; otherwise the result is the sample of the selected key |
| Preds.ValidIndicesShape | make_preds.py:122 | `valid_indices` is the 1044 numbers 1, 6, …, then the 1044 numbers 3, 8, … |
| Preds.ValidIndexForm | make_preds.py:122 | every valid index is below 5220 and congruent to 1 or 3 mod 5 |
| Preds.ValidIndexListed | make_preds.py:122 | every such number is a valid index |
| Preds.ValidIndicesMembers | make_preds.py:122 | x is a valid index iff x < 5220 and x ≡ 1 or 3 (mod 5) |
| Preds.ValidIndicesDistinct | make_preds.py:122 | no index repeats |
| Preds.ValidIndicesInRange | make_preds.py:122 | for 10 renders of 30 scenes with 18 cameras there are 5220 keys, so every valid index selects a key |
| Preds.ValidIndices | make_preds.py:122 | the list itself; computes only, and its contents are stated by `ValidIndicesShape` and `ValidIndicesMembers` |
| Preds.DecodeGroundTruth | make_preds.py:140-151 | only `action[4:7]` is overwritten, with the decoded vector part; the inferred pose combines the decoded translation with the Euler angles of the decoded rotation |
| Preds.DecodeTranslationRoundTrip | make_preds.py:140-146 | with an orthonormal camera rotation, the decoded translation is the next pose's translation |
| Preds.DecodeQuaternionRoundTrip | make_preds.py:147-149 | with orthonormal camera and current rotations, the decode recovers the quaternion of `R_currᵀ R_next` |
| Preds.DecodePoseRoundTrip | make_preds.py:140-151 | when the quaternion and Euler conversions invert each other, the decoded rotation is the next rotation and the inferred pose is the next pose |
| Nocs.CornersStraddleOrigin | lib/blend_nocs.py:16-21 | because the scan starts from zero, min ≤ 0 ≤ max on every axis |
| Nocs.CornersContain | lib/blend_nocs.py:16-21 | every loop vertex lies between the corners on every axis |
| Nocs.CornersAttained | lib/blend_nocs.py:16-21 | each corner coordinate is 0 or is attained by some loop vertex |
| Nocs.MinCorner | lib/blend_nocs.py:16-21 | the minimum corner of the scan; computes only, and its laws are `CornersStraddleOrigin`, `CornersContain` and `CornersAttained` |
| Nocs.MaxCorner | lib/blend_nocs.py:16-21 | the maximum corner of the scan; computes only, and its laws are `CornersStraddleOrigin`, `CornersContain` and `CornersAttained` |
| Nocs.BoundingBox | lib/blend_nocs.py:16-21 | the scan computes the minimum and maximum corners |
| Nocs.NocsColorInUnit | lib/blend_nocs.py:26-31 | every NOCS colour channel lies in [0,1] and alpha is 1 |
| Nocs.NocsColor | lib/blend_nocs.py:26-31 | the normalised position of a vertex with alpha 1; computes only, and its range is `NocsColorInUnit` |
| Nocs.VertexColorLayer | lib/blend_nocs.py:11-33 | a flat mesh gives `None` and no writes; otherwise each loop's entry is `(co − min)/(max − min)` with alpha 1 |
| Nocs.Blend | lib/blend_nocs.py:65-78 | one material choice per object |
| Nocs.BlendNocs | lib/blend_nocs.py:65-78 | the loop over objects makes the choices and material additions that `Blend` specifies |
| Nocs.MaterialNamePrefix | lib/blend_nocs.py:36-50 | emission and NOCS material names are told apart by their prefix |
| Nocs.BlendChoice | lib/blend_nocs.py:65-78 | non-meshes get no material; a mesh gets the emission material exactly when it is flat, and the NOCS material otherwise |
| Nocs.BlendKeepsMaterials | lib/blend_nocs.py:36-62 | existing materials are kept |

## Left out

- Blender and rendering: `bpy` scene construction and rendering, and the material node wiring in `lib/blend_nocs.py:36-62` (only material naming is modelled). `lib/blend.py`, `lib/blend_segmentation.py`, `render.py` and `render_clevr.py` are not part of this model.
- I/O: reading the catalogue JSON, writing render JSON, reading HDF5 in `BCData`, image decoding, `render_to_h5.py`, `render_to_gif.py`, `arguments.py` and every `main()`. In `BCData`, the HDF5 content is a parameter: a list of renders, each with scenes, cameras and object poses.
- The depth encoding and decoding: floating point with EXR I/O.
- Floating point: floats are exact reals, so the waypoint results hold exactly rather than approximately.
- Randomness: draws are parameters. The cap-on-bottle members require their x, y and lift draws to lie in the source's ranges. The CLEVR members accept any draws; `Clevr.SceneInBounds` states where a draw from the source's ranges places the object.
- Rotation libraries: `mathutils` orbit rotations, the stage-2 Euler composition and pytorch3d's conversions are function parameters. Orthonormality is assumed as a hypothesis where the inverse laws need it.
- Entities.AbsPath: `os.path.normpath` is not modelled; a relative path is only joined to the working directory.
- Entities.SceneFromArgs: `lib/data/scene_data.py` lacks `from_args`, `empty`, `name`, `reset_scene` and `lights_data`, so the scene record is reconstructed from its callers. `lib/data/object_data.py` has no `empty()`; the model uses six `None` fields.
- Serial.FromObject: `numpy.array` is modelled only on flat float lists, the only arrays the model's catalogues hold.
- Entities.Catalog: scalar catalogue sizes, which `numpy.array` turns into 0-d arrays (`make_clevr.py:41-42`, `make_clevr_discrete.py:38-39`, `lib/blend.py:80-81`), are not modelled; every size is a list of floats.
- SerialEntities.RenderRoundTrip: the round trip is exact except that tuples come back as lists, as `BuiltTuplesBecomeLists` states; it is not stated as identity.
- Dataset.BCData.GetItem: the next-scene image (`lib/dataset.py:77`) becomes the requirement that the next scene exists with the same camera; the image tensors are not modelled.
- Dataset.BCData.Len: its contract is the source's own one-line definition; what the length means for iteration is stated by `Dataset.BCData.EnumerateStopsAtLen`.
- Entities.Args: `num_scenes` and `start_idx` are naturals. The source parses both with `type=int` (`arguments.py:23`, `arguments.py:27`, `make_clevr.py:125`), so it also accepts negative values. A negative `num_scenes` gives an empty scene loop and a render with no scenes (`make_clevr.py:113`, `make_caps_onlycap.py:109`). A negative `start_idx` gives sign-prefixed scene names such as `-00001`. These negative inputs are not modelled.
- Names.ParseZeroPad: `int()` is modelled on digit strings only, without sign, whitespace or underscores.
- Nocs.VertexColorLayer: a failing `vertex_colors.new()` (`lib/blend_nocs.py:12-14`) is not modelled; the layer array is given.
- ClevrDiscrete.GetObjectData: requires `pose_range`, when present, to have at least three rows of at least two bounds each. A rectangular range with one or two rows of at least two bounds does not raise in the source (`make_clevr_discrete.py:41-43`): `pose_range[:3, 0]` then has one or two entries, `numpy.random.uniform` draws that many values, and the object gets a pose of four or five floats, which `main` writes to the JSON file (`make_clevr_discrete.py:148-149`); it only fails later, when `lib/blend.py:78` reads `pose[3:]` as the rotation. The model's six-field pose cannot hold such a pose, so these ranges are excluded. Only a ragged range (rows of different lengths), an empty range or rows shorter than two bounds raise in the source, and those are not modelled either.
- Clevr.RenderOf: after a catalogue error the source raises; the model's scene sequence holds a placeholder scene there, which no successful render exposes.
- The rest of `make_preds.py`: model inference, the prediction decode, plotting and the unused scene builders.
- The `print(rotations)` call in `make_clevr_discrete.py`.
