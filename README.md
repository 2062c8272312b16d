# Decal stamping on a tracked head model — a Dafny model

The application is an augmented-reality demo. A head model is anchored to a tracked
image target, and the user stamps decals on it by clicking or tapping. This project models
the application's own state controller, `code/vuforiaDecals/app.ts`, around the rendering
engine and the AR tracker:

- **Pointer normalisation** (`pointer.dfy`): device pixels become normalised device
  coordinates in [-1, 1], with the vertical axis flipped. The inverse map and the round
  trips in both directions are proved.
- **Decal size and roll** (`placement.dfy`): one random scalar
  `(minScale + u·(maxScale − minScale)) / 500` is used on all three axes. An optional random
  roll `u·2π` replaces only the z Euler angle.
- **The decal collection** (`collection.dfy`): a decal is its material's uuid and its
  triangle patch. `Merge` is the reference definition of what `mergeDecals` produces. It is
  proved to give one decal per material, to keep every triangle, to leave a collection with
  no shared materials unchanged, and to be idempotent.
- **Tracking** (`tracking.dfy`): the pose-status bitmask step (KNOWN copies the pose, FOUND
  attaches the target and resets the head offset, LOST otherwise detaches it). Its effect
  over any run of pose reports is proved as well.
- **The controller** (`app.dfy`): class `DecalsApp` holds the module-level state of
  `app.ts`: the decal list, the head model's decal children, the shared intersection
  record, the pointer, mono mode, the GUI parameters, the `p`/`r`/`s` vectors and the
  target's pose. Its methods are the callbacks and the operations `checkIntersection`,
  `shoot`, `removeDecals` and `mergeDecals`. `mergeDecals` builds its per-material
  accumulator in a loop (`GroupByMaterial`), empties the list and refills it in a second
  loop. It is proved equal to `Merge`.

The engine's calls are ray casting, matrix inversion, `applyMatrix4`, look-at with Euler
extraction, and `DecalGeometry` clipping. They are fields of an `Engine` value passed to the
methods, so the model never computes geometry. `Math.random()` draws are parameters in
[0, 1). So is the uuid of each cloned material.

Notes on the source as written:
- `checkIntersection` stores the hit face's normal in mesh coordinates (`app.ts:230`).
  The world-space normal it computes is used only to aim the pointer helper and to end the
  debug line (`app.ts:235-238`). The model keeps the mesh-space normal, as the code does.
  Nothing reads the stored normal.
- Every `shoot` clones the decal material, and each clone gets its own uuid. A list built
  only by placements therefore never shares a material. `Collection.AppendFreshMaterial`
  and `Collection.MergeOfDistinct` show that `mergeDecals` then leaves the list as it was.
  Nothing in `app.ts` calls `mergeDecals`.
- `touchend` does not place the decal itself. It schedules `shoot` for the next animation
  frame, and `shoot` then reads whatever the intersection record holds at that time.
  `OnTouchEnd` reports the request, and the host calls `Shoot`.
- The pose-status bits are the tracker's: KNOWN = 1, FOUND = 2, LOST = 4.
- JavaScript's `for ... in` visits string keys in insertion order. The one exception is
  integer-like keys, which a uuid never is. So the merged list is ordered by each
  material's first appearance.

## Model

| member | source | states |
|---|---|---|
| Pointer.NormalizeX | code/vuforiaDecals/app.ts:128 | x lies in [0, W] iff the result lies in [-1, 1]; 0 maps to -1, W to 1 and W/2 to 0 |
| Pointer.NormalizeY | code/vuforiaDecals/app.ts:129 | y lies in [0, H] iff the result lies in [-1, 1]; the top row 0 maps to 1 and H to -1 (vertical flip) |
| Pointer.Normalize | code/vuforiaDecals/app.ts:176-177 | an on-screen pixel maps into the [-1, 1] square; the same formula serves all four handlers |
| Pointer.DevicePosition | code/vuforiaDecals/app.ts:128-129 | the inverse map sends the [-1, 1] square back onto the screen |
| Pointer.NormalizeRoundTrip | code/vuforiaDecals/app.ts:128-129 | normalising and mapping back gives the original pixel exactly |
| Pointer.DevicePositionRoundTrip | code/vuforiaDecals/app.ts:138-139 | every normalised position comes from the pixel the inverse map gives |
| Pointer.NormalizeOrder | code/vuforiaDecals/app.ts:147-148 | normalised x increases with device x, and normalised y decreases as device y increases |
| Placement.DecalScale | code/vuforiaDecals/app.ts:336 | with u in [0, 1) the scale lies in [min/500, max/500) when min < max, is exactly min/500 when min = max, lies in (max/500, min/500] when the bounds cross, and is positive for positive bounds |
| Placement.StepWithin | code/vuforiaDecals/app.ts:336 | the random offset `u·(max − min)` lies between 0 (included) and `max − min` (excluded), whatever its sign |
| Placement.UniformScale | code/vuforiaDecals/app.ts:336-337 | all three axes share one scalar, which is positive for the GUI's slider values |
| Placement.FixedScale | code/vuforiaDecals/app.ts:336-337 | equal bounds of 10 give exactly 0.02 on every axis, whatever the draw |
| Placement.Roll | code/vuforiaDecals/app.ts:339 | the random roll lies in [0, 2π) |
| Placement.DecalRotation | code/vuforiaDecals/app.ts:339 | only the z angle changes: x and y are kept, z lies in [0, 2π) when rotating, and nothing changes otherwise |
| Collection.Materials | code/vuforiaDecals/app.ts:365-368 | the accumulator's keys: no uuid twice, exactly the materials in use, no more keys than decals |
| Collection.Merge | code/vuforiaDecals/app.ts:362-386 | no two merged decals share a material, the set of materials is unchanged, each merged geometry is its material's geometries concatenated in list order, and the empty list stays empty |
| Collection.DetachAfter | code/vuforiaDecals/app.ts:354 | children before the first occurrence of the removed decal are kept, in order |
| Collection.Detach | code/vuforiaDecals/app.ts:354 | removing a child that is present drops exactly one copy of it; removing an absent one changes nothing |
| Collection.DetachFirst | code/vuforiaDecals/app.ts:354 | removing a child whose first occurrence is at k leaves exactly the children before k followed by those after it, in order |
| Collection.MergeCount | code/vuforiaDecals/app.ts:377-384 | merging yields exactly one decal per distinct material of the input |
| Collection.MergeLast | code/vuforiaDecals/app.ts:365-372 | one more decal either extends the geometry of its material's merged decal or appends a new merged decal |
| Collection.MergeKeepsTriangles | code/vuforiaDecals/app.ts:370-371 | the merged decals hold exactly the input's triangles, as a multiset, so the triangle count is preserved |
| Collection.MergeOfDistinct | code/vuforiaDecals/app.ts:362-386 | a list whose decals all use different materials is left unchanged |
| Collection.MergeIdempotent | code/vuforiaDecals/app.ts:362-386 | merging a merged list changes nothing |
| Collection.AppendFreshMaterial | code/vuforiaDecals/app.ts:341-346 | appending a decal with a fresh material keeps the materials distinct, so merging leaves the list unchanged |
| Collection.AccumulatorStep | code/vuforiaDecals/app.ts:367-371 | one forEach iteration: the decal's geometry is appended to its material's entry, which starts empty, and a uuid not seen before is appended to the key order |
| Collection.AccumulatorKeys | code/vuforiaDecals/app.ts:365-373 | after the forEach the accumulator has an entry for exactly the materials in use |
| Collection.AccumulatorGroups | code/vuforiaDecals/app.ts:365-373 | after the forEach each entry is its material's geometries concatenated in collection order |
| Collection.MergeOfAccumulator | code/vuforiaDecals/app.ts:377-384 | reading the accumulator in key order gives exactly `Merge` of the collection |
| Collection.GroupsStep | code/vuforiaDecals/app.ts:368-371 | after one decal, each accumulated geometry still equals its material's geometries concatenated in order |
| Tracking.Track | code/vuforiaDecals/app.ts:480-495 | KNOWN copies the pose; FOUND puts the target in the scene and sets the head offset to (0, 0, 0.08), even when LOST is also set; LOST without FOUND takes it out; with neither, visibility is unchanged |
| Tracking.TrackAllFollowsLatest | code/vuforiaDecals/app.ts:474-497 | after any run of reports the target is shown iff the latest FOUND-or-LOST report had FOUND, and its pose is that of the latest KNOWN report |
| Tracking.StaysUntilLost | code/vuforiaDecals/app.ts:490-495 | a shown target stays shown until a report with LOST and without FOUND arrives |
| App.GroupByMaterial | code/vuforiaDecals/app.ts:364-373 | the forEach loop builds exactly `Accumulator` of the list, with its keys in first-appearance order; so its keys are the materials in use and each value is that material's geometries concatenated |
| App.DecalsApp.constructor | code/vuforiaDecals/app.ts:79-94 | starts with no decals, no hit, stereo mode, the default parameters (normal projection, scales 10 to 20, rotate on) and s = (10, 10, 10) |
| App.DecalsApp.LoadTarget | code/vuforiaDecals/app.ts:284-289 | the target mesh exists afterwards |
| App.DecalsApp.SetParams | code/vuforiaDecals/app.ts:192-196 | the GUI writes the bound parameters; slider values lie in [1, 30] and may cross |
| App.DecalsApp.OnRender | code/vuforiaDecals/app.ts:530 | mono mode holds iff there is exactly one sub-view |
| App.DecalsApp.CheckIntersection | code/vuforiaDecals/app.ts:205-253 | `HitTested`: no mesh: the record, the helper position and the inverse head matrix are unchanged; a hit sets the flag and records the nearest hit's point and normal, the helper position and the inverse head matrix; a miss clears only the flag |
| App.DecalsApp.Shoot | code/vuforiaDecals/app.ts:295-348 | `Shot`: appends exactly one decal, built from p = the recorded hit point in head coordinates, r = the policy's Euler angles with the random roll, and the uniform s; earlier decals are unchanged and the decal hangs under the head model |
| App.DecalsApp.RemoveDecals | code/vuforiaDecals/app.ts:350-360 | every listed decal is detached from the head model, and the list is empty afterwards; an empty list stays empty |
| App.DecalsApp.MergeDecals | code/vuforiaDecals/app.ts:362-386 | the list and the head model's decal children both become `Merge` of the old list |
| App.DecalsApp.OnTouchStart | code/vuforiaDecals/app.ts:135-142 | only records the normalised pointer |
| App.DecalsApp.OnMouseUp | code/vuforiaDecals/app.ts:125-133 | records the pointer and hit-tests in every view mode (`HitTested`, so without a mesh the record stays as it was); on a set flag the placement is `Shot` at the point just recorded, otherwise the decals and p, r, s are unchanged; with a mesh the flag is whether the ray hits |
| App.DecalsApp.OnTouchEnd | code/vuforiaDecals/app.ts:144-158 | records the pointer; in stereo mode the hit-test state (record, helper, inverse head matrix) is untouched and no shot is requested; in mono mode it is `HitTested`, and a shot is requested iff the flag is then set; places nothing itself |
| App.DecalsApp.OnPointerMove | code/vuforiaDecals/app.ts:160-185 | records the pointer; in stereo mode the hit-test state (record, helper, inverse head matrix) is untouched; in mono mode it is `HitTested`, so with a mesh the flag is whether the ray hits |
| App.DecalsApp.OnTrackingUpdate | code/vuforiaDecals/app.ts:474-497 | the target's pose, visibility and head offset follow `Tracking.Track`; the decal list and the head model's decals are unchanged |

## Left out

- Ray casting, `getInverse`, `applyMatrix4`, `transformDirection`, `lookAt`, `extractRotation`, Euler extraction and `DecalGeometry` clipping (`app.ts:210-235`, `299-329`, `345`): engine calls on floating point. They are opaque values and arrow fields of `Engine`. The model proves nothing about geometry, such as the world/head round trip or the decal box.
- `Geometry.merge(geometry, decal.matrix)` (`app.ts:371`) is modelled as plain concatenation. Each decal mesh is created, and re-created by merging, at the identity transform, so its matrix is the identity.
- The pointer helper's orientation and the debug line's two vertices (`app.ts:226-244`): these are visual. The helper's orientation reaches the model only through `Engine.surfaceAligned`.
- Pointer.NormalizeX: requires a positive window width (and Pointer.NormalizeY a positive height). A zero-sized window would make JavaScript divide by zero, and reals cannot model that.
- App.DecalsApp.SetParams: requires the slider range [1, 30]. Other assignments to `params` do not occur in the application.
- The random colour tint of each material clone (`app.ts:341-342`): cosmetic. Only the clone's uuid is kept.
- The scheduled `shoot` after `touchend` (`requestAnimationFrame`, `app.ts:153`) is returned as a flag and not queued. The host's frame loop is not part of this model.
- Renderer, HUD, dat.GUI construction, lights, textures, material settings, the debug line and the pointer helper's mesh (`app.ts:23-41`, `61-77`, `96-117`, `187-197`, `532-566`): rendering plumbing.
- The tracker's licence, dataset download and promise chain (`app.ts:389-472`, `498-522`): asynchronous calls into the AR SDK, including the fallback that places the head in front of the user. Only the pose-status branch of the update listener is modelled.
- Floating-point rounding: arithmetic is over `real`, and `Math.PI` is the real 3.141592653589793.
- Object identity: decals are values, so `headModel.remove(d)` removes the first child equal to `d`. While the head model's decal children equal the decal list, which is `DecalsApp.Valid()`, that child is the one the source removes.
