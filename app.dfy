/** The application's controller: the module-level state of the decal demo
    and the callbacks that change it. Every callback runs to completion
    before the next one starts, so each is a method on one object.

    The rendering engine's work (ray casting, matrix inversion, look-at and
    Euler extraction, clipping a decal against the mesh) is passed in as an
    `Engine` value holding what those calls return for the current frame. */
module App {
  import opened Geometry
  import opened Pointer
  import opened Placement
  import opened Collection
  import opened Tracking

  /** The two orientation policies the GUI offers for a new decal. */
  datatype Projection = FromCamera | NormalToMesh

  /** The GUI-bound parameters `shoot` reads. */
  datatype Params = Params(projection: Projection, minScale: real, maxScale: real, rotate: bool)

  /** The shared hit-test record. */
  datatype Intersection = Intersection(intersects: bool, point: Vec3, normal: Vec3)

  /** What the engine's calls return for the current frame. */
  datatype Engine = Engine(
    // hits of a ray from the camera through a normalised point, against the target mesh only, nearest first
    raycast: Vec2 -> seq<Hit>,
    // the inverse of the head model's world matrix
    headInverse: Mat4,
    // a point transformed by a matrix
    applyMatrix: (Mat4, Vec3) -> Vec3,
    // Euler angles, in head-model coordinates, of the look-at from the camera through a point
    cameraFacing: (Mat4, Vec3) -> Vec3,
    // Euler angles, in head-model coordinates, of the pointer helper's orientation
    surfaceAligned: Mat4 -> Vec3,
    // the target mesh clipped by the box at position p, rotation r and size s
    decalGeometry: (Vec3, Vec3, Vec3) -> seq<Triangle>)

  const Identity: Mat4 := Mat4([1.0, 0.0, 0.0, 0.0, 0.0, 1.0, 0.0, 0.0, 0.0, 0.0, 1.0, 0.0, 0.0, 0.0, 0.0, 1.0])

  /** The `forEach` pass of `mergeDecals`: an accumulator per material uuid,
      its geometry grown by each decal in turn, and the uuids in the order
      they were first added. */
  method GroupByMaterial(ds: seq<Decal>) returns (merge: map<Uuid, seq<Triangle>>, keys: seq<Uuid>)
    ensures keys == Materials(ds) && merge == Accumulator(ds)
    ensures merge.Keys == MaterialSet(ds)
    ensures forall id :: id in merge ==> merge[id] == GroupGeometry(ds, id)
  {
    merge, keys := map[], [];
    var i := 0;
    while i < |ds|
      invariant 0 <= i <= |ds|
      invariant keys == Materials(ds[..i]) && merge == Accumulator(ds[..i])
    {
      var decal := ds[i];
      AccumulatorStep(ds[..i], decal);
      var acc: seq<Triangle> := [];
      if decal.materialId in merge {
        acc := merge[decal.materialId];
      } else {
        keys := keys + [decal.materialId];
      }
      merge := merge[decal.materialId := acc + decal.geometry];
      assert ds[..i + 1] == ds[..i] + [decal];
      i := i + 1;
    }
    assert ds[..i] == ds;
    AccumulatorKeys(ds);
    AccumulatorGroups(ds);
  }

  /** The values the GUI sliders can take. */
  predicate SliderRange(params: Params)
  {
    1.0 <= params.minScale <= 30.0 && 1.0 <= params.maxScale <= 30.0
  }

  class DecalsApp {
    /** The decal list, in placement order. */
    var decals: seq<Decal>
    /** The decal meshes among the head model's children, in the order they were added. */
    var headDecals: seq<Decal>
    /** Whether the target mesh has been created. */
    var meshLoaded: bool
    var intersection: Intersection
    /** Where the pointer helper was last put: the latest hit point. */
    var helperPosition: Vec3
    /** The inverse of the head model's world matrix, refreshed on each hit. */
    var invWorld: Mat4
    /** The pointer in normalised device coordinates. */
    var mouse: Vec2
    /** Whether the last rendered frame had a single sub-view. */
    var monoMode: bool
    var params: Params
    /** Position, Euler angles and size of the latest decal, in head-model coordinates. */
    var p: Vec3
    var r: Vec3
    var s: Vec3
    /** The tracked target's object: its pose, whether it is in the scene,
        and the head model's offset inside it. */
    var targetPosition: Vec3
    var targetOrientation: Quat
    var targetInScene: bool
    var headOffset: Vec3

    /** Every decal in the list hangs under the head model, and nothing else does. */
    ghost predicate Valid()
      reads this
    {
      headDecals == decals
    }

    function TargetAnchor(): Anchor
      reads this
    {
      Anchor(targetPosition, targetOrientation, targetInScene, headOffset)
    }

    constructor ()
      ensures Valid() && decals == []
      ensures !meshLoaded && !intersection.intersects && !monoMode
      ensures params == Params(NormalToMesh, 10.0, 20.0, true)
      ensures p == Origin && r == Origin && s == Vec3(10.0, 10.0, 10.0)
      ensures !targetInScene
    {
      decals, headDecals := [], [];
      meshLoaded := false;
      intersection := Intersection(false, Origin, Origin);
      helperPosition := Origin;
      invWorld := Identity;
      mouse := Vec2(0.0, 0.0);
      monoMode := false;
      params := Params(NormalToMesh, 10.0, 20.0, true);
      p, r, s := Origin, Origin, Vec3(10.0, 10.0, 10.0);
      targetPosition, targetOrientation := Origin, Quat(0.0, 0.0, 0.0, 1.0);
      targetInScene := false;
      headOffset := Origin;
    }

    /** The target mesh is created and put under the head model. */
    method LoadTarget()
      modifies this`meshLoaded
      ensures meshLoaded
    {
      meshLoaded := true;
    }

    /** The GUI writes the parameters it is bound to. */
    method SetParams(newParams: Params)
      requires SliderRange(newParams)
      modifies this`params
      ensures params == newParams
    {
      params := newParams;
    }

    /** The render callback records whether the view is mono (one sub-view). */
    method OnRender(subviewCount: nat)
      modifies this`monoMode
      ensures monoMode == (subviewCount == 1)
    {
      monoMode := subviewCount == 1;
    }

    /** What `checkIntersection` does to the hit-test state (the record, the
        pointer helper and the inverse head matrix). With no mesh yet it
        changes nothing. Otherwise a hit records the nearest hit's point and
        face normal, moves the pointer helper there and refreshes the inverse
        head matrix; a miss only clears the flag. */
    twostate predicate HitTested(engine: Engine)
      reads this
    {
      if !meshLoaded then HitStateUnchanged()
      else if engine.raycast(mouse) != [] then
        var hit := engine.raycast(mouse)[0];
        intersection == Intersection(true, hit.point, hit.faceNormal) &&
        helperPosition == hit.point && invWorld == engine.headInverse
      else
        intersection == old(intersection).(intersects := false) &&
        helperPosition == old(helperPosition) && invWorld == old(invWorld)
    }

    /** No hit-test ran: the record, the pointer helper and the inverse head
        matrix are as they were. */
    twostate predicate HitStateUnchanged()
      reads this
    {
      intersection == old(intersection) && helperPosition == old(helperPosition) && invWorld == old(invWorld)
    }

    /** What `shoot` does: p is the recorded hit point in head-model
        coordinates, s the uniform random scale, r the policy's Euler angles
        with the random roll, and exactly one decal clipped with that box is
        appended. */
    twostate predicate Shot(engine: Engine, uScale: real, uRoll: real, material: Uuid)
      requires 0.0 <= uScale < 1.0 && 0.0 <= uRoll < 1.0
      reads this
    {
      && p == engine.applyMatrix(invWorld, intersection.point)
      && s == UniformScale(params.minScale, params.maxScale, uScale)
      && r == DecalRotation(
           if params.projection == FromCamera then engine.cameraFacing(invWorld, intersection.point)
           else engine.surfaceAligned(invWorld),
           params.rotate, uRoll)
      && decals == old(decals) + [Decal(material, engine.decalGeometry(p, r, s))]
    }

    /** Hit-tests the pointer against the target mesh. */
    method CheckIntersection(engine: Engine)
      modifies this`intersection, this`helperPosition, this`invWorld
      ensures HitTested(engine)
    {
      if !meshLoaded {
        return;
      }
      var hits := engine.raycast(mouse);
      if |hits| > 0 {
        invWorld := engine.headInverse;
        helperPosition := hits[0].point;
        intersection := intersection.(point := hits[0].point);
        intersection := intersection.(normal := hits[0].faceNormal);
        intersection := intersection.(intersects := true);
      } else {
        intersection := intersection.(intersects := false);
      }
    }

    /** Places a decal at the recorded hit point. `uScale` and `uRoll` are
        the random draws, `material` the uuid of the fresh material clone. */
    method Shoot(engine: Engine, uScale: real, uRoll: real, material: Uuid)
      requires Valid()
      requires 0.0 <= uScale < 1.0 && 0.0 <= uRoll < 1.0
      modifies this`decals, this`headDecals, this`p, this`r, this`s
      ensures Valid()
      ensures Shot(engine, uScale, uRoll, material)
    {
      var point := intersection.point;
      if params.projection == FromCamera {
        r := engine.cameraFacing(invWorld, point);
      } else {
        r := engine.surfaceAligned(invWorld);
      }
      p := engine.applyMatrix(invWorld, point);
      var scale := DecalScale(params.minScale, params.maxScale, uScale);
      s := Vec3(scale, scale, scale);
      if params.rotate {
        r := r.(z := Roll(uRoll));
      }
      var decal := Decal(material, engine.decalGeometry(p, r, s));
      decals := decals + [decal];
      headDecals := headDecals + [decal];
    }

    /** Detaches every decal from the head model and empties the list. */
    method RemoveDecals()
      requires Valid()
      modifies this`decals, this`headDecals
      ensures Valid() && decals == []
    {
      var i := 0;
      while i < |decals|
        invariant 0 <= i <= |decals|
        invariant headDecals == decals[i..]
      {
        assert headDecals[0] == decals[i];
        headDecals := Detach(headDecals, decals[i]);
        i := i + 1;
      }
      decals := [];
    }

    /** Replaces the decals by one decal per material whose geometry is the
        concatenation, in list order, of that material's decals' geometries. */
    method MergeDecals()
      requires Valid()
      modifies this`decals, this`headDecals
      ensures Valid()
      ensures decals == Merge(old(decals))
    {
      var merge, keys := GroupByMaterial(decals);
      ghost var merged := Merge(decals);
      MergeOfAccumulator(decals);
      RemoveDecals();
      var j := 0;
      while j < |keys|
        invariant 0 <= j <= |keys| == |merged|
        invariant Valid()
        invariant decals == merged[..j]
      {
        var decal := Decal(keys[j], merge[keys[j]]);
        assert merged[..j + 1] == merged[..j] + [decal];
        headDecals := headDecals + [decal];
        decals := decals + [decal];
        j := j + 1;
      }
    }

    /** `touchstart`: only records the pointer. */
    method OnTouchStart(x: real, y: real, width: real, height: real)
      requires width > 0.0 && height > 0.0
      modifies this`mouse
      ensures mouse == Normalize(x, y, width, height)
    {
      mouse := Normalize(x, y, width, height);
    }

    /** `mouseup`: hit-tests in every view mode and places a decal on a hit. */
    method OnMouseUp(engine: Engine, x: real, y: real, width: real, height: real,
                     uScale: real, uRoll: real, material: Uuid)
      requires Valid()
      requires width > 0.0 && height > 0.0
      requires 0.0 <= uScale < 1.0 && 0.0 <= uRoll < 1.0
      modifies this`mouse, this`intersection, this`helperPosition, this`invWorld
      modifies this`decals, this`headDecals, this`p, this`r, this`s
      ensures Valid()
      ensures mouse == Normalize(x, y, width, height)
      ensures HitTested(engine)
      ensures meshLoaded ==> intersection.intersects == (engine.raycast(mouse) != [])
      ensures intersection.intersects ==> Shot(engine, uScale, uRoll, material)
      ensures !intersection.intersects ==> decals == old(decals) && p == old(p) && r == old(r) && s == old(s)
    {
      mouse := Normalize(x, y, width, height);
      CheckIntersection(engine);
      if intersection.intersects {
        Shoot(engine, uScale, uRoll, material);
      }
    }

    /** `touchend`: hit-tests only in mono mode, and on a hit asks for a
        decal to be placed at the next animation frame (reported by
        `shootRequested`; the host then calls `Shoot`). */
    method OnTouchEnd(engine: Engine, x: real, y: real, width: real, height: real)
      returns (shootRequested: bool)
      requires width > 0.0 && height > 0.0
      modifies this`mouse, this`intersection, this`helperPosition, this`invWorld
      ensures mouse == Normalize(x, y, width, height)
      ensures !monoMode ==> HitStateUnchanged() && !shootRequested
      ensures monoMode ==> HitTested(engine)
      ensures monoMode && meshLoaded ==> intersection.intersects == (engine.raycast(mouse) != [])
      ensures shootRequested == (monoMode && intersection.intersects)
    {
      mouse := Normalize(x, y, width, height);
      shootRequested := false;
      if monoMode {
        CheckIntersection(engine);
        shootRequested := intersection.intersects;
      }
    }

    /** `touchmove` and `mousemove`: record the pointer and, in mono mode
        only, hit-test it. */
    method OnPointerMove(engine: Engine, x: real, y: real, width: real, height: real)
      requires width > 0.0 && height > 0.0
      modifies this`mouse, this`intersection, this`helperPosition, this`invWorld
      ensures mouse == Normalize(x, y, width, height)
      ensures !monoMode ==> HitStateUnchanged()
      ensures monoMode ==> HitTested(engine)
      ensures monoMode && meshLoaded ==> intersection.intersects == (engine.raycast(mouse) != [])
    {
      mouse := Normalize(x, y, width, height);
      if monoMode {
        CheckIntersection(engine);
      }
    }

    /** The per-frame update for the tracked target's pose report. */
    method OnTrackingUpdate(pose: Pose)
      modifies this`targetPosition, this`targetOrientation, this`targetInScene, this`headOffset
      ensures TargetAnchor() == Track(old(TargetAnchor()), pose)
      ensures decals == old(decals) && headDecals == old(headDecals)
    {
      if Has(pose.status, Known) {
        targetPosition := pose.position;
        targetOrientation := pose.orientation;
      }
      if Has(pose.status, Found) {
        targetInScene := true;
        headOffset := HeadOffset;
      } else if Has(pose.status, Lost) {
        targetInScene := false;
      }
    }
  }
}
