/** What the per-frame update does with the tracked target's pose. The
    tracker reports a status bitmask; KNOWN means the pose is valid this
    frame, FOUND that the target has just appeared, LOST that it has just
    disappeared. The target's object (which holds the head model and so
    every decal) is put into the scene on FOUND and taken out on LOST, and
    is never destroyed. */
module Tracking {
  import opened Geometry

  /** The tracker's pose-status bits. */
  const Known: bv8 := 1
  const Found: bv8 := 2
  const Lost: bv8 := 4

  /** Where the head model sits inside the target's object once the target is found. */
  const HeadOffset: Vec3 := Vec3(0.0, 0.0, 0.08)

  predicate Has(status: bv8, flag: bv8)
  {
    status & flag != 0
  }

  /** One pose report for the target. */
  datatype Pose = Pose(status: bv8, position: Vec3, orientation: Quat)

  /** The target's object: its pose, whether it is in the scene, and the
      offset of the head model inside it. */
  datatype Anchor = Anchor(position: Vec3, orientation: Quat, inScene: bool, headOffset: Vec3)

  /** One run of the update listener for a pose report. */
  function Track(a: Anchor, pose: Pose): (r: Anchor)
    ensures Has(pose.status, Known) ==> r.position == pose.position && r.orientation == pose.orientation
    ensures !Has(pose.status, Known) ==> r.position == a.position && r.orientation == a.orientation
    ensures Has(pose.status, Found) ==> r.inScene && r.headOffset == HeadOffset
    ensures !Has(pose.status, Found) && Has(pose.status, Lost) ==> !r.inScene && r.headOffset == a.headOffset
    ensures !Has(pose.status, Found) && !Has(pose.status, Lost) ==> r.inScene == a.inScene && r.headOffset == a.headOffset
  {
    var placed := if Has(pose.status, Known) then a.(position := pose.position, orientation := pose.orientation) else a;
    if Has(pose.status, Found) then placed.(inScene := true, headOffset := HeadOffset)
    else if Has(pose.status, Lost) then placed.(inScene := false)
    else placed
  }

  /** The anchor after a run of pose reports, oldest first. */
  function TrackAll(a: Anchor, poses: seq<Pose>): Anchor
  {
    if poses == [] then a else Track(TrackAll(a, poses[..|poses| - 1]), poses[|poses| - 1])
  }

  /** The latest report that decides whether the target is shown: one with FOUND or LOST set. */
  function LastVisibilityChange(poses: seq<Pose>): (i: int)
    ensures -1 <= i < |poses|
    ensures 0 <= i ==> Has(poses[i].status, Found) || Has(poses[i].status, Lost)
    ensures forall j :: i < j < |poses| ==> !Has(poses[j].status, Found) && !Has(poses[j].status, Lost)
  {
    if poses == [] then -1
    else
      var n := |poses| - 1;
      if Has(poses[n].status, Found) || Has(poses[n].status, Lost) then n
      else LastVisibilityChange(poses[..n])
  }

  /** The latest report with a valid pose. */
  function LastKnown(poses: seq<Pose>): (i: int)
    ensures -1 <= i < |poses|
    ensures 0 <= i ==> Has(poses[i].status, Known)
    ensures forall j :: i < j < |poses| ==> !Has(poses[j].status, Known)
  {
    if poses == [] then -1
    else
      var n := |poses| - 1;
      if Has(poses[n].status, Known) then n else LastKnown(poses[..n])
  }

  /** After any run of reports the target is in the scene exactly when the
      latest FOUND-or-LOST report had FOUND set (or, if there was none, when
      it was in the scene before); its pose is that of the latest KNOWN
      report. Losing and finding the target again never depends on anything
      else, so the head model and its decals come back unchanged. */
  lemma {:induction false} TrackAllFollowsLatest(a: Anchor, poses: seq<Pose>)
    ensures var r, i, k := TrackAll(a, poses), LastVisibilityChange(poses), LastKnown(poses);
      && r.inScene == (if i < 0 then a.inScene else Has(poses[i].status, Found))
      && r.position == (if k < 0 then a.position else poses[k].position)
      && r.orientation == (if k < 0 then a.orientation else poses[k].orientation)
  {
    if poses != [] {
      var n := |poses| - 1;
      var prefix := poses[..n];
      TrackAllFollowsLatest(a, prefix);
      assert forall j :: 0 <= j < n ==> prefix[j] == poses[j];
    }
  }

  /** Once found, the target stays in the scene until a report without FOUND
      but with LOST arrives; a report carrying both bits keeps it shown. */
  lemma {:induction false} StaysUntilLost(a: Anchor, poses: seq<Pose>)
    requires a.inScene
    requires forall j :: 0 <= j < |poses| ==> Has(poses[j].status, Found) || !Has(poses[j].status, Lost)
    ensures TrackAll(a, poses).inScene
  {
    if poses != [] {
      StaysUntilLost(a, poses[..|poses| - 1]);
    }
  }
}
