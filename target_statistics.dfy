/**
 * `TargetStatistics`: one pose statistic and one corner statistic for the
 * same target, updated together and reporting their results unchanged.
 */
module Targets {
  import opened Wrappers
  import opened Geometry
  import opened Buffer
  import opened Stats
  import opened Corners
  import opened Poses

  class TargetStatistics {
    var bufferSeconds: real
    const poseStats: PoseStatistics
    const cornerStats: CornerStatistics
    ghost var Repr: set<object>

    /** The two children are valid and own disjoint parts of the heap. */
    ghost predicate Valid()
      reads this, Repr
    {
      this in Repr && poseStats in Repr && cornerStats in Repr &&
      poseStats.Repr <= Repr && cornerStats.Repr <= Repr &&
      this !in poseStats.Repr && this !in cornerStats.Repr &&
      poseStats.Repr !! cornerStats.Repr &&
      bufferSeconds >= 0.0 &&
      poseStats.Valid() && cornerStats.Valid()
    }

    /**
     * The base constructor's `setBufferSeconds` runs before the children
     * exist and sets only the window field; then the corner child is built
     * with `bufferSeconds` while the pose child's buffers keep 3 seconds.
     */
    constructor (bufferSeconds: real, math: RotationMath)
      requires bufferSeconds >= 0.0
      ensures Valid() && fresh(Repr)
      ensures this.bufferSeconds == bufferSeconds
      ensures poseStats.bufferSeconds == bufferSeconds && poseStats.math == math
      ensures poseStats.targetTrlBuffer.bufferSeconds == 3.0 && poseStats.targetRotBuffer.bufferSeconds == 3.0
      ensures poseStats.targetTrlBuffer.entries == [] && poseStats.targetRotBuffer.entries == []
      ensures poseStats.Cached() == InitialSummary
      ensures cornerStats.bufferSeconds == bufferSeconds && cornerStats.samples == []
    {
      this.bufferSeconds := bufferSeconds;
      poseStats := new PoseStatistics(bufferSeconds, math);
      cornerStats := new CornerStatistics(bufferSeconds);
      new;
      Repr := {this} + poseStats.Repr + cornerStats.Repr;
    }

    /** Sets the window field and passes the window on to both children. */
    method SetBufferSeconds(bufferSeconds: real)
      requires Valid() && bufferSeconds >= 0.0
      modifies Repr
      ensures Valid() && Repr == old(Repr)
      ensures this.bufferSeconds == bufferSeconds
      ensures poseStats.bufferSeconds == bufferSeconds
      ensures poseStats.targetTrlBuffer.bufferSeconds == bufferSeconds
      ensures poseStats.targetRotBuffer.bufferSeconds == bufferSeconds
      ensures cornerStats.bufferSeconds == bufferSeconds
      ensures poseStats.targetTrlBuffer.entries == old(poseStats.targetTrlBuffer.entries)
      ensures poseStats.targetRotBuffer.entries == old(poseStats.targetRotBuffer.entries)
      ensures poseStats.Cached() == old(poseStats.Cached())
      ensures cornerStats.samples == old(cornerStats.samples)
    {
      this.bufferSeconds := bufferSeconds;
      poseStats.SetBufferSeconds(bufferSeconds);
      cornerStats.SetBufferSeconds(bufferSeconds);
    }

    /**
     * `update(pose, corners, timestamp)`: the pose goes to the pose child
     * and the corners to the corner child, at the same timestamp and each
     * regardless of the other (a null pose still updates the corners, and
     * no corners still update the pose).
     */
    method Update(pose: Option<Pose3d>, corners: seq<TargetCorner>, timestamp: real)
      requires Valid()
      modifies Repr
      ensures Valid() && fresh(Repr - old(Repr))
      ensures bufferSeconds == old(bufferSeconds)
      ensures poseStats.targetTrlBuffer.entries ==
                AfterUpdate(old(poseStats.targetTrlBuffer.entries), TranslationOf(pose), timestamp,
                            poseStats.targetTrlBuffer.bufferSeconds)
      ensures poseStats.targetRotBuffer.entries ==
                AfterUpdate(old(poseStats.targetRotBuffer.entries), RotationOf(pose), timestamp,
                            poseStats.targetRotBuffer.bufferSeconds)
      ensures pose.None? ==> poseStats.Cached() == old(poseStats.Cached())
      ensures cornerStats.samples == CornerUpdate(old(cornerStats.samples), corners, timestamp, cornerStats.bufferSeconds)
      ensures corners == [] ==>
                cornerStats.cornerAvgs == old(cornerStats.cornerAvgs) &&
                cornerStats.cornerStdDevs == old(cornerStats.cornerStdDevs) &&
                cornerStats.totalCornerSqError == old(cornerStats.totalCornerSqError) &&
                cornerStats.totalCornerStdDev == old(cornerStats.totalCornerStdDev)
      ensures poseStats.bufferSeconds == old(poseStats.bufferSeconds)
      ensures poseStats.targetTrlBuffer.bufferSeconds == old(poseStats.targetTrlBuffer.bufferSeconds)
      ensures poseStats.targetRotBuffer.bufferSeconds == old(poseStats.targetRotBuffer.bufferSeconds)
      ensures cornerStats.bufferSeconds == old(cornerStats.bufferSeconds)
    {
      UpdatePose(pose, timestamp);
      UpdateCorners(corners, timestamp);
    }

    /**
     * `update(pose, tcornxy, timestamp)`: as `Update`, with the corners
     * decoded from the flat array, so an empty or odd-length array leaves
     * the corner child as it was.
     */
    method UpdateFlat(pose: Option<Pose3d>, tcornxy: seq<real>, timestamp: real)
      requires Valid()
      modifies Repr
      ensures Valid() && fresh(Repr - old(Repr))
      ensures bufferSeconds == old(bufferSeconds)
      ensures poseStats.targetTrlBuffer.entries ==
                AfterUpdate(old(poseStats.targetTrlBuffer.entries), TranslationOf(pose), timestamp,
                            poseStats.targetTrlBuffer.bufferSeconds)
      ensures poseStats.targetRotBuffer.entries ==
                AfterUpdate(old(poseStats.targetRotBuffer.entries), RotationOf(pose), timestamp,
                            poseStats.targetRotBuffer.bufferSeconds)
      ensures pose.None? ==> poseStats.Cached() == old(poseStats.Cached())
      ensures cornerStats.samples ==
                CornerUpdate(old(cornerStats.samples), Decode(tcornxy), timestamp, cornerStats.bufferSeconds)
      ensures Decode(tcornxy) == [] ==>
                cornerStats.cornerAvgs == old(cornerStats.cornerAvgs) &&
                cornerStats.cornerStdDevs == old(cornerStats.cornerStdDevs) &&
                cornerStats.totalCornerSqError == old(cornerStats.totalCornerSqError) &&
                cornerStats.totalCornerStdDev == old(cornerStats.totalCornerStdDev)
      ensures poseStats.bufferSeconds == old(poseStats.bufferSeconds)
      ensures poseStats.targetTrlBuffer.bufferSeconds == old(poseStats.targetTrlBuffer.bufferSeconds)
      ensures poseStats.targetRotBuffer.bufferSeconds == old(poseStats.targetRotBuffer.bufferSeconds)
      ensures cornerStats.bufferSeconds == old(cornerStats.bufferSeconds)
    {
      UpdatePose(pose, timestamp);
      UpdateCornersFlat(tcornxy, timestamp);
    }

    /** The pose half of an update: only the pose child changes. */
    method UpdatePose(pose: Option<Pose3d>, timestamp: real)
      requires Valid()
      modifies poseStats.Repr
      ensures Valid() && poseStats.Repr == old(poseStats.Repr)
      ensures poseStats.targetTrlBuffer.entries ==
                AfterUpdate(old(poseStats.targetTrlBuffer.entries), TranslationOf(pose), timestamp,
                            poseStats.targetTrlBuffer.bufferSeconds)
      ensures poseStats.targetRotBuffer.entries ==
                AfterUpdate(old(poseStats.targetRotBuffer.entries), RotationOf(pose), timestamp,
                            poseStats.targetRotBuffer.bufferSeconds)
      ensures pose.None? ==> poseStats.Cached() == old(poseStats.Cached())
      ensures poseStats.bufferSeconds == old(poseStats.bufferSeconds)
      ensures poseStats.targetTrlBuffer.bufferSeconds == old(poseStats.targetTrlBuffer.bufferSeconds)
      ensures poseStats.targetRotBuffer.bufferSeconds == old(poseStats.targetRotBuffer.bufferSeconds)
      ensures cornerStats.bufferSeconds == old(cornerStats.bufferSeconds)
    {
      poseStats.Update(pose, timestamp);
    }

    /** The corner half of an update: only the corner child changes. */
    method UpdateCorners(corners: seq<TargetCorner>, timestamp: real)
      requires Valid()
      modifies this`Repr, cornerStats.Repr
      ensures Valid() && fresh(Repr - old(Repr)) && poseStats.Repr == old(poseStats.Repr)
      ensures cornerStats.samples == CornerUpdate(old(cornerStats.samples), corners, timestamp, cornerStats.bufferSeconds)
      ensures corners == [] ==>
                cornerStats.cornerAvgs == old(cornerStats.cornerAvgs) &&
                cornerStats.cornerStdDevs == old(cornerStats.cornerStdDevs) &&
                cornerStats.totalCornerSqError == old(cornerStats.totalCornerSqError) &&
                cornerStats.totalCornerStdDev == old(cornerStats.totalCornerStdDev)
      ensures poseStats.bufferSeconds == old(poseStats.bufferSeconds)
      ensures poseStats.targetTrlBuffer.bufferSeconds == old(poseStats.targetTrlBuffer.bufferSeconds)
      ensures poseStats.targetRotBuffer.bufferSeconds == old(poseStats.targetRotBuffer.bufferSeconds)
      ensures cornerStats.bufferSeconds == old(cornerStats.bufferSeconds)
    {
      cornerStats.Update(corners, timestamp);
      Repr := Repr + cornerStats.Repr;
    }

    /** The corner half of a flat-array update. */
    method UpdateCornersFlat(tcornxy: seq<real>, timestamp: real)
      requires Valid()
      modifies this`Repr, cornerStats.Repr
      ensures Valid() && fresh(Repr - old(Repr)) && poseStats.Repr == old(poseStats.Repr)
      ensures cornerStats.samples ==
                CornerUpdate(old(cornerStats.samples), Decode(tcornxy), timestamp, cornerStats.bufferSeconds)
      ensures Decode(tcornxy) == [] ==>
                cornerStats.cornerAvgs == old(cornerStats.cornerAvgs) &&
                cornerStats.cornerStdDevs == old(cornerStats.cornerStdDevs) &&
                cornerStats.totalCornerSqError == old(cornerStats.totalCornerSqError) &&
                cornerStats.totalCornerStdDev == old(cornerStats.totalCornerStdDev)
      ensures poseStats.bufferSeconds == old(poseStats.bufferSeconds)
      ensures poseStats.targetTrlBuffer.bufferSeconds == old(poseStats.targetTrlBuffer.bufferSeconds)
      ensures poseStats.targetRotBuffer.bufferSeconds == old(poseStats.targetRotBuffer.bufferSeconds)
      ensures cornerStats.bufferSeconds == old(cornerStats.bufferSeconds)
    {
      cornerStats.UpdateFlat(tcornxy, timestamp);
      Repr := Repr + cornerStats.Repr;
    }

    function GetTranslationAvg(): (r: Translation3d)
      requires Valid()
      reads this, Repr
      ensures r == poseStats.translationAvg
    {
      poseStats.GetTranslationAvg()
    }

    function GetTranslationStdDev(): (r: Vec3<Sqrt>)
      requires Valid()
      reads this, Repr
      ensures r == poseStats.translationStdDev
    {
      poseStats.GetTranslationStdDev()
    }

    function GetRotationAvg(): (r: Rotation3d)
      requires Valid()
      reads this, Repr
      ensures r == poseStats.rotationAvg
    {
      poseStats.GetRotationAvg()
    }

    function GetRotationStdDev(): (r: seq<Sqrt>)
      requires Valid()
      reads this, Repr
      ensures r == poseStats.rotationStdDev
    {
      poseStats.GetRotationStdDev()
    }

    function GetCornerAvgs(): (r: seq<TargetCorner>)
      requires Valid()
      reads this, Repr
      ensures r == cornerStats.cornerAvgs
    {
      cornerStats.GetCornerAvgs()
    }

    function GetCornerStdDevs(): (r: seq<Vec2<Sqrt>>)
      requires Valid()
      reads this, Repr
      ensures r == cornerStats.cornerStdDevs
    {
      cornerStats.GetCornerStdDevs()
    }

    function GetTotalCornerStdDev(): (r: Vec2<Sqrt>)
      requires Valid()
      reads this, Repr
      ensures r == cornerStats.totalCornerStdDev
    {
      cornerStats.GetTotalCornerStdDev()
    }

    function GetTotalCornerSqError(): (r: TargetCorner)
      requires Valid()
      reads this, Repr
      ensures r == cornerStats.totalCornerSqError
    {
      cornerStats.GetTotalCornerSqError()
    }
  }
}
