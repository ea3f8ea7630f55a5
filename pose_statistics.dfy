/**
 * `PoseStatistics`: a target's translations and rotations in two timed
 * buffers fed in lockstep, and the cached translation mean and deviation
 * and rotation mean and deviation of what the buffers hold.
 */
module Poses {
  import opened Wrappers
  import opened Geometry
  import opened Buffer
  import opened Stats

  /** The four cached results of `calculate`. */
  datatype PoseSummary = PoseSummary(
    translationAvg: Translation3d,
    translationStdDev: Vec3<Sqrt>,
    rotationAvg: Rotation3d,
    rotationStdDev: seq<Sqrt>)

  /** The field initialisers: zero translation and deviation, identity rotation, no rotation deviation. */
  const InitialSummary: PoseSummary :=
    PoseSummary(Vec3(0.0, 0.0, 0.0), Vec3(ZeroSqrt, ZeroSqrt, ZeroSqrt), IdentityRotation, [])

  /**
   * `calculate` on the buffered samples: the per-axis translation mean and
   * population deviation about it, the rotation average of `math`, and the
   * wrapped per-angle deviation about that average.
   */
  function Summary(trls: seq<Translation3d>, rots: seq<Rotation3d>, math: RotationMath): PoseSummary
    requires |trls| > 0
  {
    var trlAvg := TranslationMean(trls);
    var rotAvg := math.average(rots);
    PoseSummary(trlAvg, TranslationStdDev(trlAvg, trls), rotAvg, RotationStdDev(rotAvg, rots, math.angleModulus))
  }

  /**
   * The translation part of a summary is the per-axis mean and population
   * deviation about it: variance times count is the squared-error sum.
   */
  lemma SummaryTranslation(trls: seq<Translation3d>, rots: seq<Rotation3d>, math: RotationMath)
    requires |trls| > 0
    ensures var s := Summary(trls, rots, math);
            s.translationAvg == Vec3(Mean(TrlXs(trls)), Mean(TrlYs(trls)), Mean(TrlZs(trls))) &&
            Weighted(s.translationStdDev.x, |trls|) == SqErrorSum(s.translationAvg.x, TrlXs(trls)) &&
            Weighted(s.translationStdDev.y, |trls|) == SqErrorSum(s.translationAvg.y, TrlYs(trls)) &&
            Weighted(s.translationStdDev.z, |trls|) == SqErrorSum(s.translationAvg.z, TrlZs(trls))
  {
    var avg := TranslationMean(trls);
    StdDevTimesCount(avg.x, TrlXs(trls));
    StdDevTimesCount(avg.y, TrlYs(trls));
    StdDevTimesCount(avg.z, TrlZs(trls));
  }

  /**
   * The rotation part of a summary is the average of `math`, and the
   * rotation deviation has three non-negative entries when there are rotations.
   */
  lemma SummaryRotation(trls: seq<Translation3d>, rots: seq<Rotation3d>, math: RotationMath)
    requires |trls| > 0
    ensures var s := Summary(trls, rots, math);
            s.rotationAvg == math.average(rots) &&
            |s.rotationStdDev| == (if |rots| == 0 then 0 else 3) &&
            forall i :: 0 <= i < |s.rotationStdDev| ==> s.rotationStdDev[i].radicand >= 0.0
  {
  }

  /** Translations inside a box have their mean inside the same box. */
  lemma SummaryWithinBox(trls: seq<Translation3d>, rots: seq<Rotation3d>, math: RotationMath,
                         lo: Translation3d, hi: Translation3d)
    requires |trls| > 0
    requires forall i :: 0 <= i < |trls| ==>
               lo.x <= trls[i].x <= hi.x && lo.y <= trls[i].y <= hi.y && lo.z <= trls[i].z <= hi.z
    ensures var avg := Summary(trls, rots, math).translationAvg;
            lo.x <= avg.x <= hi.x && lo.y <= avg.y <= hi.y && lo.z <= avg.z <= hi.z
  {
    MeanBounds(TrlXs(trls), lo.x, hi.x);
    MeanBounds(TrlYs(trls), lo.y, hi.y);
    MeanBounds(TrlZs(trls), lo.z, hi.z);
  }

  /** A target that has not moved: its translation is the mean, with zero deviation. */
  lemma SummaryOfStill(trls: seq<Translation3d>, rots: seq<Rotation3d>, math: RotationMath, c: Translation3d)
    requires |trls| > 0
    requires forall i :: 0 <= i < |trls| ==> trls[i] == c
    ensures Summary(trls, rots, math).translationAvg == c
    ensures Summary(trls, rots, math).translationStdDev == Vec3(ZeroSqrt, ZeroSqrt, ZeroSqrt)
  {
    StdDevOfConstant(TrlXs(trls), c.x);
    StdDevOfConstant(TrlYs(trls), c.y);
    StdDevOfConstant(TrlZs(trls), c.z);
  }

  /** The translation of a possibly-null pose. */
  function TranslationOf(pose: Option<Pose3d>): Option<Translation3d>
  {
    if pose.None? then None else Some(pose.value.translation)
  }

  /** The rotation of a possibly-null pose. */
  function RotationOf(pose: Option<Pose3d>): Option<Rotation3d>
  {
    if pose.None? then None else Some(pose.value.rotation)
  }

  class PoseStatistics {
    var bufferSeconds: real
    /** The rotation average and angle wrapping the statistics use. */
    const math: RotationMath
    const targetTrlBuffer: TimedBuffer<Translation3d>
    const targetRotBuffer: TimedBuffer<Rotation3d>
    var translationAvg: Translation3d
    var translationStdDev: Vec3<Sqrt>
    var rotationAvg: Rotation3d
    var rotationStdDev: seq<Sqrt>
    ghost var Repr: set<object>

    ghost function Cached(): PoseSummary
      reads this
    {
      PoseSummary(translationAvg, translationStdDev, rotationAvg, rotationStdDev)
    }

    /**
     * The buffers are sorted, share one non-negative window and one key
     * set, and the cached results are those of the buffered samples (the
     * initial values while nothing has been buffered).
     */
    ghost predicate Valid()
      reads this, Repr
    {
      Repr == {this, targetTrlBuffer, targetRotBuffer} &&
      (targetTrlBuffer as object) != (targetRotBuffer as object) &&
      bufferSeconds >= 0.0 &&
      targetTrlBuffer.Valid() && targetRotBuffer.Valid() &&
      targetTrlBuffer.bufferSeconds == targetRotBuffer.bufferSeconds >= 0.0 &&
      Keys(targetTrlBuffer.entries) == Keys(targetRotBuffer.entries) &&
      Cached() == if targetTrlBuffer.entries == [] then InitialSummary
                  else Summary(Values(targetTrlBuffer.entries), Values(targetRotBuffer.entries), math)
    }

    /**
     * The base constructor's `setBufferSeconds` runs before the buffer
     * fields are initialised, so it sets only the window field; the
     * buffers then get the default 3-second window.
     */
    constructor (bufferSeconds: real, math: RotationMath)
      requires bufferSeconds >= 0.0
      ensures Valid() && fresh(Repr)
      ensures this.bufferSeconds == bufferSeconds && this.math == math
      ensures targetTrlBuffer.entries == [] && targetRotBuffer.entries == []
      ensures targetTrlBuffer.bufferSeconds == 3.0 && targetRotBuffer.bufferSeconds == 3.0
      ensures Cached() == InitialSummary
    {
      this.bufferSeconds := bufferSeconds;
      this.math := math;
      targetTrlBuffer := new TimedBuffer<Translation3d>();
      targetRotBuffer := new TimedBuffer<Rotation3d>();
      translationAvg := Vec3(0.0, 0.0, 0.0);
      translationStdDev := Vec3(ZeroSqrt, ZeroSqrt, ZeroSqrt);
      rotationAvg := IdentityRotation;
      rotationStdDev := [];
      new;
      Repr := {this, targetTrlBuffer, targetRotBuffer};
    }

    /** Sets the window field and both buffers' windows; nothing is evicted. */
    method SetBufferSeconds(bufferSeconds: real)
      requires Valid() && bufferSeconds >= 0.0
      modifies Repr
      ensures Valid() && Repr == old(Repr)
      ensures this.bufferSeconds == bufferSeconds
      ensures targetTrlBuffer.bufferSeconds == bufferSeconds && targetRotBuffer.bufferSeconds == bufferSeconds
      ensures targetTrlBuffer.entries == old(targetTrlBuffer.entries)
      ensures targetRotBuffer.entries == old(targetRotBuffer.entries)
      ensures Cached() == old(Cached())
    {
      this.bufferSeconds := bufferSeconds;
      targetTrlBuffer.SetBufferSeconds(bufferSeconds);
      targetRotBuffer.SetBufferSeconds(bufferSeconds);
    }

    /** `calculate`: the four cached results from the buffers' values. */
    method Calculate()
      requires targetTrlBuffer.entries != []
      modifies this`translationAvg, this`translationStdDev, this`rotationAvg, this`rotationStdDev
      ensures Cached() == Summary(Values(targetTrlBuffer.entries), Values(targetRotBuffer.entries), math)
    {
      var trls := Values(targetTrlBuffer.entries);
      translationAvg := FindTranslationAverage(trls);
      translationStdDev := FindTranslationStdDev(translationAvg, trls);
      var rots := Values(targetRotBuffer.entries);
      rotationAvg := math.average(rots);
      rotationStdDev := FindRotationStdDev(rotationAvg, rots, math.angleModulus);
    }

    /**
     * `update(pose, timestamp)`: a null pose changes nothing; otherwise the
     * translation and the rotation are put into their buffers at the same
     * timestamp and the cached results are recomputed.
     */
    method Update(pose: Option<Pose3d>, timestamp: real)
      requires Valid()
      modifies Repr
      ensures Valid() && Repr == old(Repr)
      ensures bufferSeconds == old(bufferSeconds)
      ensures targetTrlBuffer.bufferSeconds == old(targetTrlBuffer.bufferSeconds)
      ensures targetTrlBuffer.entries ==
                AfterUpdate(old(targetTrlBuffer.entries), TranslationOf(pose), timestamp, targetTrlBuffer.bufferSeconds)
      ensures targetRotBuffer.entries ==
                AfterUpdate(old(targetRotBuffer.entries), RotationOf(pose), timestamp, targetRotBuffer.bufferSeconds)
      ensures pose.None? ==> Cached() == old(Cached())
      ensures pose.Some? ==>
                Lookup(targetTrlBuffer.entries, timestamp) == Some(pose.value.translation) &&
                Lookup(targetRotBuffer.entries, timestamp) == Some(pose.value.rotation) &&
                |rotationStdDev| == 3
    {
      if pose.None? {
        return;
      }
      UpdateSameKeys(targetTrlBuffer.entries, targetRotBuffer.entries,
                     pose.value.translation, pose.value.rotation, timestamp, targetTrlBuffer.bufferSeconds);
      var _ := targetTrlBuffer.Update(TranslationOf(pose), timestamp);
      var _ := targetRotBuffer.Update(RotationOf(pose), timestamp);
      Calculate();
    }

    function GetTranslationAvg(): (r: Translation3d)
      requires Valid()
      reads this, Repr
      ensures targetTrlBuffer.entries == [] ==> r == Vec3(0.0, 0.0, 0.0)
      ensures targetTrlBuffer.entries != [] ==> r == TranslationMean(Values(targetTrlBuffer.entries))
    {
      translationAvg
    }

    function GetTranslationStdDev(): (r: Vec3<Sqrt>)
      requires Valid()
      reads this, Repr
      ensures targetTrlBuffer.entries == [] ==> r == Vec3(ZeroSqrt, ZeroSqrt, ZeroSqrt)
      ensures targetTrlBuffer.entries != [] ==>
                r == TranslationStdDev(TranslationMean(Values(targetTrlBuffer.entries)), Values(targetTrlBuffer.entries))
    {
      translationStdDev
    }

    function GetRotationAvg(): (r: Rotation3d)
      requires Valid()
      reads this, Repr
      ensures targetTrlBuffer.entries == [] ==> r == IdentityRotation
      ensures targetTrlBuffer.entries != [] ==> r == math.average(Values(targetRotBuffer.entries))
    {
      rotationAvg
    }

    function GetRotationStdDev(): (r: seq<Sqrt>)
      requires Valid()
      reads this, Repr
      ensures targetTrlBuffer.entries == [] ==> r == []
      ensures targetTrlBuffer.entries != [] ==>
                r == RotationStdDev(math.average(Values(targetRotBuffer.entries)),
                                    Values(targetRotBuffer.entries), math.angleModulus)
    {
      rotationStdDev
    }
  }
}
