/**
 * The static statistics of the abstract `Statistics` class: population
 * mean, squared-error sum and standard deviation for scalars, 3-D
 * translations, 2-D corners and rotations, and the pose/transform array
 * conversions.
 *
 * Each quantity has a recursive specification function (`Mean`,
 * `SqErrorSum`, ...) and a method that computes it with the source's
 * accumulator loop (`FindAverage`, `FindSqErrorSum`, ...).
 */
module Stats {
  import opened Geometry

  // ================================================================ scalars

  /** `d * d`. */
  function Square(d: real): (r: real)
    ensures r >= 0.0
  {
    d * d
  }

  function Sum(vs: seq<real>): real
  {
    if vs == [] then 0.0 else Sum(vs[..|vs| - 1]) + vs[|vs| - 1]
  }

  /** The arithmetic mean; 0.0 for no values. */
  function Mean(vs: seq<real>): (r: real)
    ensures |vs| > 0 ==> r * (|vs| as real) == Sum(vs)
  {
    if |vs| == 0 then 0.0 else Sum(vs) / (|vs| as real)
  }

  /** The sum of squared deviations from `avg`; never negative. */
  function SqErrorSum(avg: real, vs: seq<real>): (r: real)
    ensures r >= 0.0
  {
    if vs == [] then 0.0
    else
      var d := vs[|vs| - 1] - avg;
      SqErrorSum(avg, vs[..|vs| - 1]) + Square(d)
  }

  /**
   * The population standard deviation about `avg`: zero for no values,
   * otherwise the root of the squared-error sum divided by the count N.
   */
  function StdDev(avg: real, vs: seq<real>): (r: Sqrt)
    ensures r.radicand >= 0.0
    ensures |vs| == 0 ==> r == ZeroSqrt
    ensures r.radicand * (|vs| as real) == SqErrorSum(avg, vs)
  {
    if |vs| == 0 then ZeroSqrt else Sqrt(SqErrorSum(avg, vs) / (|vs| as real))
  }

  /** A variance scaled by the number of samples it was taken over. */
  function Weighted(d: Sqrt, n: nat): real
  {
    d.radicand * (n as real)
  }

  /** The variance times the sample count is the squared-error sum. */
  lemma StdDevTimesCount(avg: real, vs: seq<real>)
    ensures Weighted(StdDev(avg, vs), |vs|) == SqErrorSum(avg, vs)
  {
  }

  lemma {:induction false} SumBounds(vs: seq<real>, lo: real, hi: real)
    requires forall i :: 0 <= i < |vs| ==> lo <= vs[i] <= hi
    ensures (|vs| as real) * lo <= Sum(vs) <= (|vs| as real) * hi
  {
    if vs != [] {
      SumBounds(vs[..|vs| - 1], lo, hi);
    }
  }

  /** The mean of values lying in `[lo, hi]` lies in `[lo, hi]`. */
  lemma MeanBounds(vs: seq<real>, lo: real, hi: real)
    requires |vs| > 0
    requires forall i :: 0 <= i < |vs| ==> lo <= vs[i] <= hi
    ensures lo <= Mean(vs) <= hi
  {
    SumBounds(vs, lo, hi);
    var n := |vs| as real;
    DivideBounds(Sum(vs), n, lo, hi);
  }

  lemma DivideBounds(s: real, n: real, lo: real, hi: real)
    requires n > 0.0 && n * lo <= s <= n * hi
    ensures lo <= s / n <= hi
  {
    assert s / n - lo == (s - n * lo) / n;
    assert hi - s / n == (n * hi - s) / n;
  }

  /** The mean of a constant stream is that constant. */
  lemma MeanOfConstant(vs: seq<real>, c: real)
    requires |vs| > 0
    requires forall i :: 0 <= i < |vs| ==> vs[i] == c
    ensures Mean(vs) == c
  {
    MeanBounds(vs, c, c);
  }

  /** A stream equal to `avg` throughout has no squared error about it. */
  lemma {:induction false} SqErrorSumOfConstant(avg: real, vs: seq<real>)
    requires forall i :: 0 <= i < |vs| ==> vs[i] == avg
    ensures SqErrorSum(avg, vs) == 0.0
  {
    if vs != [] {
      SqErrorSumOfConstant(avg, vs[..|vs| - 1]);
    }
  }

  /** A constant stream has its value as mean and zero standard deviation. */
  lemma StdDevOfConstant(vs: seq<real>, c: real)
    requires |vs| > 0
    requires forall i :: 0 <= i < |vs| ==> vs[i] == c
    ensures Mean(vs) == c
    ensures StdDev(Mean(vs), vs) == ZeroSqrt
  {
    MeanOfConstant(vs, c);
    SqErrorSumOfConstant(c, vs);
  }

  /** Sample data: the values 1..5 have mean 3 and population variance 2. */
  lemma OneToFive()
    ensures Mean([1.0, 2.0, 3.0, 4.0, 5.0]) == 3.0
    ensures StdDev(3.0, [1.0, 2.0, 3.0, 4.0, 5.0]).radicand == 2.0
  {
    var vs := [1.0, 2.0, 3.0, 4.0, 5.0];
    assert vs[..4] == [1.0, 2.0, 3.0, 4.0];
    assert vs[..4][..3] == [1.0, 2.0, 3.0];
    assert vs[..4][..3][..2] == [1.0, 2.0];
    assert vs[..4][..3][..2][..1] == [1.0];
    assert [1.0][..0] == [];
    assert Sum([1.0]) == 1.0;
    assert Sum([1.0, 2.0]) == 3.0;
    assert Sum([1.0, 2.0, 3.0]) == 6.0;
    assert Sum([1.0, 2.0, 3.0, 4.0]) == 10.0;
    assert Sum(vs) == 15.0;
    assert SqErrorSum(3.0, [1.0]) == 4.0;
    assert SqErrorSum(3.0, [1.0, 2.0]) == 5.0;
    assert SqErrorSum(3.0, [1.0, 2.0, 3.0]) == 5.0;
    assert SqErrorSum(3.0, [1.0, 2.0, 3.0, 4.0]) == 6.0;
    assert SqErrorSum(3.0, vs) == 10.0;
  }

  method FindAverage(values: seq<real>) returns (average: real)
    ensures average == Mean(values)
  {
    if |values| == 0 {
      return 0.0;
    }
    average := 0.0;
    for i := 0 to |values|
      invariant average == Sum(values[..i])
    {
      assert values[..i + 1][..i] == values[..i];
      average := average + values[i];
    }
    assert values[..|values|] == values;
    average := average / (|values| as real);
  }

  method FindSqErrorSum(avg: real, values: seq<real>) returns (sum: real)
    ensures sum == SqErrorSum(avg, values)
  {
    if |values| == 0 {
      return 0.0;
    }
    sum := 0.0;
    for i := 0 to |values|
      invariant sum == SqErrorSum(avg, values[..i])
    {
      assert values[..i + 1][..i] == values[..i];
      var diff := values[i] - avg;
      sum := sum + Square(diff);
    }
    assert values[..|values|] == values;
  }

  method FindStdDev(avg: real, values: seq<real>) returns (stdDev: Sqrt)
    ensures stdDev == StdDev(avg, values)
  {
    if |values| == 0 {
      return ZeroSqrt;
    }
    var sum := FindSqErrorSum(avg, values);
    sum := sum / (|values| as real);
    stdDev := Sqrt(sum);
  }

  // ================================================================ per-axis views

  function TrlXs(ts: seq<Translation3d>): seq<real> { seq(|ts|, i requires 0 <= i < |ts| => ts[i].x) }
  function TrlYs(ts: seq<Translation3d>): seq<real> { seq(|ts|, i requires 0 <= i < |ts| => ts[i].y) }
  function TrlZs(ts: seq<Translation3d>): seq<real> { seq(|ts|, i requires 0 <= i < |ts| => ts[i].z) }

  function CornerXs(cs: seq<TargetCorner>): seq<real> { seq(|cs|, i requires 0 <= i < |cs| => cs[i].x) }
  function CornerYs(cs: seq<TargetCorner>): seq<real> { seq(|cs|, i requires 0 <= i < |cs| => cs[i].y) }

  function RotXs(rs: seq<Rotation3d>): seq<real> { seq(|rs|, i requires 0 <= i < |rs| => rs[i].x) }
  function RotYs(rs: seq<Rotation3d>): seq<real> { seq(|rs|, i requires 0 <= i < |rs| => rs[i].y) }
  function RotZs(rs: seq<Rotation3d>): seq<real> { seq(|rs|, i requires 0 <= i < |rs| => rs[i].z) }

  // ================================================================ translations

  /** The per-axis mean; the source divides by the count unguarded, so it needs a sample. */
  function TranslationMean(ts: seq<Translation3d>): (r: Translation3d)
    requires |ts| > 0
    ensures r.x * (|ts| as real) == Sum(TrlXs(ts))
    ensures r.y * (|ts| as real) == Sum(TrlYs(ts))
    ensures r.z * (|ts| as real) == Sum(TrlZs(ts))
  {
    Vec3(Mean(TrlXs(ts)), Mean(TrlYs(ts)), Mean(TrlZs(ts)))
  }

  /** The per-axis squared-error sums; the zero vector for no values. */
  function TranslationSqErrorSum(avg: Translation3d, ts: seq<Translation3d>): (r: Translation3d)
    ensures r.x >= 0.0 && r.y >= 0.0 && r.z >= 0.0
    ensures |ts| == 0 ==> r == Vec3(0.0, 0.0, 0.0)
  {
    Vec3(SqErrorSum(avg.x, TrlXs(ts)), SqErrorSum(avg.y, TrlYs(ts)), SqErrorSum(avg.z, TrlZs(ts)))
  }

  /** The per-axis population standard deviations; zero for no values. */
  function TranslationStdDev(avg: Translation3d, ts: seq<Translation3d>): (r: Vec3<Sqrt>)
    ensures r.x.radicand >= 0.0 && r.y.radicand >= 0.0 && r.z.radicand >= 0.0
    ensures |ts| == 0 ==> r == Vec3(ZeroSqrt, ZeroSqrt, ZeroSqrt)
  {
    Vec3(StdDev(avg.x, TrlXs(ts)), StdDev(avg.y, TrlYs(ts)), StdDev(avg.z, TrlZs(ts)))
  }

  method FindTranslationAverage(values: seq<Translation3d>) returns (average: Translation3d)
    requires |values| > 0
    ensures average == TranslationMean(values)
  {
    var x, y, z := 0.0, 0.0, 0.0;
    for i := 0 to |values|
      invariant x == Sum(TrlXs(values)[..i])
      invariant y == Sum(TrlYs(values)[..i])
      invariant z == Sum(TrlZs(values)[..i])
    {
      assert TrlXs(values)[..i + 1][..i] == TrlXs(values)[..i];
      assert TrlYs(values)[..i + 1][..i] == TrlYs(values)[..i];
      assert TrlZs(values)[..i + 1][..i] == TrlZs(values)[..i];
      var v := values[i];
      x := x + v.x;
      y := y + v.y;
      z := z + v.z;
    }
    assert TrlXs(values)[..|values|] == TrlXs(values);
    assert TrlYs(values)[..|values|] == TrlYs(values);
    assert TrlZs(values)[..|values|] == TrlZs(values);
    var n := |values| as real;
    average := Vec3(x / n, y / n, z / n);
  }

  method FindTranslationSqErrorSum(avg: Translation3d, values: seq<Translation3d>) returns (sum: Translation3d)
    ensures sum == TranslationSqErrorSum(avg, values)
  {
    if |values| == 0 {
      return Vec3(0.0, 0.0, 0.0);
    }
    var x, y, z := 0.0, 0.0, 0.0;
    for i := 0 to |values|
      invariant x == SqErrorSum(avg.x, TrlXs(values)[..i])
      invariant y == SqErrorSum(avg.y, TrlYs(values)[..i])
      invariant z == SqErrorSum(avg.z, TrlZs(values)[..i])
    {
      assert TrlXs(values)[..i + 1][..i] == TrlXs(values)[..i];
      assert TrlYs(values)[..i + 1][..i] == TrlYs(values)[..i];
      assert TrlZs(values)[..i + 1][..i] == TrlZs(values)[..i];
      var v := values[i];
      var diffX := v.x - avg.x;
      var diffY := v.y - avg.y;
      var diffZ := v.z - avg.z;
      x := x + Square(diffX);
      y := y + Square(diffY);
      z := z + Square(diffZ);
    }
    assert TrlXs(values)[..|values|] == TrlXs(values);
    assert TrlYs(values)[..|values|] == TrlYs(values);
    assert TrlZs(values)[..|values|] == TrlZs(values);
    sum := Vec3(x, y, z);
  }

  method FindTranslationStdDev(avg: Translation3d, values: seq<Translation3d>) returns (stdDev: Vec3<Sqrt>)
    ensures stdDev == TranslationStdDev(avg, values)
  {
    if |values| == 0 {
      return Vec3(ZeroSqrt, ZeroSqrt, ZeroSqrt);
    }
    var sum := FindTranslationSqErrorSum(avg, values);
    var n := |values| as real;
    stdDev := Vec3(Sqrt(sum.x / n), Sqrt(sum.y / n), Sqrt(sum.z / n));
  }

  // ================================================================ corners

  /** The per-axis mean of corner points; unguarded in the source, so it needs a sample. */
  function CornerMean(cs: seq<TargetCorner>): (r: TargetCorner)
    requires |cs| > 0
    ensures r.x * (|cs| as real) == Sum(CornerXs(cs))
    ensures r.y * (|cs| as real) == Sum(CornerYs(cs))
  {
    Vec2(Mean(CornerXs(cs)), Mean(CornerYs(cs)))
  }

  function CornerSqErrorSum(avg: TargetCorner, cs: seq<TargetCorner>): (r: TargetCorner)
    ensures r.x >= 0.0 && r.y >= 0.0
    ensures |cs| == 0 ==> r == Vec2(0.0, 0.0)
  {
    Vec2(SqErrorSum(avg.x, CornerXs(cs)), SqErrorSum(avg.y, CornerYs(cs)))
  }

  function CornerStdDev(avg: TargetCorner, cs: seq<TargetCorner>): (r: Vec2<Sqrt>)
    ensures r.x.radicand >= 0.0 && r.y.radicand >= 0.0
    ensures |cs| == 0 ==> r == Vec2(ZeroSqrt, ZeroSqrt)
  {
    Vec2(StdDev(avg.x, CornerXs(cs)), StdDev(avg.y, CornerYs(cs)))
  }

  method FindCornerAverage(values: seq<TargetCorner>) returns (average: TargetCorner)
    requires |values| > 0
    ensures average == CornerMean(values)
  {
    var x, y := 0.0, 0.0;
    for i := 0 to |values|
      invariant x == Sum(CornerXs(values)[..i])
      invariant y == Sum(CornerYs(values)[..i])
    {
      assert CornerXs(values)[..i + 1][..i] == CornerXs(values)[..i];
      assert CornerYs(values)[..i + 1][..i] == CornerYs(values)[..i];
      x := x + values[i].x;
      y := y + values[i].y;
    }
    assert CornerXs(values)[..|values|] == CornerXs(values);
    assert CornerYs(values)[..|values|] == CornerYs(values);
    average := Vec2(x / (|values| as real), y / (|values| as real));
  }

  method FindCornerSqErrorSum(avg: TargetCorner, values: seq<TargetCorner>) returns (sum: TargetCorner)
    ensures sum == CornerSqErrorSum(avg, values)
  {
    if |values| == 0 {
      return Vec2(0.0, 0.0);
    }
    var x, y := 0.0, 0.0;
    for i := 0 to |values|
      invariant x == SqErrorSum(avg.x, CornerXs(values)[..i])
      invariant y == SqErrorSum(avg.y, CornerYs(values)[..i])
    {
      assert CornerXs(values)[..i + 1][..i] == CornerXs(values)[..i];
      assert CornerYs(values)[..i + 1][..i] == CornerYs(values)[..i];
      var diffX := values[i].x - avg.x;
      var diffY := values[i].y - avg.y;
      x := x + Square(diffX);
      y := y + Square(diffY);
    }
    assert CornerXs(values)[..|values|] == CornerXs(values);
    assert CornerYs(values)[..|values|] == CornerYs(values);
    sum := Vec2(x, y);
  }

  method FindCornerStdDev(avg: TargetCorner, values: seq<TargetCorner>) returns (stdDev: Vec2<Sqrt>)
    ensures stdDev == CornerStdDev(avg, values)
  {
    if |values| == 0 {
      return Vec2(ZeroSqrt, ZeroSqrt);
    }
    var sum := FindCornerSqErrorSum(avg, values);
    stdDev := Vec2(Sqrt(sum.x / (|values| as real)), Sqrt(sum.y / (|values| as real)));
  }

  // ================================================================ rotations

  /**
   * The rotation mathematics the source takes from libraries: the
   * eigenvector (quaternion) average of EJML and WPILib, and
   * `MathUtil.angleModulus`. Every fact proved here holds for any choice.
   */
  datatype RotationMath = RotationMath(average: seq<Rotation3d> -> Rotation3d, angleModulus: real -> real)

  /** The sum of squared wrapped deviations from `avg`; never negative. */
  function WrappedSqErrorSum(avg: real, vs: seq<real>, wrap: real -> real): (r: real)
    ensures r >= 0.0
  {
    if vs == [] then 0.0
    else
      var d := wrap(vs[|vs| - 1] - avg);
      WrappedSqErrorSum(avg, vs[..|vs| - 1], wrap) + Square(d)
  }

  lemma WrappedSqErrorSumStep(avg: real, vs: seq<real>, i: nat, wrap: real -> real, diff: real)
    requires i < |vs| && diff == wrap(vs[i] - avg)
    ensures WrappedSqErrorSum(avg, vs[..i + 1], wrap) == WrappedSqErrorSum(avg, vs[..i], wrap) + Square(diff)
  {
    assert vs[..i + 1][..i] == vs[..i];
  }

  /** Without wrapping, the circular error is the ordinary squared-error sum. */
  lemma {:induction false} UnwrappedIsSqErrorSum(avg: real, vs: seq<real>)
    ensures WrappedSqErrorSum(avg, vs, x => x) == SqErrorSum(avg, vs)
  {
    if vs != [] {
      UnwrappedIsSqErrorSum(avg, vs[..|vs| - 1]);
    }
  }

  /** The per-Euler-angle wrapped squared-error sums: empty for no values, else three. */
  function RotationSqErrorSum(avg: Rotation3d, rs: seq<Rotation3d>, wrap: real -> real): (r: seq<real>)
    ensures |r| == if |rs| == 0 then 0 else 3
    ensures forall i :: 0 <= i < |r| ==> r[i] >= 0.0
  {
    if |rs| == 0 then []
    else [WrappedSqErrorSum(avg.x, RotXs(rs), wrap),
          WrappedSqErrorSum(avg.y, RotYs(rs), wrap),
          WrappedSqErrorSum(avg.z, RotZs(rs), wrap)]
  }

  /**
   * The per-Euler-angle population standard deviations: empty for no
   * values, else three non-negative entries, each the root of its
   * squared-error sum over N.
   */
  function RotationStdDev(avg: Rotation3d, rs: seq<Rotation3d>, wrap: real -> real): (r: seq<Sqrt>)
    ensures |r| == if |rs| == 0 then 0 else 3
    ensures forall i :: 0 <= i < |r| ==> r[i].radicand >= 0.0
    ensures forall i :: 0 <= i < |r| ==>
              r[i].radicand * (|rs| as real) == RotationSqErrorSum(avg, rs, wrap)[i]
  {
    if |rs| == 0 then []
    else
      var sum := RotationSqErrorSum(avg, rs, wrap);
      var n := |rs| as real;
      [Sqrt(sum[0] / n), Sqrt(sum[1] / n), Sqrt(sum[2] / n)]
  }

  /** One turn of the rotation squared-error loop, on all three angles. */
  lemma RotationStep(avg: Rotation3d, rs: seq<Rotation3d>, i: nat, wrap: real -> real, dx: real, dy: real, dz: real)
    requires i < |rs|
    requires dx == wrap(rs[i].x - avg.x) && dy == wrap(rs[i].y - avg.y) && dz == wrap(rs[i].z - avg.z)
    ensures WrappedSqErrorSum(avg.x, RotXs(rs)[..i + 1], wrap) == WrappedSqErrorSum(avg.x, RotXs(rs)[..i], wrap) + Square(dx)
    ensures WrappedSqErrorSum(avg.y, RotYs(rs)[..i + 1], wrap) == WrappedSqErrorSum(avg.y, RotYs(rs)[..i], wrap) + Square(dy)
    ensures WrappedSqErrorSum(avg.z, RotZs(rs)[..i + 1], wrap) == WrappedSqErrorSum(avg.z, RotZs(rs)[..i], wrap) + Square(dz)
  {
    WrappedSqErrorSumStep(avg.x, RotXs(rs), i, wrap, dx);
    WrappedSqErrorSumStep(avg.y, RotYs(rs), i, wrap, dy);
    WrappedSqErrorSumStep(avg.z, RotZs(rs), i, wrap, dz);
  }

  method FindRotationSqErrorSum(avg: Rotation3d, values: seq<Rotation3d>, angleModulus: real -> real)
    returns (sum: seq<real>)
    ensures sum == RotationSqErrorSum(avg, values, angleModulus)
  {
    if |values| == 0 {
      return [];
    }
    var x, y, z := 0.0, 0.0, 0.0;
    for i := 0 to |values|
      invariant x == WrappedSqErrorSum(avg.x, RotXs(values)[..i], angleModulus)
      invariant y == WrappedSqErrorSum(avg.y, RotYs(values)[..i], angleModulus)
      invariant z == WrappedSqErrorSum(avg.z, RotZs(values)[..i], angleModulus)
    {
      var v := values[i];
      var diffX := angleModulus(v.x - avg.x);
      var diffY := angleModulus(v.y - avg.y);
      var diffZ := angleModulus(v.z - avg.z);
      RotationStep(avg, values, i, angleModulus, diffX, diffY, diffZ);
      x := x + Square(diffX);
      y := y + Square(diffY);
      z := z + Square(diffZ);
    }
    assert RotXs(values)[..|values|] == RotXs(values);
    assert RotYs(values)[..|values|] == RotYs(values);
    assert RotZs(values)[..|values|] == RotZs(values);
    sum := [x, y, z];
  }

  method FindRotationStdDev(avg: Rotation3d, values: seq<Rotation3d>, angleModulus: real -> real)
    returns (stdDev: seq<Sqrt>)
    ensures stdDev == RotationStdDev(avg, values, angleModulus)
  {
    if |values| == 0 {
      return [];
    }
    var sum := FindRotationSqErrorSum(avg, values, angleModulus);
    var n := |values| as real;
    stdDev := [Sqrt(sum[0] / n), Sqrt(sum[1] / n), Sqrt(sum[2] / n)];
  }

  // ================================================================ poses and transforms

  /** Each pose as the transform with the same translation and rotation. */
  function AsTransforms(poses: seq<Pose3d>): (r: seq<Transform3d>)
    ensures |r| == |poses|
    ensures forall i :: 0 <= i < |r| ==>
              r[i].translation == poses[i].translation && r[i].rotation == poses[i].rotation
  {
    if poses == [] then []
    else
      var p := poses[|poses| - 1];
      AsTransforms(poses[..|poses| - 1]) + [Transform3d(p.translation, p.rotation)]
  }

  /** Each transform as the pose with the same translation and rotation. */
  function AsPoses(trfs: seq<Transform3d>): (r: seq<Pose3d>)
    ensures |r| == |trfs|
    ensures forall i :: 0 <= i < |r| ==>
              r[i].translation == trfs[i].translation && r[i].rotation == trfs[i].rotation
  {
    if trfs == [] then []
    else
      var t := trfs[|trfs| - 1];
      AsPoses(trfs[..|trfs| - 1]) + [Pose3d(t.translation, t.rotation)]
  }

  /** Converting poses to transforms and back gives the poses again. */
  lemma PosesRoundTrip(poses: seq<Pose3d>)
    ensures AsPoses(AsTransforms(poses)) == poses
  {
  }

  /** Converting transforms to poses and back gives the transforms again. */
  lemma TransformsRoundTrip(trfs: seq<Transform3d>)
    ensures AsTransforms(AsPoses(trfs)) == trfs
  {
  }

  method PosesToTrfs(poses: seq<Pose3d>) returns (trfs: seq<Transform3d>)
    ensures trfs == AsTransforms(poses)
  {
    if |poses| == 0 {
      return [];
    }
    trfs := [];
    for i := 0 to |poses|
      invariant trfs == AsTransforms(poses[..i])
    {
      assert poses[..i + 1][..i] == poses[..i];
      trfs := trfs + [Transform3d(poses[i].translation, poses[i].rotation)];
    }
    assert poses[..|poses|] == poses;
  }

  method TrfsToPoses(trfs: seq<Transform3d>) returns (poses: seq<Pose3d>)
    ensures poses == AsPoses(trfs)
  {
    if |trfs| == 0 {
      return [];
    }
    poses := [];
    for i := 0 to |trfs|
      invariant poses == AsPoses(trfs[..i])
    {
      assert trfs[..i + 1][..i] == trfs[..i];
      poses := poses + [Pose3d(trfs[i].translation, trfs[i].rotation)];
    }
    assert trfs[..|trfs|] == trfs;
  }
}
