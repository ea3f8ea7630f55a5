/**
 * CornerStatistics: one TimedBuffer per corner index, the per-index means
 * and standard deviations, and the pooled standard deviation over every
 * retained corner sample; plus the static corner codecs.
 *
 * Corner identity is positional: buffer i receives the i-th corner of every
 * update, and a buffer is dropped only when its own newest sample has left
 * the window.
 */
module Corners {
  import opened Wrappers
  import opened Geometry
  import opened Buffer
  import opened Stats

  /** The contents of one corner buffer, in ascending timestamp order. */
  type Samples = seq<Entry<TargetCorner>>

  predicate AllNonEmpty(bs: seq<Samples>)
  {
    forall i :: 0 <= i < |bs| ==> bs[i] != []
  }

  ghost predicate AllSorted(bs: seq<Samples>)
  {
    forall i :: 0 <= i < |bs| ==> Sorted(bs[i])
  }

  function Max(a: nat, b: nat): nat
  {
    if a < b then b else a
  }

  // ================================================================ pruning

  /** A buffer survives pruning at `timestamp` when its newest key is inside the window. */
  predicate Live(b: Samples, timestamp: real, window: real)
    requires b != []
  {
    !Stale(b[|b| - 1].key, timestamp, window)
  }

  /**
   * `cornerBuffers.removeIf(b -> timestamp - b.lastKey() > bufferSeconds)`.
   * `lastKey()` throws on an empty buffer, so every buffer must hold a sample.
   */
  function Prune(bs: seq<Samples>, timestamp: real, window: real): (r: seq<Samples>)
    requires AllNonEmpty(bs)
    ensures AllNonEmpty(r)
    ensures forall i :: 0 <= i < |r| ==> Live(r[i], timestamp, window)
  {
    if bs == [] then []
    else
      var last := bs[|bs| - 1];
      Prune(bs[..|bs| - 1], timestamp, window) + (if Live(last, timestamp, window) then [last] else [])
  }

  /** Exactly the live buffers are kept, wherever they stand in the list. */
  lemma {:induction false} PruneMembers(bs: seq<Samples>, timestamp: real, window: real)
    requires AllNonEmpty(bs)
    ensures |Prune(bs, timestamp, window)| <= |bs|
    ensures forall b :: b in Prune(bs, timestamp, window) <==> b in bs && b != [] && Live(b, timestamp, window)
  {
    if bs != [] {
      var init := bs[..|bs| - 1];
      PruneMembers(init, timestamp, window);
      assert bs == init + [bs[|bs| - 1]];
    }
  }

  /** Pruning a concatenation prunes each part: survivors keep their relative order. */
  lemma {:induction false} PruneAppend(xs: seq<Samples>, ys: seq<Samples>, timestamp: real, window: real)
    requires AllNonEmpty(xs) && AllNonEmpty(ys)
    ensures AllNonEmpty(xs + ys)
    ensures Prune(xs + ys, timestamp, window) == Prune(xs, timestamp, window) + Prune(ys, timestamp, window)
  {
    if ys == [] {
      assert xs + ys == xs;
    } else {
      var init := ys[..|ys| - 1];
      assert (xs + ys)[..|xs + ys| - 1] == xs + init;
      PruneAppend(xs, init, timestamp, window);
    }
  }

  /** Pruning keeps every survivor sorted and non-empty. */
  lemma PruneValid(bs: seq<Samples>, timestamp: real, window: real)
    requires AllNonEmpty(bs) && AllSorted(bs)
    ensures AllNonEmpty(Prune(bs, timestamp, window)) && AllSorted(Prune(bs, timestamp, window))
    ensures forall i :: 0 <= i < |Prune(bs, timestamp, window)| ==>
              Live(Prune(bs, timestamp, window)[i], timestamp, window)
  {
    PruneMembers(bs, timestamp, window);
    var r := Prune(bs, timestamp, window);
    forall i | 0 <= i < |r|
      ensures r[i] != [] && Sorted(r[i]) && Live(r[i], timestamp, window)
    {
      assert r[i] in r;
    }
  }

  // ================================================================ insertion

  /**
   * The `for` loop of `update`: corner i goes into buffer i, a new buffer
   * (empty, with the shared window) is appended when there is none yet, and
   * buffers past the last corner are left alone.
   */
  function Place(bs: seq<Samples>, corners: seq<TargetCorner>, timestamp: real, window: real): seq<Samples>
  {
    seq(Max(|bs|, |corners|), i requires 0 <= i < Max(|bs|, |corners|) =>
      if i < |corners| then AfterUpdate(if i < |bs| then bs[i] else [], Some(corners[i]), timestamp, window)
      else bs[i])
  }

  /**
   * After placing n corners the list holds at least n buffers; buffer i < n
   * maps `timestamp` to corner i, has lost exactly its stale keys and keeps
   * every other sample; buffers at index n and beyond are unchanged.
   */
  lemma PlaceSpec(bs: seq<Samples>, corners: seq<TargetCorner>, timestamp: real, window: real)
    requires AllSorted(bs) && window >= 0.0
    ensures |Place(bs, corners, timestamp, window)| == Max(|bs|, |corners|)
    ensures AllSorted(Place(bs, corners, timestamp, window))
    ensures AllNonEmpty(bs) ==> AllNonEmpty(Place(bs, corners, timestamp, window))
    ensures forall i :: 0 <= i < |corners| ==> Lookup(Place(bs, corners, timestamp, window)[i], timestamp) == Some(corners[i])
    ensures forall i, k :: 0 <= i < |corners| ==>
              Lookup(Place(bs, corners, timestamp, window)[i], k) ==
                if Stale(k, timestamp, window) then None
                else if k == timestamp then Some(corners[i])
                else if i < |bs| then Lookup(bs[i], k)
                else None
    ensures forall i :: 0 <= i < |corners| ==>
              forall j :: 0 <= j < |Place(bs, corners, timestamp, window)[i]| ==>
                timestamp - Place(bs, corners, timestamp, window)[i][j].key <= window
    ensures forall i :: |corners| <= i < |bs| ==> Place(bs, corners, timestamp, window)[i] == bs[i]
  {
    var r := Place(bs, corners, timestamp, window);
    forall i | 0 <= i < |corners|
      ensures Sorted(r[i]) && r[i] != [] && Lookup(r[i], timestamp) == Some(corners[i])
      ensures forall j :: 0 <= j < |r[i]| ==> timestamp - r[i][j].key <= window
      ensures forall k :: Lookup(r[i], k) ==
                if Stale(k, timestamp, window) then None
                else if k == timestamp then Some(corners[i])
                else if i < |bs| then Lookup(bs[i], k)
                else None
    {
      PlaceOne(if i < |bs| then bs[i] else [], corners[i], timestamp, window);
    }
  }

  /** One buffer of `Place`: the corner is put at `timestamp` and the stale keys dropped. */
  lemma PlaceOne(b: Samples, corner: TargetCorner, timestamp: real, window: real)
    requires Sorted(b) && window >= 0.0
    ensures var r := AfterUpdate(b, Some(corner), timestamp, window);
            Sorted(r) && r != [] && Lookup(r, timestamp) == Some(corner) &&
            (forall j :: 0 <= j < |r| ==> timestamp - r[j].key <= window) &&
            forall k :: Lookup(r, k) ==
              if Stale(k, timestamp, window) then None
              else if k == timestamp then Some(corner)
              else Lookup(b, k)
  {
    UpdateKeepsInserted(b, corner, timestamp, window);
    UpdateContents(b, corner, timestamp, window, timestamp);
    UpdateWindow(b, corner, timestamp, window);
    forall k
      ensures Lookup(AfterUpdate(b, Some(corner), timestamp, window), k) ==
                if Stale(k, timestamp, window) then None
                else if k == timestamp then Some(corner)
                else Lookup(b, k)
    {
      UpdateContents(b, corner, timestamp, window, k);
    }
  }

  /**
   * `update(corners, timestamp)` on the buffer contents: nothing for an
   * empty list, otherwise prune and then place.
   */
  function CornerUpdate(bs: seq<Samples>, corners: seq<TargetCorner>, timestamp: real, window: real): (r: seq<Samples>)
    requires AllNonEmpty(bs)
    ensures |r| >= |corners|
  {
    if corners == [] then bs else Place(Prune(bs, timestamp, window), corners, timestamp, window)
  }

  /**
   * An update with n > 0 corners leaves at least n buffers, all non-empty
   * and sorted, each with its newest key inside the window; the first n
   * map `timestamp` to their corner.
   */
  lemma CornerUpdateSpec(bs: seq<Samples>, corners: seq<TargetCorner>, timestamp: real, window: real)
    requires AllNonEmpty(bs) && AllSorted(bs) && window >= 0.0
    ensures AllNonEmpty(CornerUpdate(bs, corners, timestamp, window))
    ensures AllSorted(CornerUpdate(bs, corners, timestamp, window))
    ensures corners == [] ==> CornerUpdate(bs, corners, timestamp, window) == bs
    ensures corners != [] ==> |CornerUpdate(bs, corners, timestamp, window)| >= |corners|
    ensures corners != [] ==>
              forall i :: 0 <= i < |CornerUpdate(bs, corners, timestamp, window)| ==>
                Live(CornerUpdate(bs, corners, timestamp, window)[i], timestamp, window)
    ensures forall i :: 0 <= i < |corners| ==>
              Lookup(CornerUpdate(bs, corners, timestamp, window)[i], timestamp) == Some(corners[i])
  {
    if corners != [] {
      var p := Prune(bs, timestamp, window);
      PruneValid(bs, timestamp, window);
      PlaceSpec(p, corners, timestamp, window);
      var r := Place(p, corners, timestamp, window);
      forall i | 0 <= i < |r|
        ensures Live(r[i], timestamp, window)
      {
        if i < |corners| {
          UpdateKeepsInserted(if i < |p| then p[i] else [], corners[i], timestamp, window);
          assert timestamp - r[i][|r[i]| - 1].key <= window;
        }
      }
    }
  }

  // ================================================================ statistics

  /** `cornerAvgs`: the mean corner of each buffer, in buffer order. */
  function Avgs(bs: seq<Samples>): (r: seq<TargetCorner>)
    requires AllNonEmpty(bs)
    ensures |r| == |bs|
  {
    seq(|bs|, i requires 0 <= i < |bs| => CornerMean(Values(bs[i])))
  }

  /** `cornerStdDevs`: each buffer's population standard deviation about its mean. */
  function StdDevs(bs: seq<Samples>): (r: seq<Vec2<Sqrt>>)
    requires AllNonEmpty(bs)
    ensures |r| == |bs|
  {
    seq(|bs|, i requires 0 <= i < |bs| => CornerStdDev(CornerMean(Values(bs[i])), Values(bs[i])))
  }

  /** The squared-error sums of one buffer about its own mean. */
  function BufferSqErr(b: Samples): TargetCorner
    requires b != []
  {
    CornerSqErrorSum(CornerMean(Values(b)), Values(b))
  }

  /** `totalCornerSqError`: the per-axis squared errors summed over all buffers. */
  function TotalSqErr(bs: seq<Samples>): (r: TargetCorner)
    requires AllNonEmpty(bs)
    ensures r.x >= 0.0 && r.y >= 0.0
  {
    if bs == [] then Vec2(0.0, 0.0)
    else
      var init := TotalSqErr(bs[..|bs| - 1]);
      var e := BufferSqErr(bs[|bs| - 1]);
      Vec2(init.x + e.x, init.y + e.y)
  }

  /** The number of samples held across all buffers. */
  function TotalCount(bs: seq<Samples>): (n: nat)
    ensures AllNonEmpty(bs) ==> n >= |bs|
  {
    if bs == [] then 0 else TotalCount(bs[..|bs| - 1]) + |bs[|bs| - 1]|
  }

  /**
   * `totalCornerStdDev`: the pooled deviation, the total squared error over
   * the total sample count (not over the number of buffers).
   */
  function TotalStdDev(bs: seq<Samples>): (r: Vec2<Sqrt>)
    requires AllNonEmpty(bs) && bs != []
    ensures r.x.radicand >= 0.0 && r.y.radicand >= 0.0
  {
    var e := TotalSqErr(bs);
    var n := TotalCount(bs) as real;
    Vec2(Sqrt(e.x / n), Sqrt(e.y / n))
  }

  /** One buffer's variance on each axis, times its sample count. */
  function BufferWeightedVariance(b: Samples): TargetCorner
    requires b != []
  {
    var vs := Values(b);
    var avg := CornerMean(vs);
    Vec2(Weighted(StdDev(avg.x, CornerXs(vs)), |vs|), Weighted(StdDev(avg.y, CornerYs(vs)), |vs|))
  }

  /**
   * The count-weighted sum of the per-buffer variances: the reference
   * definition the pooled total is compared with.
   */
  function WeightedVariance(bs: seq<Samples>): TargetCorner
    requires AllNonEmpty(bs)
  {
    if bs == [] then Vec2(0.0, 0.0)
    else
      var init := WeightedVariance(bs[..|bs| - 1]);
      var w := BufferWeightedVariance(bs[|bs| - 1]);
      Vec2(init.x + w.x, init.y + w.y)
  }

  /** A buffer's variance times its count is its squared-error sum. */
  lemma BufferWeighted(b: Samples)
    requires b != []
    ensures BufferWeightedVariance(b) == BufferSqErr(b)
  {
    var vs := Values(b);
    var avg := CornerMean(vs);
    StdDevTimesCount(avg.x, CornerXs(vs));
    StdDevTimesCount(avg.y, CornerYs(vs));
  }

  /** The summed squared error equals the count-weighted sum of per-buffer variances. */
  lemma {:induction false} TotalSqErrIsWeighted(bs: seq<Samples>)
    requires AllNonEmpty(bs)
    ensures TotalSqErr(bs) == WeightedVariance(bs)
  {
    if bs != [] {
      TotalSqErrIsWeighted(bs[..|bs| - 1]);
      BufferWeighted(bs[|bs| - 1]);
    }
  }

  /**
   * The pooled variance is the count-weighted mean of the per-buffer
   * variances: their weighted sum over the total sample count.
   */
  lemma PooledVariance(bs: seq<Samples>)
    requires AllNonEmpty(bs) && bs != []
    ensures TotalStdDev(bs).x.radicand == WeightedVariance(bs).x / (TotalCount(bs) as real)
    ensures TotalStdDev(bs).y.radicand == WeightedVariance(bs).y / (TotalCount(bs) as real)
  {
    TotalSqErrIsWeighted(bs);
  }

  /**
   * Two buffers, three samples with x = 0, 1, 2 and one with x = 5: the
   * pooled variance is (2 + 0) / 4, not the mean (2/3 + 0) / 2 of the two
   * per-buffer variances.
   */
  lemma PooledExample()
    ensures TotalStdDev([[Entry(0.0, Vec2(0.0, 0.0)), Entry(1.0, Vec2(1.0, 0.0)), Entry(2.0, Vec2(2.0, 0.0))],
                         [Entry(2.0, Vec2(5.0, 0.0))]]).x.radicand == 0.5
    ensures StdDevs([[Entry(0.0, Vec2(0.0, 0.0)), Entry(1.0, Vec2(1.0, 0.0)), Entry(2.0, Vec2(2.0, 0.0))],
                     [Entry(2.0, Vec2(5.0, 0.0))]])[0].x.radicand == 2.0 / 3.0
  {
    var b0 := [Entry(0.0, Vec2(0.0, 0.0)), Entry(1.0, Vec2(1.0, 0.0)), Entry(2.0, Vec2(2.0, 0.0))];
    var b1 := [Entry(2.0, Vec2(5.0, 0.0))];
    var bs := [b0, b1];
    var xs0 := CornerXs(Values(b0));
    assert xs0 == [0.0, 1.0, 2.0];
    assert xs0[..2] == [0.0, 1.0] && [0.0, 1.0][..1] == [0.0] && [0.0][..0] == [];
    assert Sum([0.0]) == 0.0;
    assert Sum([0.0, 1.0]) == 1.0;
    assert Sum(xs0) == 3.0;
    assert Mean(xs0) == 1.0;
    assert SqErrorSum(1.0, [0.0]) == 1.0;
    assert SqErrorSum(1.0, [0.0, 1.0]) == 1.0;
    assert SqErrorSum(1.0, xs0) == 2.0;
    assert BufferSqErr(b0).x == 2.0;
    var xs1 := CornerXs(Values(b1));
    assert xs1 == [5.0] && xs1[..0] == [];
    assert Sum(xs1) == 5.0;
    assert Mean(xs1) == 5.0;
    assert SqErrorSum(5.0, xs1) == 0.0;
    assert BufferSqErr(b1).x == 0.0;
    assert bs[..1] == [b0] && bs[..1][..0] == [];
    assert TotalSqErr([b0]).x == 2.0;
    assert TotalSqErr(bs).x == 2.0;
    assert TotalCount([b0]) == 3;
    assert TotalCount(bs) == 4;
  }

  // ================================================================ codecs

  /**
   * `tcornxyToTargetCorners`: the flat array `[x0, y0, x1, y1, ...]` as
   * corners; empty for an empty or odd-length array (a null array is the
   * empty sequence here).
   */
  function Decode(tcornxy: seq<real>): (r: seq<TargetCorner>)
    ensures |tcornxy| % 2 != 0 ==> r == []
    ensures |tcornxy| % 2 == 0 ==> |r| == |tcornxy| / 2
  {
    if |tcornxy| == 0 || |tcornxy| % 2 != 0 then []
    else seq(|tcornxy| / 2, i requires 0 <= i < |tcornxy| / 2 => Vec2(tcornxy[2 * i], tcornxy[2 * i + 1]))
  }

  method TcornxyToTargetCorners(tcornxy: seq<real>) returns (corners: seq<TargetCorner>)
    ensures corners == Decode(tcornxy)
  {
    corners := [];
    if |tcornxy| == 0 || |tcornxy| % 2 != 0 {
      return;
    }
    var i := 0;
    while i < |tcornxy|
      invariant 0 <= i <= |tcornxy| && i % 2 == 0
      invariant |corners| == i / 2
      invariant forall j :: 0 <= j < i / 2 ==> corners[j] == Vec2(tcornxy[2 * j], tcornxy[2 * j + 1])
    {
      corners := corners + [Vec2(tcornxy[i], tcornxy[i + 1])];
      i := i + 2;
    }
  }

  /**
   * What `targetCornersToTcornxy` produces as written: the loop stores x of
   * corner i at index i and y at index i + 1, so each y but the last is
   * overwritten by the next x. For n corners: x0 .. x(n-1), then y(n-1),
   * then zeros up to length 2n.
   */
  function EncodeAsWritten(corners: seq<TargetCorner>): (r: seq<real>)
    ensures |r| == 2 * |corners|
  {
    var n := |corners|;
    seq(2 * n, j requires 0 <= j < 2 * n =>
      if j < n then corners[j].x else if j == n then corners[n - 1].y else 0.0)
  }

  method TargetCornersToTcornxy(corners: seq<TargetCorner>) returns (tcornxy: array<real>)
    ensures fresh(tcornxy)
    ensures tcornxy[..] == EncodeAsWritten(corners)
  {
    if |corners| == 0 {
      tcornxy := new real[0];
      return;
    }
    tcornxy := new real[|corners| * 2](_ => 0.0);
    for i := 0 to |corners|
      invariant forall j :: 0 <= j < i ==> tcornxy[j] == corners[j].x
      invariant i > 0 ==> tcornxy[i] == corners[i - 1].y
      invariant forall j :: i < j < tcornxy.Length ==> tcornxy[j] == 0.0
    {
      tcornxy[i] := corners[i].x;
      tcornxy[i + 1] := corners[i].y;
    }
  }

  /** The flat form the decoder reads: x at index 2i, y at index 2i + 1. */
  function Encode(corners: seq<TargetCorner>): (r: seq<real>)
    ensures |r| == 2 * |corners|
  {
    seq(2 * |corners|, j requires 0 <= j < 2 * |corners| =>
      if j % 2 == 0 then corners[j / 2].x else corners[j / 2].y)
  }

  /** Decoding the intended encoding gives the corners back. */
  lemma DecodeEncode(corners: seq<TargetCorner>)
    ensures Decode(Encode(corners)) == corners
  {
    var e := Encode(corners);
    if corners != [] {
      forall i | 0 <= i < |corners|
        ensures Decode(e)[i] == corners[i]
      {
        assert (2 * i) % 2 == 0 && (2 * i) / 2 == i;
        assert (2 * i + 1) % 2 == 1 && (2 * i + 1) / 2 == i;
      }
    }
  }

  /** Encoding a decodable (even-length) array gives the array back. */
  lemma EncodeDecode(tcornxy: seq<real>)
    requires |tcornxy| % 2 == 0
    ensures Encode(Decode(tcornxy)) == tcornxy
  {
    var d := Decode(tcornxy);
    forall j | 0 <= j < |tcornxy|
      ensures Encode(d)[j] == tcornxy[j]
    {
      var i := j / 2;
      assert j == 2 * i + j % 2;
    }
  }

  /** For at most one corner the code as written agrees with the intended encoding. */
  lemma AsWrittenAgreesUpToOne(corners: seq<TargetCorner>)
    requires |corners| <= 1
    ensures EncodeAsWritten(corners) == Encode(corners)
    ensures Decode(EncodeAsWritten(corners)) == corners
  {
    DecodeEncode(corners);
    if |corners| == 1 {
      var c := corners[0];
      assert EncodeAsWritten(corners) == [c.x, c.y];
      assert Encode(corners) == [c.x, c.y];
    }
  }

  /** Two corners (1, 2) and (3, 4) come out as [1, 3, 4, 0] and decode to (1, 3), (4, 0). */
  lemma AsWrittenLosesCorners()
    ensures EncodeAsWritten([Vec2(1.0, 2.0), Vec2(3.0, 4.0)]) == [1.0, 3.0, 4.0, 0.0]
    ensures Decode(EncodeAsWritten([Vec2(1.0, 2.0), Vec2(3.0, 4.0)])) == [Vec2(1.0, 3.0), Vec2(4.0, 0.0)]
    ensures Decode(EncodeAsWritten([Vec2(1.0, 2.0), Vec2(3.0, 4.0)])) != [Vec2(1.0, 2.0), Vec2(3.0, 4.0)]
  {
    var r := EncodeAsWritten([Vec2(1.0, 2.0), Vec2(3.0, 4.0)]);
    assert r == [1.0, 3.0, 4.0, 0.0];
    assert Decode(r)[0] == Vec2(1.0, 3.0);
  }

  /**
   * Two or more corners survive the as-written round trip only when the last
   * corner is (0, 0): it is decoded from slots 2n-2 and 2n-1, which hold
   * y(n-1) and 0 when n = 2, and zeros when n > 2.
   */
  lemma AsWrittenRoundTripNeedsZeroLast(corners: seq<TargetCorner>)
    requires |corners| >= 2
    ensures Decode(EncodeAsWritten(corners)) == corners ==> corners[|corners| - 1] == Vec2(0.0, 0.0)
  {
    var n := |corners|;
    var e := EncodeAsWritten(corners);
    if Decode(e) == corners {
      assert Decode(e)[n - 1] == Vec2(e[2 * n - 2], e[2 * n - 1]);
      assert e[2 * n - 1] == 0.0;
      if n == 2 {
        assert e[2] == corners[1].y;
      } else {
        assert e[2 * n - 2] == 0.0;
      }
    }
  }

  // ================================================================ all target corners

  /**
   * Puts `t` after every target whose fiducial ID is at most its own, which
   * is where a stable sort puts the latest of equal IDs.
   */
  function InsertById(s: seq<TrackedTarget>, t: TrackedTarget): (r: seq<TrackedTarget>)
    ensures |r| == |s| + 1
    ensures multiset(r) == multiset(s) + multiset{t}
  {
    if s == [] || s[|s| - 1].fiducialId <= t.fiducialId then s + [t]
    else
      assert s == s[..|s| - 1] + [s[|s| - 1]];
      InsertById(s[..|s| - 1], t) + [s[|s| - 1]]
  }

  /**
   * `sorted((a, b) -> a.getFiducialId() - b.getFiducialId())`: the targets by
   * ascending fiducial ID, a permutation of the input.
   */
  function SortById(ts: seq<TrackedTarget>): (r: seq<TrackedTarget>)
    ensures |r| == |ts|
    ensures multiset(r) == multiset(ts)
  {
    if ts == [] then []
    else
      assert ts == ts[..|ts| - 1] + [ts[|ts| - 1]];
      InsertById(SortById(ts[..|ts| - 1]), ts[|ts| - 1])
  }

  ghost predicate IdSorted(s: seq<TrackedTarget>)
  {
    forall i, j :: 0 <= i < j < |s| ==> s[i].fiducialId <= s[j].fiducialId
  }

  lemma {:induction false} InsertByIdSorted(s: seq<TrackedTarget>, t: TrackedTarget)
    requires IdSorted(s)
    ensures IdSorted(InsertById(s, t))
    ensures forall i :: 0 <= i < |InsertById(s, t)| ==>
              InsertById(s, t)[i] == t || InsertById(s, t)[i] in s
  {
    if s != [] && s[|s| - 1].fiducialId > t.fiducialId {
      var init := s[..|s| - 1];
      InsertByIdSorted(init, t);
      var r := InsertById(init, t);
      forall i | 0 <= i < |r|
        ensures r[i].fiducialId <= s[|s| - 1].fiducialId
      {
        if r[i] != t {
          assert r[i] in init;
        }
      }
      forall i | 0 <= i < |r|
        ensures r[i] == t || r[i] in s
      {
        if r[i] != t {
          assert r[i] in init;
        }
      }
    }
  }

  /** The sorted targets are in non-decreasing fiducial-ID order. */
  lemma {:induction false} SortByIdSorted(ts: seq<TrackedTarget>)
    ensures IdSorted(SortById(ts))
  {
    if ts != [] {
      SortByIdSorted(ts[..|ts| - 1]);
      InsertByIdSorted(SortById(ts[..|ts| - 1]), ts[|ts| - 1]);
    }
  }

  /** The targets carrying fiducial ID `id`, in their order. */
  function WithId(s: seq<TrackedTarget>, id: int): seq<TrackedTarget>
  {
    if s == [] then []
    else WithId(s[..|s| - 1], id) + (if s[|s| - 1].fiducialId == id then [s[|s| - 1]] else [])
  }

  lemma WithIdSnoc(s: seq<TrackedTarget>, t: TrackedTarget, id: int)
    ensures WithId(s + [t], id) == WithId(s, id) + (if t.fiducialId == id then [t] else [])
  {
    assert (s + [t])[..|s|] == s;
  }

  lemma {:induction false} InsertByIdStable(s: seq<TrackedTarget>, t: TrackedTarget, id: int)
    ensures WithId(InsertById(s, t), id) == WithId(s, id) + (if t.fiducialId == id then [t] else [])
  {
    if s == [] || s[|s| - 1].fiducialId <= t.fiducialId {
      WithIdSnoc(s, t, id);
    } else {
      var init, last := s[..|s| - 1], s[|s| - 1];
      assert InsertById(s, t) == InsertById(init, t) + [last];
      assert WithId(s, id) == WithId(init, id) + (if last.fiducialId == id then [last] else []);
      InsertByIdStable(init, t, id);
      WithIdSnoc(InsertById(init, t), last, id);
      // `t` sorts before `last`, so at most one of the two carries `id`.
      if last.fiducialId == id {
        assert t.fiducialId != id;
        assert WithId(InsertById(s, t), id) == WithId(init, id) + [last];
      } else {
        assert WithId(InsertById(s, t), id) == WithId(InsertById(init, t), id);
      }
    }
  }

  /** Stability: the targets of each ID keep their input order. */
  lemma {:induction false} SortByIdStable(ts: seq<TrackedTarget>, id: int)
    ensures WithId(SortById(ts), id) == WithId(ts, id)
  {
    if ts != [] {
      SortByIdStable(ts[..|ts| - 1], id);
      InsertByIdStable(SortById(ts[..|ts| - 1]), ts[|ts| - 1], id);
    }
  }

  /** The targets' detected corners concatenated in list order. */
  function Flatten(ts: seq<TrackedTarget>): seq<TargetCorner>
  {
    if ts == [] then [] else Flatten(ts[..|ts| - 1]) + ts[|ts| - 1].detectedCorners
  }

  /** The total number of detected corners of the targets. */
  function CornerCount(ts: seq<TrackedTarget>): nat
  {
    if ts == [] then 0 else CornerCount(ts[..|ts| - 1]) + |ts[|ts| - 1].detectedCorners|
  }

  /** `allTargetCorners`: every target's corners, the targets taken by ascending ID. */
  function AllTargetCorners(targets: seq<TrackedTarget>): seq<TargetCorner>
  {
    Flatten(SortById(targets))
  }

  lemma {:induction false} FlattenLength(ts: seq<TrackedTarget>)
    ensures |Flatten(ts)| == CornerCount(ts)
  {
    if ts != [] {
      FlattenLength(ts[..|ts| - 1]);
    }
  }

  lemma {:induction false} InsertByIdCount(s: seq<TrackedTarget>, t: TrackedTarget)
    ensures CornerCount(InsertById(s, t)) == CornerCount(s) + |t.detectedCorners|
  {
    if s == [] || s[|s| - 1].fiducialId <= t.fiducialId {
      assert (s + [t])[..|s|] == s;
    } else {
      var init := s[..|s| - 1];
      InsertByIdCount(init, t);
      var r := InsertById(init, t);
      assert (r + [s[|s| - 1]])[..|r|] == r;
    }
  }

  lemma {:induction false} SortByIdCount(ts: seq<TrackedTarget>)
    ensures CornerCount(SortById(ts)) == CornerCount(ts)
  {
    if ts != [] {
      SortByIdCount(ts[..|ts| - 1]);
      InsertByIdCount(SortById(ts[..|ts| - 1]), ts[|ts| - 1]);
    }
  }

  /** No corner is lost or invented: the result has as many corners as the targets hold. */
  lemma AllTargetCornersLength(targets: seq<TrackedTarget>)
    ensures |AllTargetCorners(targets)| == CornerCount(targets)
  {
    FlattenLength(SortById(targets));
    SortByIdCount(targets);
  }

  // ================================================================ the class

  /** The `for (var buffer : cornerBuffers) buffer.setBufferSeconds(...)` loop. */
  method SetWindows(bufs: seq<TimedBuffer<TargetCorner>>, bufferSeconds: real)
    modifies set i | 0 <= i < |bufs| :: bufs[i]
    ensures forall i :: 0 <= i < |bufs| ==> bufs[i].bufferSeconds == bufferSeconds
    ensures forall i :: 0 <= i < |bufs| ==> bufs[i].entries == old(bufs[i].entries)
  {
    for i := 0 to |bufs|
      invariant forall j :: 0 <= j < i ==> bufs[j].bufferSeconds == bufferSeconds
      invariant forall j :: 0 <= j < |bufs| ==> bufs[j].entries == old(bufs[j].entries)
    {
      bufs[i].SetBufferSeconds(bufferSeconds);
    }
  }

  /**
   * The body of the `calculate` loop for one buffer: mean, squared-error
   * sums, and deviations over the buffer's own count.
   */
  method BufferStatistics(b: Samples) returns (avg: TargetCorner, sqErr: TargetCorner, stdDev: Vec2<Sqrt>)
    requires b != []
    ensures avg == CornerMean(Values(b))
    ensures sqErr == BufferSqErr(b)
    ensures stdDev == CornerStdDev(avg, Values(b))
  {
    var corners := Values(b);
    avg := FindCornerAverage(corners);
    sqErr := FindCornerSqErrorSum(avg, corners);
    var n := |corners| as real;
    stdDev := Vec2(Sqrt(sqErr.x / n), Sqrt(sqErr.y / n));
  }

  /** Adding buffer i to the first i extends each summary by that buffer's share. */
  lemma CalculateStep(bs: seq<Samples>, i: nat)
    requires AllNonEmpty(bs) && i < |bs|
    ensures AllNonEmpty(bs[..i]) && AllNonEmpty(bs[..i + 1])
    ensures Avgs(bs[..i + 1]) == Avgs(bs[..i]) + [CornerMean(Values(bs[i]))]
    ensures StdDevs(bs[..i + 1]) == StdDevs(bs[..i]) + [CornerStdDev(CornerMean(Values(bs[i])), Values(bs[i]))]
    ensures TotalSqErr(bs[..i + 1]) ==
              Vec2(TotalSqErr(bs[..i]).x + BufferSqErr(bs[i]).x, TotalSqErr(bs[..i]).y + BufferSqErr(bs[i]).y)
    ensures TotalCount(bs[..i + 1]) == TotalCount(bs[..i]) + |bs[i]|
  {
    assert bs[..i + 1][..i] == bs[..i];
  }

  /**
   * The `calculate` loop over the buffer contents: every cached statistic
   * of CornerStatistics, in one pass.
   */
  method Summarise(bs: seq<Samples>)
    returns (avgs: seq<TargetCorner>, stdDevs: seq<Vec2<Sqrt>>, totalSqErr: TargetCorner, totalStdDev: Vec2<Sqrt>)
    requires AllNonEmpty(bs) && bs != []
    ensures avgs == Avgs(bs) && stdDevs == StdDevs(bs)
    ensures totalSqErr == TotalSqErr(bs) && totalStdDev == TotalStdDev(bs)
  {
    avgs, stdDevs := [], [];
    var sqErrX, sqErrY := 0.0, 0.0;
    var totalCorners := 0;
    for i := 0 to |bs|
      invariant avgs == Avgs(bs[..i]) && stdDevs == StdDevs(bs[..i])
      invariant sqErrX == TotalSqErr(bs[..i]).x && sqErrY == TotalSqErr(bs[..i]).y
      invariant totalCorners == TotalCount(bs[..i])
    {
      CalculateStep(bs, i);
      totalCorners := totalCorners + |bs[i]|;
      var avg, sqErr, stdDev := BufferStatistics(bs[i]);
      sqErrX := sqErrX + sqErr.x;
      sqErrY := sqErrY + sqErr.y;
      avgs := avgs + [avg];
      stdDevs := stdDevs + [stdDev];
    }
    assert bs[..|bs|] == bs;
    totalSqErr := Vec2(sqErrX, sqErrY);
    var n := totalCorners as real;
    totalStdDev := Vec2(Sqrt(sqErrX / n), Sqrt(sqErrY / n));
  }

  /** No object occurs twice. */
  ghost predicate Distinct(bufs: seq<TimedBuffer<TargetCorner>>)
  {
    forall i, j :: 0 <= i < j < |bufs| ==> bufs[i] != bufs[j]
  }

  /** `buffer.update(corner, timestamp)`, seen only through the new contents. */
  method Insert(b: TimedBuffer<TargetCorner>, corner: TargetCorner, timestamp: real)
    requires b.Valid()
    modifies b
    ensures b.entries == AfterUpdate(old(b.entries), Some(corner), timestamp, b.bufferSeconds)
    ensures b.bufferSeconds == old(b.bufferSeconds)
  {
    var _ := b.Update(Some(corner), timestamp);
  }

  /**
   * The insertion loop of `update` on a list of buffers holding `contents`:
   * buffer i receives corner i, and a new buffer with the shared window is
   * appended wherever the list is too short.
   */
  method PlaceAll(bufs: seq<TimedBuffer<TargetCorner>>, ghost contents: seq<Samples>,
                  corners: seq<TargetCorner>, timestamp: real, window: real)
    returns (placed: seq<TimedBuffer<TargetCorner>>)
    requires Distinct(bufs) && |contents| == |bufs| && AllSorted(contents) && window >= 0.0
    requires forall i :: 0 <= i < |bufs| ==> bufs[i].entries == contents[i] && bufs[i].bufferSeconds == window
    modifies set i | 0 <= i < |bufs| :: bufs[i]
    ensures Distinct(placed) && |placed| == Max(|bufs|, |corners|) && placed[..|bufs|] == bufs
    ensures forall j :: |bufs| <= j < |placed| ==> fresh(placed[j])
    ensures forall j :: 0 <= j < |placed| ==>
              placed[j].entries == Place(contents, corners, timestamp, window)[j] && placed[j].bufferSeconds == window
  {
    ghost var after := Place(contents, corners, timestamp, window);
    placed := bufs;
    for i := 0 to |corners|
      invariant |placed| == Max(|bufs|, i) && Distinct(placed)
      invariant forall j :: 0 <= j < |bufs| ==> placed[j] == bufs[j]
      invariant forall j :: |bufs| <= j < |placed| ==> fresh(placed[j])
      invariant forall j :: 0 <= j < |placed| ==> placed[j].bufferSeconds == window
      invariant forall j :: 0 <= j < i ==> placed[j].entries == after[j]
      invariant forall j :: i <= j < |bufs| ==> placed[j].entries == contents[j]
    {
      if |placed| <= i {
        var b := new TimedBuffer<TargetCorner>.WithWindow(window);
        placed := placed + [b];
      } else {
        assert placed[i] == bufs[i] && Sorted(contents[i]);
      }
      Insert(placed[i], corners[i], timestamp);
    }
    assert placed[..|bufs|] == bufs;
  }

  /**
   * The `removeIf` of `update` on a list of buffers holding `contents`:
   * the buffers whose newest key is inside the window, in list order.
   */
  method KeepLive(bufs: seq<TimedBuffer<TargetCorner>>, ghost contents: seq<Samples>, timestamp: real, window: real)
    returns (kept: seq<TimedBuffer<TargetCorner>>)
    requires Distinct(bufs) && |contents| == |bufs| && AllNonEmpty(contents)
    requires forall i :: 0 <= i < |bufs| ==> bufs[i].Valid() && bufs[i].entries == contents[i]
    ensures Distinct(kept)
    ensures forall j :: 0 <= j < |kept| ==> kept[j] in bufs
    ensures |kept| == |Prune(contents, timestamp, window)|
    ensures forall j :: 0 <= j < |kept| ==> kept[j].entries == Prune(contents, timestamp, window)[j]
  {
    kept := [];
    for i := 0 to |bufs|
      invariant |kept| == |Prune(contents[..i], timestamp, window)|
      invariant forall j :: 0 <= j < |kept| ==> kept[j].entries == Prune(contents[..i], timestamp, window)[j]
      invariant forall j :: 0 <= j < |kept| ==> kept[j] in bufs[..i]
      invariant Distinct(kept)
    {
      assert contents[..i + 1][..i] == contents[..i];
      var b := bufs[i];
      if !(timestamp - b.LastKey() > window) {
        kept := kept + [b];
      }
    }
    assert contents[..|bufs|] == contents;
  }

  class CornerStatistics {
    var bufferSeconds: real
    var cornerBuffers: seq<TimedBuffer<TargetCorner>>
    var cornerAvgs: seq<TargetCorner>
    var cornerStdDevs: seq<Vec2<Sqrt>>
    var totalCornerSqError: TargetCorner
    var totalCornerStdDev: Vec2<Sqrt>
    /** The contents of `cornerBuffers`, one sample sequence per corner index. */
    ghost var samples: seq<Samples>
    ghost var Repr: set<object>

    /**
     * The buffers are distinct objects of this statistic, each sorted,
     * non-empty, holding its entry of `samples` and using the shared window.
     */
    ghost predicate BuffersValid()
      reads this, Repr
    {
      this in Repr && bufferSeconds >= 0.0 &&
      |samples| == |cornerBuffers| && AllNonEmpty(samples) && AllSorted(samples) &&
      (forall i :: 0 <= i < |cornerBuffers| ==> cornerBuffers[i] in Repr) &&
      Distinct(cornerBuffers) &&
      (forall i :: 0 <= i < |cornerBuffers| ==>
         cornerBuffers[i].entries == samples[i] && cornerBuffers[i].bufferSeconds == bufferSeconds)
    }

    /**
     * The cached results describe the current buffers: their means and
     * deviations, and the pooled totals (still the initial zeros while
     * there is no buffer).
     */
    ghost predicate Valid()
      reads this, Repr
    {
      BuffersValid() &&
      cornerAvgs == Avgs(samples) && cornerStdDevs == StdDevs(samples) &&
      totalCornerSqError == TotalSqErr(samples) &&
      totalCornerStdDev == (if samples == [] then Vec2(ZeroSqrt, ZeroSqrt) else TotalStdDev(samples))
    }

    /**
     * The base constructor's `setBufferSeconds` runs before the buffer list
     * exists, so it sets only the window; the list then starts empty.
     */
    constructor (bufferSeconds: real)
      requires bufferSeconds >= 0.0
      ensures Valid() && fresh(Repr)
      ensures this.bufferSeconds == bufferSeconds && samples == []
      ensures cornerAvgs == [] && cornerStdDevs == []
      ensures totalCornerSqError == Vec2(0.0, 0.0) && totalCornerStdDev == Vec2(ZeroSqrt, ZeroSqrt)
    {
      this.bufferSeconds := bufferSeconds;
      cornerBuffers := [];
      cornerAvgs := [];
      cornerStdDevs := [];
      totalCornerSqError := Vec2(0.0, 0.0);
      totalCornerStdDev := Vec2(ZeroSqrt, ZeroSqrt);
      samples := [];
      Repr := {this};
    }

    /** Sets the shared window and every buffer's window; no sample is evicted. */
    method SetBufferSeconds(bufferSeconds: real)
      requires Valid() && bufferSeconds >= 0.0
      modifies Repr
      ensures Valid() && Repr == old(Repr)
      ensures this.bufferSeconds == bufferSeconds
      ensures cornerBuffers == old(cornerBuffers) && samples == old(samples)
      ensures cornerAvgs == old(cornerAvgs) && cornerStdDevs == old(cornerStdDevs)
      ensures totalCornerSqError == old(totalCornerSqError) && totalCornerStdDev == old(totalCornerStdDev)
    {
      this.bufferSeconds := bufferSeconds;
      SetWindows(cornerBuffers, bufferSeconds);
    }

    /** `removeIf`: drops every buffer whose newest sample is stale at `timestamp`. */
    method PruneBuffers(timestamp: real)
      requires BuffersValid()
      modifies this`cornerBuffers, this`samples
      ensures BuffersValid()
      ensures samples == Prune(old(samples), timestamp, bufferSeconds)
    {
      cornerBuffers := KeepLive(cornerBuffers, samples, timestamp, bufferSeconds);
      PruneValid(samples, timestamp, bufferSeconds);
      samples := Prune(samples, timestamp, bufferSeconds);
    }

    /** The insertion loop: corner i into buffer i, appending buffers as needed. */
    method PlaceCorners(corners: seq<TargetCorner>, timestamp: real)
      requires BuffersValid()
      modifies Repr
      ensures BuffersValid() && fresh(Repr - old(Repr))
      ensures bufferSeconds == old(bufferSeconds)
      ensures samples == Place(old(samples), corners, timestamp, bufferSeconds)
    {
      PlaceSpec(samples, corners, timestamp, bufferSeconds);
      var bufs := PlaceAll(cornerBuffers, samples, corners, timestamp, bufferSeconds);
      Repr := Repr + set j | |cornerBuffers| <= j < |bufs| :: bufs[j];
      cornerBuffers := bufs;
      samples := Place(samples, corners, timestamp, bufferSeconds);
    }

    /** `calculate`: the per-buffer means and deviations and the pooled totals. */
    method Calculate()
      requires BuffersValid() && cornerBuffers != []
      modifies this`cornerAvgs, this`cornerStdDevs, this`totalCornerSqError, this`totalCornerStdDev
      ensures Valid()
    {
      var bufs := cornerBuffers;
      var bs := seq(|bufs|, i requires 0 <= i < |bufs| reads set j | 0 <= j < |bufs| :: bufs[j] => bufs[i].entries);
      assert bs == samples;
      cornerAvgs, cornerStdDevs, totalCornerSqError, totalCornerStdDev := Summarise(bs);
    }

    /**
     * `update(corners, timestamp)`: an empty list changes nothing; otherwise
     * stale buffers are pruned, the corners placed by index, and the cached
     * statistics recomputed.
     */
    method Update(corners: seq<TargetCorner>, timestamp: real)
      requires Valid()
      modifies Repr
      ensures Valid() && fresh(Repr - old(Repr))
      ensures bufferSeconds == old(bufferSeconds)
      ensures samples == CornerUpdate(old(samples), corners, timestamp, bufferSeconds)
      ensures corners == [] ==>
                cornerAvgs == old(cornerAvgs) && cornerStdDevs == old(cornerStdDevs) &&
                totalCornerSqError == old(totalCornerSqError) && totalCornerStdDev == old(totalCornerStdDev)
    {
      if |corners| == 0 {
        return;
      }
      PruneBuffers(timestamp);
      PlaceCorners(corners, timestamp);
      Calculate();
    }

    /** `update(double[] tcornxy, timestamp)`: decodes, and ignores an empty or odd-length array. */
    method UpdateFlat(tcornxy: seq<real>, timestamp: real)
      requires Valid()
      modifies Repr
      ensures Valid() && fresh(Repr - old(Repr))
      ensures bufferSeconds == old(bufferSeconds)
      ensures samples == CornerUpdate(old(samples), Decode(tcornxy), timestamp, bufferSeconds)
      ensures Decode(tcornxy) == [] ==>
                cornerAvgs == old(cornerAvgs) && cornerStdDevs == old(cornerStdDevs) &&
                totalCornerSqError == old(totalCornerSqError) && totalCornerStdDev == old(totalCornerStdDev)
    {
      var corners := TcornxyToTargetCorners(tcornxy);
      if |corners| == 0 {
        return;
      }
      Update(corners, timestamp);
    }

    function GetCornerAvgs(): (r: seq<TargetCorner>)
      requires Valid()
      reads this, Repr
      ensures r == Avgs(samples)
    {
      cornerAvgs
    }

    function GetCornerStdDevs(): (r: seq<Vec2<Sqrt>>)
      requires Valid()
      reads this, Repr
      ensures r == StdDevs(samples)
    {
      cornerStdDevs
    }

    function GetTotalCornerStdDev(): (r: Vec2<Sqrt>)
      requires Valid()
      reads this, Repr
      ensures samples != [] ==> r == TotalStdDev(samples)
      ensures samples == [] ==> r == Vec2(ZeroSqrt, ZeroSqrt)
    {
      totalCornerStdDev
    }

    function GetTotalCornerSqError(): (r: TargetCorner)
      requires Valid()
      reads this, Repr
      ensures r == TotalSqErr(samples)
    {
      totalCornerSqError
    }
  }
}
