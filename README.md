# Rolling-window vision statistics, modelled in Dafny

This project models the statistics engine of a robot vision program
(`frc/robot/statistics`). The engine keeps recent camera observations of a
fiducial target and reports their means and standard deviations:

- `TimedBuffer` (module `Buffer`, `timed_buffer.dfy`) is a TreeMap from
  timestamp to sample. On every insert, it evicts from the oldest key
  forward every entry more than `bufferSeconds` older than the inserted
  timestamp. The TreeMap is a strictly key-sorted sequence of entries. The
  pure functions `Put`, `Lookup`, `DropStale` and `AfterUpdate` specify the
  class, and the class methods are proved against them.
- The static helpers of `Statistics` (module `Stats`, `statistics.dfy`):
  - population mean, squared-error sum and standard deviation for scalars,
    3-D translations and 2-D target corners;
  - the wrapped rotation squared error;
  - the pose/transform array conversions.
  Each is a recursive specification function and a loop method proved
  against it.
- `CornerStatistics` (module `Corners`, `corner_statistics.dfy`) keeps one
  `TimedBuffer` per corner index. On update it:
  1. drops every buffer whose newest sample is out of the window;
  2. extends the list and inserts corner *i* into buffer *i*;
  3. recomputes the per-buffer means and deviations and the pooled total.
  The module also has the flat `tcornxy` codecs and `allTargetCorners`. The
  class keeps a ghost copy `samples` of its buffers' contents.
- `PoseStatistics` (module `Poses`, `pose_statistics.dfy`) keeps a
  translation buffer and a rotation buffer fed in lockstep, plus the cached
  summary of them.
- `TargetStatistics` (module `Targets`, `target_statistics.dfy`) holds one
  pose statistic and one corner statistic, and forwards updates, the window
  and the getters to them.

Several things are represented in simplified form:

- Timestamps and samples are `real`.
- `Math.sqrt(x)` is the symbolic value `Sqrt(x)` (module `Geometry`).
  Every deviation is stated on its radicand.
- The rotation average and `MathUtil.angleModulus` are library code. They
  are passed in as the function values of a `RotationMath`, so every fact
  about rotations holds whatever those functions are.
- A Java `null` corner list or `tcornxy` array is the empty sequence. In
  `CornerStatistics.update` and `tcornxyToTargetCorners` it takes the same
  branch as the empty one. A `null` pose is `None`. Null targets lists and
  null corners inside a list are not modelled (see "Left out").

## Model

Source paths are relative to the repository root.

| member | source | states |
|---|---|---|
| Buffer.LookupMiss | src/main/java/frc/robot/statistics/TimedBuffer.java:5 | `get` of a key that no entry carries is null |
| Buffer.LookupAt | src/main/java/frc/robot/statistics/TimedBuffer.java:5 | in a key-sorted map, `get` of an entry's key returns that entry's sample |
| Buffer.Lookup | src/main/java/frc/robot/statistics/TimedBuffer.java:5 | `get(k)` of the map; null means no entry carries `k` |
| Buffer.Put | src/main/java/frc/robot/statistics/TimedBuffer.java:30 | `put(k, v)` adds at most one entry and never removes one |
| Buffer.DropStale | src/main/java/frc/robot/statistics/TimedBuffer.java:20-26 | `cleanup(newTime)` never adds an entry |
| Buffer.AfterUpdate | src/main/java/frc/robot/statistics/TimedBuffer.java:28-33 | the map after `update(value, timestamp)`; `UpdateContents`, `UpdateWindow`, `UpdateKeepsInserted` and `UpdateIdempotent` state its properties |
| Buffer.PutAbove | src/main/java/frc/robot/statistics/TimedBuffer.java:30 | `put` creates no key below a bound that the new key and all old keys exceed |
| Buffer.PutSorted | src/main/java/frc/robot/statistics/TimedBuffer.java:30 | `put` keeps the keys strictly increasing |
| Buffer.PutLookup | src/main/java/frc/robot/statistics/TimedBuffer.java:30 | after `put(k, v)`, `get(k)` is `v` and `get` of every other key is unchanged |
| Buffer.PutSpec | src/main/java/frc/robot/statistics/TimedBuffer.java:30 | `put` keeps the map sorted, stores `v` at `k` and leaves every other key alone |
| Buffer.PutExisting | src/main/java/frc/robot/statistics/TimedBuffer.java:30 | `put` of the sample already stored at a key leaves the map unchanged |
| Buffer.PutBelow | src/main/java/frc/robot/statistics/TimedBuffer.java:30 | `put` of a key below all stored keys only prepends it |
| Buffer.DropStalePrefix | src/main/java/frc/robot/statistics/TimedBuffer.java:20-26 | `cleanup` removes a prefix of the key order and nothing else: every removed entry is stale, the first kept entry is not, and later entries (including keys above the new time) are untouched |
| Buffer.DropStaleWindow | src/main/java/frc/robot/statistics/TimedBuffer.java:20-26 | on a sorted map, `cleanup` keeps it sorted and every remaining key is inside the window |
| Buffer.DropStaleLookup | src/main/java/frc/robot/statistics/TimedBuffer.java:20-26 | after `cleanup(t)`, `get(k)` is null for a stale `k` and unchanged otherwise |
| Buffer.UpdateContents | src/main/java/frc/robot/statistics/TimedBuffer.java:28-33 | the complete map after `update(v, t)`: stale keys are gone, `t` maps to `v` if it is inside the window, every other key keeps its sample, and keys stay sorted |
| Buffer.UpdateWindow | src/main/java/frc/robot/statistics/TimedBuffer.java:28-33 | after `update(v, t)` every retained key `k` has `t - k <= bufferSeconds` |
| Buffer.UpdateKeepsInserted | src/main/java/frc/robot/statistics/TimedBuffer.java:28-33 | with `bufferSeconds >= 0` the inserted key survives its own cleanup, so the buffer is non-empty |
| Buffer.UpdateIdempotent | src/main/java/frc/robot/statistics/TimedBuffer.java:28-33 | two identical `update(v, t)` calls in a row leave the same map as one, for any window |
| Buffer.PutSameKeys | src/main/java/frc/robot/statistics/PoseStatistics.java:60-61 | `put` at the same key into maps with equal key sequences gives equal key sequences |
| Buffer.DropStaleSameKeys | src/main/java/frc/robot/statistics/PoseStatistics.java:60-61 | eviction depends on the keys alone |
| Buffer.UpdateSameKeys | src/main/java/frc/robot/statistics/PoseStatistics.java:60-61 | two buffers updated at the same timestamp with the same window keep identical key sets |
| Buffer.TimedBuffer.constructor | src/main/java/frc/robot/statistics/TimedBuffer.java:8-10 | the default constructor makes an empty map with a 3-second window |
| Buffer.TimedBuffer.WithWindow | src/main/java/frc/robot/statistics/TimedBuffer.java:12-14 | the one-argument constructor makes an empty map with the given window |
| Buffer.TimedBuffer.SetBufferSeconds | src/main/java/frc/robot/statistics/TimedBuffer.java:16-18 | only the window changes; no entry is removed |
| Buffer.TimedBuffer.LastKey | src/main/java/frc/robot/statistics/CornerStatistics.java:49 | `lastKey()` of a non-empty map is one of its keys and no key is larger |
| Buffer.TimedBuffer.Cleanup | src/main/java/frc/robot/statistics/TimedBuffer.java:20-26 | the loop leaves exactly `DropStale` of the old map, which is sorted |
| Buffer.TimedBuffer.Update | src/main/java/frc/robot/statistics/TimedBuffer.java:28-33 | null changes nothing and returns null; otherwise the map becomes `AfterUpdate` and the call returns the sample previously at exactly `t`, every kept key is inside the window, and `t` maps to `v` when `bufferSeconds >= 0` |
| Stats.SqErrorSum | src/main/java/frc/robot/statistics/Statistics.java:56-76 | a squared-error sum is never negative |
| Stats.Mean | src/main/java/frc/robot/statistics/Statistics.java:38-54 | the mean times the count is the sum, for non-empty input (0 for none, by definition) |
| Stats.StdDev | src/main/java/frc/robot/statistics/Statistics.java:78-94 | the radicand is non-negative, it is 0 for no values, and it times the count is the squared-error sum (population divisor) |
| Stats.StdDevTimesCount | src/main/java/frc/robot/statistics/Statistics.java:78-94 | variance times count equals the squared-error sum, for empty input too |
| Stats.SumBounds | src/main/java/frc/robot/statistics/Statistics.java:38-54 | values in `[lo, hi]` sum to between `n*lo` and `n*hi` |
| Stats.MeanBounds | src/main/java/frc/robot/statistics/Statistics.java:38-54 | the mean of values in `[lo, hi]` lies in `[lo, hi]` |
| Stats.MeanOfConstant | src/main/java/frc/robot/statistics/Statistics.java:38-54 | the mean of n copies of `c` is `c` |
| Stats.SqErrorSumOfConstant | src/main/java/frc/robot/statistics/Statistics.java:56-76 | values all equal to the average have zero squared error |
| Stats.StdDevOfConstant | src/main/java/frc/robot/statistics/Statistics.java:78-94 | constant values have that constant as mean and zero deviation |
| Stats.OneToFive | src/main/java/frc/robot/statistics/Statistics.java:38-94 | 1..5 has mean 3 and population variance 2 |
| Stats.TranslationMean | src/main/java/frc/robot/statistics/Statistics.java:97-107 | each axis of the average times the count is that axis's sum |
| Stats.TranslationSqErrorSum | src/main/java/frc/robot/statistics/Statistics.java:109-124 | non-negative on every axis, and the zero vector for no values |
| Stats.TranslationStdDev | src/main/java/frc/robot/statistics/Statistics.java:126-140 | non-negative radicands, and zero on every axis for no values |
| Stats.CornerMean | src/main/java/frc/robot/statistics/Statistics.java:261-269 | each coordinate of the average times the count is that coordinate's sum |
| Stats.CornerSqErrorSum | src/main/java/frc/robot/statistics/Statistics.java:271-283 | non-negative on both axes, and (0, 0) for no values |
| Stats.CornerStdDev | src/main/java/frc/robot/statistics/Statistics.java:285-296 | non-negative radicands, and zero on both axes for no values |
| Stats.FindAverage | src/main/java/frc/robot/statistics/Statistics.java:38-54 | the accumulator loop computes `Mean`: 0 for no values, else sum over n |
| Stats.FindSqErrorSum | src/main/java/frc/robot/statistics/Statistics.java:56-76 | the loop computes `SqErrorSum`, so its result is non-negative |
| Stats.FindStdDev | src/main/java/frc/robot/statistics/Statistics.java:78-94 | the result is `StdDev`: zero for no values, radicand sum over n otherwise |
| Stats.FindTranslationAverage | src/main/java/frc/robot/statistics/Statistics.java:97-107 | for non-empty input, the loop computes the per-axis mean |
| Stats.FindTranslationSqErrorSum | src/main/java/frc/robot/statistics/Statistics.java:109-124 | the loop computes the scalar squared-error sum independently on x, y and z |
| Stats.FindTranslationStdDev | src/main/java/frc/robot/statistics/Statistics.java:126-140 | per-axis population deviation, zero vector for no values |
| Stats.FindCornerAverage | src/main/java/frc/robot/statistics/Statistics.java:261-269 | for non-empty input, the per-axis mean corner |
| Stats.FindCornerSqErrorSum | src/main/java/frc/robot/statistics/Statistics.java:271-283 | the scalar squared-error sum on x and on y |
| Stats.FindCornerStdDev | src/main/java/frc/robot/statistics/Statistics.java:285-296 | per-axis population deviation, (0, 0) for no values |
| Stats.WrappedSqErrorSum | src/main/java/frc/robot/statistics/Statistics.java:198-213 | a sum of squared wrapped differences is non-negative |
| Stats.WrappedSqErrorSumStep | src/main/java/frc/robot/statistics/Statistics.java:198-213 | one loop step adds the square of the wrapped difference |
| Stats.UnwrappedIsSqErrorSum | src/main/java/frc/robot/statistics/Statistics.java:198-213 | with the identity wrap the rotation error is the scalar squared-error sum |
| Stats.RotationSqErrorSum | src/main/java/frc/robot/statistics/Statistics.java:198-213 | empty for no rotations, otherwise three non-negative entries |
| Stats.RotationStdDev | src/main/java/frc/robot/statistics/Statistics.java:215-229 | empty or three entries; each radicand is non-negative and times the count is that angle's squared error |
| Stats.RotationStep | src/main/java/frc/robot/statistics/Statistics.java:205-210 | one loop step extends each angle's wrapped sum by its squared difference |
| Stats.FindRotationSqErrorSum | src/main/java/frc/robot/statistics/Statistics.java:198-213 | the loop computes `RotationSqErrorSum` under the given angle modulus |
| Stats.FindRotationStdDev | src/main/java/frc/robot/statistics/Statistics.java:215-229 | the result is `RotationStdDev` |
| Stats.AsTransforms | src/main/java/frc/robot/statistics/Statistics.java:242-249 | same length, and each transform has its pose's translation and rotation |
| Stats.AsPoses | src/main/java/frc/robot/statistics/Statistics.java:251-258 | same length, and each pose has its transform's translation and rotation |
| Stats.PosesRoundTrip | src/main/java/frc/robot/statistics/Statistics.java:242-258 | poses to transforms and back is the identity |
| Stats.TransformsRoundTrip | src/main/java/frc/robot/statistics/Statistics.java:242-258 | transforms to poses and back is the identity |
| Stats.PosesToTrfs | src/main/java/frc/robot/statistics/Statistics.java:242-249 | the loop builds `AsTransforms` |
| Stats.TrfsToPoses | src/main/java/frc/robot/statistics/Statistics.java:251-258 | the loop builds `AsPoses` |
| Corners.PruneMembers | src/main/java/frc/robot/statistics/CornerStatistics.java:49 | a buffer survives `removeIf` if and only if its newest key is inside the window |
| Corners.PruneAppend | src/main/java/frc/robot/statistics/CornerStatistics.java:49 | pruning works buffer by buffer and keeps the survivors' relative order |
| Corners.PruneValid | src/main/java/frc/robot/statistics/CornerStatistics.java:49 | survivors stay sorted and non-empty, and each is inside the window |
| Corners.Prune | src/main/java/frc/robot/statistics/CornerStatistics.java:49 | `removeIf` leaves only non-empty buffers whose newest key is inside the window |
| Corners.Place | src/main/java/frc/robot/statistics/CornerStatistics.java:51-54 | the insertion loop's result on the contents; `PlaceSpec` states its properties (length, placed corners, untouched tail) |
| Corners.CornerUpdate | src/main/java/frc/robot/statistics/CornerStatistics.java:45-54 | an update leaves at least one buffer per corner |
| Corners.Avgs | src/main/java/frc/robot/statistics/CornerStatistics.java:61-74 | `cornerAvgs` has one entry per buffer |
| Corners.StdDevs | src/main/java/frc/robot/statistics/CornerStatistics.java:62-75 | `cornerStdDevs` has one entry per buffer |
| Corners.TotalSqErr | src/main/java/frc/robot/statistics/CornerStatistics.java:63-77 | `totalCornerSqError` is non-negative on both axes |
| Corners.TotalStdDev | src/main/java/frc/robot/statistics/CornerStatistics.java:78-81 | `totalCornerStdDev` has non-negative radicands |
| Corners.PlaceSpec | src/main/java/frc/robot/statistics/CornerStatistics.java:51-54 | after insertion there are max(buffers, corners) buffers; buffer i maps `t` to corner i, keeps its other in-window samples and is inside the window; buffers at index >= n are as they were |
| Corners.PlaceOne | src/main/java/frc/robot/statistics/CornerStatistics.java:53 | one corner's insertion keeps its buffer sorted, non-empty and inside the window |
| Corners.CornerUpdateSpec | src/main/java/frc/robot/statistics/CornerStatistics.java:45-54 | no corners changes nothing; otherwise there are at least n buffers, buffer i maps `t` to corner i, and all buffers are sorted and non-empty |
| Corners.TotalCount | src/main/java/frc/robot/statistics/CornerStatistics.java:68 | with non-empty buffers the total sample count is at least the number of buffers, so the pooled divisor is positive |
| Corners.BufferWeighted | src/main/java/frc/robot/statistics/CornerStatistics.java:69-73 | one buffer's variance times its count is its squared-error sum |
| Corners.TotalSqErrIsWeighted | src/main/java/frc/robot/statistics/CornerStatistics.java:63-77 | `totalCornerSqError` is the count-weighted sum of the per-buffer variances |
| Corners.PooledVariance | src/main/java/frc/robot/statistics/CornerStatistics.java:77-81 | the squared total deviation is that weighted sum over the total sample count |
| Corners.PooledExample | src/main/java/frc/robot/statistics/CornerStatistics.java:60-82 | a worked case: buffers with x = 0, 1, 2 and x = 5 give pooled variance 2/4, while the first buffer alone has variance 2/3 |
| Corners.Decode | src/main/java/frc/robot/statistics/CornerStatistics.java:94-102 | empty for an odd-length array; otherwise length/2 corners |
| Corners.TcornxyToTargetCorners | src/main/java/frc/robot/statistics/CornerStatistics.java:94-102 | the loop builds `Decode`: corner i is `(a[2i], a[2i+1])` |
| Corners.EncodeAsWritten | src/main/java/frc/robot/statistics/CornerStatistics.java:104-113 | the array as the code writes it has length 2n |
| Corners.TargetCornersToTcornxy | src/main/java/frc/robot/statistics/CornerStatistics.java:104-113 | a fresh array whose contents are `EncodeAsWritten`: x at index i, y at index i+1 |
| Corners.Encode | src/main/java/frc/robot/statistics/CornerStatistics.java:104-113 | the evident intent: x at 2i and y at 2i+1, length 2n |
| Corners.DecodeEncode | src/main/java/frc/robot/statistics/CornerStatistics.java:94-113 | decoding the intended encoding returns the corners |
| Corners.EncodeDecode | src/main/java/frc/robot/statistics/CornerStatistics.java:94-113 | encoding a decoded even-length array returns the array |
| Corners.AsWrittenAgreesUpToOne | src/main/java/frc/robot/statistics/CornerStatistics.java:108-110 | for at most one corner the code as written is correct and round-trips |
| Corners.AsWrittenLosesCorners | src/main/java/frc/robot/statistics/CornerStatistics.java:108-110 | for two corners the code as written overwrites y and loses the round trip |
| Corners.AsWrittenRoundTripNeedsZeroLast | src/main/java/frc/robot/statistics/CornerStatistics.java:108-110 | for every list of two or more corners, the as-written round trip can succeed only if the last corner is (0, 0) |
| Corners.InsertById | src/main/java/frc/robot/statistics/CornerStatistics.java:117 | insertion into the ID order adds exactly the one target |
| Corners.SortById | src/main/java/frc/robot/statistics/CornerStatistics.java:117 | sorting by fiducial ID is a permutation |
| Corners.InsertByIdSorted | src/main/java/frc/robot/statistics/CornerStatistics.java:117 | insertion keeps IDs ascending |
| Corners.SortByIdSorted | src/main/java/frc/robot/statistics/CornerStatistics.java:117 | the sort yields ascending fiducial IDs |
| Corners.WithIdSnoc | src/main/java/frc/robot/statistics/CornerStatistics.java:117 | the targets with a given ID, of a sequence extended by one |
| Corners.InsertByIdStable | src/main/java/frc/robot/statistics/CornerStatistics.java:117 | insertion places a target after the targets with its ID |
| Corners.SortByIdStable | src/main/java/frc/robot/statistics/CornerStatistics.java:117 | the sort is stable: targets with equal IDs keep their input order |
| Corners.FlattenLength | src/main/java/frc/robot/statistics/CornerStatistics.java:117 | concatenating the corners gives the total corner count |
| Corners.InsertByIdCount | src/main/java/frc/robot/statistics/CornerStatistics.java:117 | insertion adds the target's corner count |
| Corners.SortByIdCount | src/main/java/frc/robot/statistics/CornerStatistics.java:117 | sorting keeps the total corner count |
| Corners.AllTargetCorners | src/main/java/frc/robot/statistics/CornerStatistics.java:115-119 | the targets' corners concatenated in ascending fiducial-ID order; `SortByIdSorted`, `SortByIdStable` and `AllTargetCornersLength` state its properties |
| Corners.AllTargetCornersLength | src/main/java/frc/robot/statistics/CornerStatistics.java:115-119 | `allTargetCorners` has as many corners as all targets together |
| Corners.SetWindows | src/main/java/frc/robot/statistics/CornerStatistics.java:34 | every buffer gets the new window and keeps its samples |
| Corners.BufferStatistics | src/main/java/frc/robot/statistics/CornerStatistics.java:67-73 | one buffer's mean, squared error and deviation about that mean |
| Corners.CalculateStep | src/main/java/frc/robot/statistics/CornerStatistics.java:66-76 | one iteration appends one mean and deviation and adds one buffer's error and count |
| Corners.Summarise | src/main/java/frc/robot/statistics/CornerStatistics.java:60-82 | the loop yields the per-buffer means and deviations in buffer order, the total squared error and the pooled deviation |
| Corners.Insert | src/main/java/frc/robot/statistics/CornerStatistics.java:53 | one corner's insertion into its buffer is `AfterUpdate`; the window is unchanged |
| Corners.PlaceAll | src/main/java/frc/robot/statistics/CornerStatistics.java:51-54 | the loop appends fresh buffers with the current window as needed, and buffer i then holds `Place(...)[i]` |
| Corners.KeepLive | src/main/java/frc/robot/statistics/CornerStatistics.java:49 | the kept buffers are distinct old buffers whose contents are `Prune` of the old contents |
| Corners.CornerStatistics.constructor | src/main/java/frc/robot/statistics/CornerStatistics.java:16-29 | no buffers, empty averages and deviations, zero totals, the given window |
| Corners.CornerStatistics.SetBufferSeconds | src/main/java/frc/robot/statistics/CornerStatistics.java:31-35 | sets the window of the statistic and of every buffer; samples and cached results are unchanged |
| Corners.CornerStatistics.PruneBuffers | src/main/java/frc/robot/statistics/CornerStatistics.java:49 | the buffers become `Prune` of the old ones |
| Corners.CornerStatistics.PlaceCorners | src/main/java/frc/robot/statistics/CornerStatistics.java:51-54 | the buffers become `Place` of the pruned ones |
| Corners.CornerStatistics.Calculate | src/main/java/frc/robot/statistics/CornerStatistics.java:60-82 | the cached fields become the statistics of the current samples |
| Corners.CornerStatistics.Update | src/main/java/frc/robot/statistics/CornerStatistics.java:45-58 | the samples become `CornerUpdate` of the old ones, the cached results match them, and no corners leaves every cached field unchanged |
| Corners.CornerStatistics.UpdateFlat | src/main/java/frc/robot/statistics/CornerStatistics.java:37-42 | as `Update` on the decoded array; an empty or odd-length array changes nothing |
| Corners.CornerStatistics.GetCornerAvgs | src/main/java/frc/robot/statistics/CornerStatistics.java:89 | each buffer's mean, in buffer order |
| Corners.CornerStatistics.GetCornerStdDevs | src/main/java/frc/robot/statistics/CornerStatistics.java:90 | each buffer's population deviation about its mean |
| Corners.CornerStatistics.GetTotalCornerStdDev | src/main/java/frc/robot/statistics/CornerStatistics.java:91 | the pooled deviation, or (0, 0) before the first update |
| Corners.CornerStatistics.GetTotalCornerSqError | src/main/java/frc/robot/statistics/CornerStatistics.java:92 | the squared error summed over all buffers |
| Poses.SummaryTranslation | src/main/java/frc/robot/statistics/PoseStatistics.java:68-70 | the translation average is the per-axis mean, and each axis's variance times the count is its squared-error sum |
| Poses.SummaryRotation | src/main/java/frc/robot/statistics/PoseStatistics.java:72-74 | the rotation average comes from the rotation-mean function; the deviation has three non-negative entries when there are rotations |
| Poses.SummaryWithinBox | src/main/java/frc/robot/statistics/PoseStatistics.java:68-69 | translations inside a box have their average inside the box |
| Poses.SummaryOfStill | src/main/java/frc/robot/statistics/PoseStatistics.java:68-70 | a target that has not moved has its position as average and zero deviation |
| Poses.Summary | src/main/java/frc/robot/statistics/PoseStatistics.java:67-75 | what `calculate` caches; `SummaryTranslation`, `SummaryRotation`, `SummaryWithinBox` and `SummaryOfStill` state its properties |
| Poses.PoseStatistics.constructor | src/main/java/frc/robot/statistics/PoseStatistics.java:23-32 | the statistic takes the given window, but both buffers keep the 3-second default; the cache holds zero, zero, the identity rotation and an empty deviation |
| Poses.PoseStatistics.SetBufferSeconds | src/main/java/frc/robot/statistics/PoseStatistics.java:50-54 | the statistic and both buffers get the same window; samples and cache are unchanged |
| Poses.PoseStatistics.Calculate | src/main/java/frc/robot/statistics/PoseStatistics.java:67-75 | the cache becomes `Summary` of the buffered translations and rotations |
| Poses.PoseStatistics.Update | src/main/java/frc/robot/statistics/PoseStatistics.java:57-65 | a null pose changes nothing; otherwise both buffers take the pose's part at `t`, their key sets stay equal, and the rotation deviation has three entries |
| Poses.PoseStatistics.GetTranslationAvg | src/main/java/frc/robot/statistics/PoseStatistics.java:92 | zero before the first update, then the mean of the buffered translations |
| Poses.PoseStatistics.GetTranslationStdDev | src/main/java/frc/robot/statistics/PoseStatistics.java:93 | zero before the first update, then the per-axis population deviation |
| Poses.PoseStatistics.GetRotationAvg | src/main/java/frc/robot/statistics/PoseStatistics.java:94 | the identity before the first update, then the rotation average of the buffer |
| Poses.PoseStatistics.GetRotationStdDev | src/main/java/frc/robot/statistics/PoseStatistics.java:95 | empty before the first update, then the wrapped per-angle deviation |
| Targets.TargetStatistics.constructor | src/main/java/frc/robot/statistics/TargetStatistics.java:18-22 | the corner child uses the given window, the pose child's buffers keep 3 seconds, and both children start empty |
| Targets.TargetStatistics.SetBufferSeconds | src/main/java/frc/robot/statistics/TargetStatistics.java:25-29 | its own field, both children and all their buffers get the window; nothing else changes |
| Targets.TargetStatistics.Update | src/main/java/frc/robot/statistics/TargetStatistics.java:41-44 | the pose goes to the pose child and the corners to the corner child at the same `t`, independently of each other; every window stays as it was |
| Targets.TargetStatistics.UpdateFlat | src/main/java/frc/robot/statistics/TargetStatistics.java:36-39 | as `Update` with decoded corners; an empty or odd-length array leaves the corner child as it was; every window stays as it was |
| Targets.TargetStatistics.UpdatePose | src/main/java/frc/robot/statistics/TargetStatistics.java:42 | the pose child's update, which leaves the corner child untouched; every window stays as it was |
| Targets.TargetStatistics.UpdateCorners | src/main/java/frc/robot/statistics/TargetStatistics.java:43 | the corner child's update, which leaves the pose child untouched; every window stays as it was |
| Targets.TargetStatistics.UpdateCornersFlat | src/main/java/frc/robot/statistics/TargetStatistics.java:38 | the corner child's flat-array update; every window stays as it was |
| Targets.TargetStatistics.GetTranslationAvg | src/main/java/frc/robot/statistics/TargetStatistics.java:46 | exactly the pose child's value |
| Targets.TargetStatistics.GetTranslationStdDev | src/main/java/frc/robot/statistics/TargetStatistics.java:47 | exactly the pose child's value |
| Targets.TargetStatistics.GetRotationAvg | src/main/java/frc/robot/statistics/TargetStatistics.java:48 | exactly the pose child's value |
| Targets.TargetStatistics.GetRotationStdDev | src/main/java/frc/robot/statistics/TargetStatistics.java:49 | exactly the pose child's value |
| Targets.TargetStatistics.GetCornerAvgs | src/main/java/frc/robot/statistics/TargetStatistics.java:50 | exactly the corner child's value |
| Targets.TargetStatistics.GetCornerStdDevs | src/main/java/frc/robot/statistics/TargetStatistics.java:51 | exactly the corner child's value |
| Targets.TargetStatistics.GetTotalCornerStdDev | src/main/java/frc/robot/statistics/TargetStatistics.java:52 | exactly the corner child's value |
| Targets.TargetStatistics.GetTotalCornerSqError | src/main/java/frc/robot/statistics/TargetStatistics.java:53 | exactly the corner child's value |

## Left out

- Rotation `findAverage` (eigen-decomposition through EJML) and `findAverageFast` (trigonometry through `Rotation2d`), Statistics.java:143-196: library linear algebra and trigonometry. The rotation mean is the `average` function value of `RotationMath`.
- `MathUtil.angleModulus` and the Euler-angle getters, Statistics.java:205-207: the wrap is the `angleModulus` function value of `RotationMath`, and a rotation is its three Euler angles.
- `Math.sqrt` and `Math.toDegrees`: a deviation is the symbolic `Sqrt` of its radicand, and degrees are only used for telemetry.
- IEEE-754 rounding and NaN: arithmetic is exact over `real`.
- Stats.FindTranslationAverage: requires non-empty input, because the source divides 0 by 0 (NaN) when there are no values.
- Stats.FindCornerAverage: requires non-empty input, for the same reason.
- `Statistics.findAverage(Pose3d...)`, Statistics.java:232-240: it depends on `Pose3d.plus` and the rotation eigen-average, both library code.
- `TargetStatistics.update(PhotonTrackedTarget, ...)`, TargetStatistics.java:32-34: it depends on `Pose3d.plus(Transform3d)`, which is library code.
- The `Collection<Double>` overloads of the scalar helpers: they compute the same as the varargs ones, which are modelled on a sequence.
- `publishNT` and the NetworkTables publishers and table name: telemetry side effects with no influence on the statistics.
- `src/main/java/frc/robot/Robot.java`: camera polling, pose estimation, logging and dashboards. It is not part of this model.
- `allTargetCorners(null)` throws a `NullPointerException` (CornerStatistics.java:117). The model has no null targets list, and `AllTargetCorners([])` is `[]`.
- A `null` element in the corner list given to `CornerStatistics.update` is not modelled: corners are a `seq<TargetCorner>`. In the source that element reaches the no-op branch of `TimedBuffer.update` (TimedBuffer.java:29). A buffer appended for it stays empty. `calculate` then divides 0 by 0 (Statistics.java:268), and the next update's `lastKey()` throws (CornerStatistics.java:49).
- A non-negative window is assumed: the statistics constructors and `SetBufferSeconds` methods require `bufferSeconds >= 0`. `TimedBuffer` itself allows any window.
- Corners.SortById: the comparator `a - b` of `allTargetCorners` is modelled as exact integer comparison, so the `int` overflow for fiducial IDs that are far apart is not modelled.

## Findings

| source | as written | input that shows it | evidently intended | confidence | as-written member | corrected member |
|---|---|---|---|---|---|---|
| src/main/java/frc/robot/statistics/CornerStatistics.java:109-110 | `targetCornersToTcornxy` writes x at index `i` and y at index `i+1`, so each corner's x overwrites the previous corner's y | corners (1, 2), (3, 4) encode to [1, 3, 4, 0], which decodes to (1, 3), (4, 0) | x at `2i` and y at `2i+1`, so that `tcornxyToTargetCorners` inverts it | high for the arithmetic; not executed | Corners.EncodeAsWritten, Corners.TargetCornersToTcornxy, Corners.AsWrittenLosesCorners, Corners.AsWrittenRoundTripNeedsZeroLast | Corners.Encode, Corners.DecodeEncode, Corners.EncodeDecode |
