# Sliding-window patch inference for NIH Pancreas, in Dafny

This project models the evaluation engine of `code/NIH_Pancreas/test_util.py` and proves
properties of that model. The engine segments a 3D scan that is too large for one forward
pass. It works in six steps:

1. It pads every axis shorter than the patch with zeros, split symmetrically.
2. It plans window origins on every axis: `ceil((ww - p) / s) + 1` windows, where window `i`
   starts at `min(s * i, ww - p)`.
3. It runs the network on every window and adds the responses into a score volume. A
   visit-count volume counts the windows that covered each voxel.
4. It divides the scores by the counts and takes the arg-max over classes.
5. It crops both outputs back to the original extent.
6. The driver `test_all_case` can keep only the largest connected component of each
   prediction. It scores each case with four metrics (an empty prediction scores zero) and
   averages over the number of cases.

Modules, in dependency order:

- `Volumes`: shapes, dense grids, crops, the `Outcome` type.
- `Planner`: per-axis origins and coverage.
- `Padding`: the padding descriptor, `np.pad` with constant 0, and its inverse crop.
- `Accumulation`: the opaque network, the sweep specification, and the imperative triple
  loop over `array4<real>` / `array3<nat>`.
- `Resolver`: division with NaN, numpy's arg-max, normalised scores.
- `Engine`: `test_single_case` end to end.
- `LargestComponent`: `getLargestCC`.
- `CaseDriver`: `test_all_case`.

The two single-case routines (`test_single_case`, lines 53–113, and `test_DTC_single_case`,
lines 116–172) have the same body. They differ only in how the network's output tuple is
unpacked. Both are modelled by `Engine.TestSingleCase`, and the network is an opaque
function `Net` that returns the post-softmax probability of a class at a voxel of a patch.

Three behaviours of the code as written are kept as they are:

- A voxel no window visits divides `0 / 0` at line 108. numpy yields NaN there rather than
  failing, and `argmax` at line 109 returns the first NaN, so that voxel gets label 0. The
  model keeps this with `Resolver.Score.NaN`. `FullCoverageHasNoNaN` proves that no NaN can
  occur when `0 < stride <= patch`.
- With `nms` set, `getLargestCC` (line 17) fails on an all-background prediction before the
  zero-metric shortcut at line 38 can apply, so that shortcut is unreachable under the
  filter. The model returns `Failure(NoComponent)` here, which stops the run
  (`CaseDriver.EmptyPredictionFailsUnderFilter`).
- An empty case list divides `0.0 / 0` at line 49 and raises. The model returns
  `Failure(NoCases)`.

## Model

| member | source | states |
|---|---|---|
| Padding.PlanPadding | code/NIH_Pancreas/test_util.py:54-75 | each axis is padded by exactly the patch deficit; the low side gets `deficit // 2` and the high side the rest (at most one more); padding is needed iff some axis is shorter than the patch; the padded shape is the per-axis max of shape and patch |
| Padding.Pad | code/NIH_Pancreas/test_util.py:76-77 | `np.pad` with constant 0 gives a volume of shape `s + lo + hi`; its voxels are stated by `PadAt` |
| Padding.PadAt | code/NIH_Pancreas/test_util.py:76-77 | every added voxel is 0, and every original voxel is moved by the low padding |
| Padding.CropUndoesPad | code/NIH_Pancreas/test_util.py:76-77 | cropping the padded volume at the low offsets with the original extent gives the original volume back exactly |
| Padding.PadNothingIsIdentity | code/NIH_Pancreas/test_util.py:76-77 | padding by zero voxels on every side is the identity |
| Padding.NoDeficitNoPadding | code/NIH_Pancreas/test_util.py:57-76 | a volume no axis of which is shorter than the patch gets an all-zero, not-needed descriptor |
| Volumes.Crop3 | code/NIH_Pancreas/test_util.py:110-112 | a 3D slice `[lo, lo + e)` has shape `e`; its voxels are stated by `Volumes.CropAt` |
| Volumes.Crop4 | code/NIH_Pancreas/test_util.py:112 | the 4D slice keeps the class axis and has shape `e` on the other three; channel `c` is the 3D slice of channel `c` |
| Volumes.CropAt | code/NIH_Pancreas/test_util.py:110-112 | voxel `(x, y, z)` of the slice is voxel `lo + (x, y, z)` of the volume |
| Padding.CropWholeIsIdentity | code/NIH_Pancreas/test_util.py:110-113 | cropping the whole extent from the origin is the identity |
| Padding.PadToPatch | code/NIH_Pancreas/test_util.py:54-78 | the step's result has the planned descriptor and padded shape, every axis holds a patch, and cropping it at the descriptor restores the input; when padding is needed the volume is `Pad` of the input (zeros in the margin, by `PadAt`), and otherwise it is the input itself |
| Planner.CeilDiv | code/NIH_Pancreas/test_util.py:80-82 | the result is the least `q` with `a <= q * s` |
| Planner.OriginCount | code/NIH_Pancreas/test_util.py:80-82 | every axis gets at least one window |
| Planner.AxisOrigins | code/NIH_Pancreas/test_util.py:80-92 | there are `ceil((ww - p) / s) + 1` origins, and origin `i` is `min(s * i, ww - p)` |
| Planner.OriginsInBounds | code/NIH_Pancreas/test_util.py:88-92 | every window `[o, o + p)` lies inside the axis |
| Planner.OriginsEndpoints | code/NIH_Pancreas/test_util.py:80-92 | the first window starts at 0 and the last ends exactly at the far edge |
| Planner.OriginsIncreasing | code/NIH_Pancreas/test_util.py:80-92 | origins strictly increase, so no window is visited twice |
| Planner.InteriorWindow | code/NIH_Pancreas/test_util.py:80-92 | a position before the last window lies in the unclamped window of its stride cell, and that window is planned |
| Planner.CoverCountPositive | code/NIH_Pancreas/test_util.py:88-92 | a position's cover count is positive iff some window contains it |
| Planner.OriginsCover | code/NIH_Pancreas/test_util.py:80-92 | with `0 < s <= p`, every position of the axis lies in at least one planned window |
| Accumulation.PlanFor | code/NIH_Pancreas/test_util.py:80-92 | the plan's x and y origins are the planned origins for `stride_xy` on those axes, its z origins are those for `stride_z`, and every planned window fits the padded volume |
| Accumulation.Response | code/NIH_Pancreas/test_util.py:93-105 | a window contributes nothing to a voxel outside it; inside, it contributes the network's value for the patch cut at the window origin, at the voxel's position within the patch |
| Accumulation.AddWindow | code/NIH_Pancreas/test_util.py:93-107 | one window adds the network's response to the scores inside the window and 1 to the counts inside it, and changes nothing outside |
| Accumulation.SweepColumn | code/NIH_Pancreas/test_util.py:91-107 | the inner loop adds the column's partial score and visit sums |
| Accumulation.SweepSlab | code/NIH_Pancreas/test_util.py:89-107 | the middle loop adds the slab's partial score and visit sums |
| Accumulation.Accumulate | code/NIH_Pancreas/test_util.py:84-107 | the two arrays are newly allocated; from zeroed arrays, every score equals the sum of the planned windows' responses at that voxel, and every count equals the number of planned windows holding it |
| Accumulation.VisitsArePlanCovers | code/NIH_Pancreas/test_util.py:87-107 | a voxel's visit count is the product of its per-axis cover counts, that is, the number of planned origin triples whose window holds it |
| Accumulation.EveryVoxelVisited | code/NIH_Pancreas/test_util.py:80-107 | with `0 < stride <= patch` on every axis, every voxel of the padded volume is visited at least once |
| Accumulation.UnvisitedScoresZero | code/NIH_Pancreas/test_util.py:84-107 | a voxel with visit count 0 keeps score 0 in every class |
| Accumulation.TotalScoreBounded | code/NIH_Pancreas/test_util.py:101-107 | when the network reports probabilities, a voxel's accumulated score lies between 0 and its visit count |
| Resolver.Divide | code/NIH_Pancreas/test_util.py:108 | the quotient is NaN exactly when the count is 0 |
| Resolver.ArgMax | code/NIH_Pancreas/test_util.py:109 | `np.argmax` returns an index of the vector; `ArgMaxIsFirstMaximum` states which one |
| Resolver.ArgMaxIsFirstMaximum | code/NIH_Pancreas/test_util.py:109 | arg-max picks NaN iff there is one, and then the first; otherwise it picks a maximal entry that is strictly greater than every entry before it |
| Resolver.UniformScoresGiveClassZero | code/NIH_Pancreas/test_util.py:109 | when all classes tie, the label is 0 |
| Resolver.ClassColumn | code/NIH_Pancreas/test_util.py:108-109 | the class-axis vector at a voxel holds entry `c` of channel `c` |
| Resolver.Normalize | code/NIH_Pancreas/test_util.py:108 | the count is broadcast over the class axis: every channel is divided by the same counts |
| Resolver.NormalizeChannel | code/NIH_Pancreas/test_util.py:108 | every voxel of a channel is its score divided by its count |
| Resolver.Labels | code/NIH_Pancreas/test_util.py:109 | `np.argmax(score_map, axis=0)` has the shape of one channel; its voxels are stated by `LabelAt` |
| Resolver.LabelAt | code/NIH_Pancreas/test_util.py:109 | a voxel's label is the arg-max of its class column, hence below the class count |
| Resolver.NormalizedScoreIsProbability | code/NIH_Pancreas/test_util.py:101-108 | a finite normalised score of a probability-valued network lies in `[0, 1]` |
| Resolver.FullCoverageHasNoNaN | code/NIH_Pancreas/test_util.py:80-108 | with `0 < stride <= patch` on every axis, no normalised score is NaN |
| Resolver.UnvisitedVoxelGetsLabelZero | code/NIH_Pancreas/test_util.py:108-109 | a voxel no window visited gets label 0 |
| Engine.PaddedSweep | code/NIH_Pancreas/test_util.py:54-84 | the swept volume has the padded shape, crops back to the input at the low padding, is `Pad` of the input when padding is needed and the input itself otherwise, and keeps the patch, class count and network |
| Engine.NormalizeMatchesSweep | code/NIH_Pancreas/test_util.py:84-108 | dividing the swept arrays gives the normalised score volume of the specified sums |
| Engine.CropCommutesWithArgMax | code/NIH_Pancreas/test_util.py:109-112 | cropping the labels equals taking the arg-max of the cropped scores |
| Engine.LabelsAreArgMaxOfScores | code/NIH_Pancreas/test_util.py:108-113 | the returned labels are the arg-max of the returned scores |
| Engine.LabelsInRange | code/NIH_Pancreas/test_util.py:109-113 | every returned label is a class index |
| Engine.ScoresAreShiftedSweepScores | code/NIH_Pancreas/test_util.py:110-113 | every returned score is the padded sweep's normalised score at the voxel shifted by the low padding |
| Engine.ScoresAreWindowMeans | code/NIH_Pancreas/test_util.py:84-113 | every returned score is the mean of the window responses at the corresponding padded voxel |
| Engine.FullCoverageScoresAreFinite | code/NIH_Pancreas/test_util.py:53-113 | with `0 < stride <= patch`, no returned score is NaN |
| Engine.ScoresAreProbabilities | code/NIH_Pancreas/test_util.py:101-113 | when the network reports probabilities, every finite returned score lies in `[0, 1]` |
| Engine.Predict | code/NIH_Pancreas/test_util.py:53-113 | both outputs have the original volume's shape |
| Engine.TestSingleCase | code/NIH_Pancreas/test_util.py:53-113 | padding, the imperative sweep, division, arg-max and crop give exactly `Predict` |
| LargestComponent.Flatten | code/NIH_Pancreas/test_util.py:18 | a value occurs in `labels.flat` iff some voxel holds it |
| LargestComponent.FlattenLayout | code/NIH_Pancreas/test_util.py:18 | `labels.flat` of a volume of shape `s` has `s.x * s.y * s.z` entries, with voxel `(x, y, z)` at the C-order offset `(x * s.y + y) * s.z + z` |
| LargestComponent.OccurrencesPositive | code/NIH_Pancreas/test_util.py:18 | a value is counted a positive number of times iff it occurs |
| LargestComponent.MaxOf | code/NIH_Pancreas/test_util.py:17 | `max()` is an element and no element exceeds it |
| LargestComponent.ComponentSizes | code/NIH_Pancreas/test_util.py:18 | entry `i` of `bincount(...)[1:]` is the voxel count of component `i + 1` |
| LargestComponent.LargestLabel | code/NIH_Pancreas/test_util.py:16-18 | it fails iff the volume is empty or has no component, with the matching error |
| LargestComponent.LargestLabelIsLargest | code/NIH_Pancreas/test_util.py:18 | the chosen component exists, none is larger, and every lower-numbered one is strictly smaller |
| LargestComponent.GetLargestCC | code/NIH_Pancreas/test_util.py:15-19 | it fails exactly when the largest-label step fails; otherwise it returns the mask of that component |
| LargestComponent.Mask | code/NIH_Pancreas/test_util.py:18 | a voxel is kept iff it carries the chosen number |
| LargestComponent.FailsIffNoComponent | code/NIH_Pancreas/test_util.py:17 | the filter fails iff every voxel of the labelling is background |
| LargestComponent.NoComponentLeft | code/NIH_Pancreas/test_util.py:16-17 | an all-zero labelling makes the filter fail |
| LargestComponent.KeptVoxelIsLabelled | code/NIH_Pancreas/test_util.py:18 | every kept voxel carries the chosen component number, which is at least 1 |
| LargestComponent.KeptMaskIsNonEmpty | code/NIH_Pancreas/test_util.py:18-19 | the kept mask has at least one voxel |
| LargestComponent.KeptMaskIsForeground | code/NIH_Pancreas/test_util.py:16-18 | when the labelling marks exactly the foreground, every kept voxel is foreground |
| CaseDriver.SumZeroIffAllZero | code/NIH_Pancreas/test_util.py:38 | `np.sum` of a label volume is zero iff every voxel is zero |
| CaseDriver.VoxelSum | code/NIH_Pancreas/test_util.py:38 | `np.sum(prediction)` is zero iff every voxel is zero |
| CaseDriver.CaseMetric | code/NIH_Pancreas/test_util.py:38-41 | an all-zero prediction scores `(0, 0, 0, 0)`; any other is scored by the metric routine |
| CaseDriver.Indicator | code/NIH_Pancreas/test_util.py:36-38 | a boolean mask becomes 1 where it is set and 0 elsewhere |
| CaseDriver.FinalPrediction | code/NIH_Pancreas/test_util.py:35-36 | without the filter the labels pass unchanged; with it, the step fails iff `getLargestCC` fails, and otherwise yields the 0/1 volume of the kept mask |
| CaseDriver.ScoreCase | code/NIH_Pancreas/test_util.py:35-41 | without the filter the case earns `CaseMetric` of its labels; with it, the case fails iff `getLargestCC` fails, and otherwise earns `CaseMetric` of the kept mask |
| CaseDriver.Predictions | code/NIH_Pancreas/test_util.py:24-34 | every case gets its engine prediction, in list order |
| CaseDriver.Outcomes | code/NIH_Pancreas/test_util.py:35-41 | every case's outcome is its filtered, scored prediction |
| CaseDriver.Total | code/NIH_Pancreas/test_util.py:23-43 | the total fails iff some case fails, and then it is the first failing case's error |
| CaseDriver.Mean | code/NIH_Pancreas/test_util.py:49 | a failed total passes through; otherwise an empty case list fails, and a non-empty one yields the total divided by the case count on every metric |
| CaseDriver.EvaluateOne | code/NIH_Pancreas/test_util.py:31-41 | the loop body yields exactly the scored outcome of the case's prediction |
| CaseDriver.AddCase | code/NIH_Pancreas/test_util.py:24-43 | one iteration extends the running total by the case's outcome |
| CaseDriver.SumCases | code/NIH_Pancreas/test_util.py:23-43 | the loop yields the total of all case outcomes, stopping at the first failure |
| CaseDriver.MeanMetric | code/NIH_Pancreas/test_util.py:21-50 | an empty case list fails with `NoCases`; the full failure condition is `MeanMetricFails` |
| CaseDriver.MeanMetricFails | code/NIH_Pancreas/test_util.py:21-50 | the run fails exactly when the case list is empty or some case's filtered, scored prediction fails |
| CaseDriver.TestAllCase | code/NIH_Pancreas/test_util.py:21-50 | the method returns exactly `MeanMetric`: the sum of the case metrics divided by the case count, or the error that stopped the run |
| CaseDriver.TotalStep | code/NIH_Pancreas/test_util.py:43 | the total after case `i` is the total before it plus that case's outcome, and a failure is kept |
| CaseDriver.FailurePersists | code/NIH_Pancreas/test_util.py:36 | once a case fails, both the total and the mean are that failure |
| CaseDriver.FilteredCaseIsMeasured | code/NIH_Pancreas/test_util.py:35-41 | with the filter on, a successful case is always scored by the metric routine on the kept mask |
| CaseDriver.EmptyPredictionFailsUnderFilter | code/NIH_Pancreas/test_util.py:35-38 | with the filter on, an empty prediction fails under a background-preserving labelling instead of scoring zero |

## Left out

- File I/O: HDF5 reading, NIfTI writing (`save_result`), `tqdm` progress and the path-derived case id. A case is an in-memory image, shape and ground truth.
- `preproc_fn`: an optional caller-supplied transform with no behaviour of its own. Cases hold the image as the network sees it.
- The network, its `.cuda()` transfer and the softmax are one opaque function `Net`. `Accumulation.Probabilities` states that every reported value lies in `[0, 1]`, and the lemmas that need it take it as a precondition; that the classes sum to 1 at every voxel is not modelled. The `TMI`/`DTC` flags choose only how the output tuple is unpacked, so they are not modelled.
- float32 arithmetic: scores and counts are exact reals and naturals. Counts stay exact in float32 up to 2^24 windows per voxel, far above any plan. Infinities and rounding of the network output are not modelled.
- Planner.CeilDiv: `math.ceil` of a float quotient is modelled as exact integer ceiling division. This is exact for integer operands far below 2^53.
- Runnable: `stride_xy > 0`, `stride_z > 0` and `num_classes >= 1` are preconditions. A zero stride raises `ZeroDivisionError` at lines 80-82, and zero classes raise, at lines 104-105 when the network reports more than one channel, otherwise at the arg-max at line 109. Negative strides are excluded by the `nat` type and not modelled. The source does not reject them: with `ww == p` the axis still gets its one window at 0. With `ww > p` the count `ceil((ww - p) / s) + 1` is 1 when `s < -(ww - p)`, giving one window at 0, and at most 0 otherwise. An axis with no window leaves every count at 0, so every score is NaN and every label 0.
- scikit-image's connected-component labelling is an input function (`Labeller`), not a 6/18/26-connectivity algorithm. `KeptMaskIsForeground` and `EmptyPredictionFailsUnderFilter` assume only that it leaves background at 0 and labels foreground.
- `calculate_metric_percase` (Dice, Jaccard, HD95, ASD) is an input function (`MetricFn`).
- Errors stop the run with a `Failure` value instead of raising. The assertion in `getLargestCC` becomes `NoComponent`, `max()` of an empty array becomes `EmptyVolume`, and the division by an empty case list becomes `NoCases`.
- The rest of the file is not part of this model: `cal_dice`, `calculate_metric_percase`, `calculate_metric_GBDL`, the dataset wrappers `test_calculate_metric`, `TMI_test_calculate_metric` and `test_DTC_calculate_metric`, and the `__main__` script.
