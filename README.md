# Organic visual metaphor: polygon generation and beta thresholds

This project models the geometry core of the organic-visual-metaphor tool. The tool draws a co-occurrence dataset as a "flower": a central disk surrounded by fluttering branches, one per "branch" entry. Each branch has one sample value per co-occurrence.

`polygon_gen.py` turns each branch entry into a triangle ribbon:
1. It picks a start point on the central circle and an end point `gamma * max(values)` further out.
2. It subdivides the segment recursively. Each midpoint is displaced perpendicular to the segment by `beta * std(values)`, with the sign alternating per level. Each midpoint also gets a narrower width.
3. It resamples the curve at `branch_div + 1` evenly spaced radial distances.
4. It turns the resampled points into two triangles per segment, each reversed unless it is counter-clockwise, so that none is clockwise.

Non-branch entries become the central node's triangle fan. The assembly loop of `output_polygon_json`:
- places the branches around the circle, `unit_angle` per sample value;
- concatenates all triangles as a flat list of 9 floats per triangle;
- labels every triangle with its entry's index, and the optional inner disk with `-1`.

`beta_overlap_thres.py` estimates, for every entry, the flutter factor `beta` above which its branch is expected to overlap its neighbours. It also returns the smallest of these.

Modelling choices:
- Floats are modelled as `real`.
- `math.sqrt`, `math.cos`, `math.sin`, `numpy.std` and the two scipy interpolant builders are uninterpreted functions, passed in an `Env` record. The only fact assumed about `numpy.std` is that it is never negative.
- The NaN value marker of resampled points is `None`, and so is an infinite threshold.
- The exceptions the Python code can raise inside the core are the `Failure` cases of a `Result`:
  - `ZeroDivisionError` is `DivisionByZero`;
  - `ValueError` from `min`/`max` of an empty list is `EmptySequence`;
  - `RecursionError` from a negative recursion count, which never reaches 0, is `RecursionLimit`; the call-stack bound behind a `RecursionError` for a large positive count is not modelled (see "Left out");
  - `ValueError` from scipy's interpolant constructors is `InterpolationError`.
- The dataset is a sequence of `Entry` values instead of a JSON file.

Where the loops of the source build lists, the model has a method with a loop. Each such method is proved equal to a specification function, and the properties are proved about that function.

Modules, in dependency order:
- `Wrappers` and `Numerics`: shared types and the abstract library calls.
- `Extrema`: `min` and `max`.
- `Geometry`: points, normals, orientation and flat triangle lists.
- `Separation`: `separate_values`.
- `Dataset`: entries, `total_n` and the central radius.
- `BranchCurve`: `gen_branch_points`.
- `Resample`: `gen_interp_branch_points`.
- `Ribbon`: `gen_branch_meshes`.
- `CentralNode`: `gen_central_node_meshes`.
- `Assembly`: the loop of `output_polygon_json`.
- `BetaThreshold`: `calc_beta_thresholds`.

The recursion returns exactly `2^rep` interior points, not `2^(rep+1) - 1`: a recursive call returns only the points of its two halves, so the midpoint it builds is an end point of both halves and never an element of the result (polygon_gen.py:109-115). `BranchCurve.GenBranchPoints` states this count.

The program does not check the branch points itself before resampling, but scipy does. The cubic `interp1d` (polygon_gen.py:128-129) needs at least four points and no repeated distance. `PchipInterpolator` (polygon_gen.py:130) needs strictly increasing distances from the centre. Both raise `ValueError` otherwise, and the model fails with `InterpolationError` in exactly those cases (`Resample.Interpolable`). A branch has `2^rep + 2` raw points, so with `rep = 0` every run that has a sample value fails (`Assembly.RepZeroFails`).

## Model

| member | source | states |
|---|---|---|
| Separation.Partition | polygon_gen.py:63-71 | the definition of `separate_values`: the values below the threshold in order, then those at or above it in order; the two lists together are as long as the input |
| Separation.SeparateValues | polygon_gen.py:63-71 | the loop returns the pair `Partition(values, thres)`; every value of the first list is below the threshold and every value of the second is at or above it; the two lists interleave the input, each keeping its order |
| Separation.PartitionSplits | polygon_gen.py:63-71 | the first part holds only values below the threshold and the second only values at or above it, and the input is a merge of the two |
| Separation.MergeCounts | polygon_gen.py:63-71 | a merge loses and invents nothing: the sizes add up to the input's size and the multisets add up to the input's multiset |
| Separation.CountBelowOfLower | polygon_gen.py:105-115 | counting below a smaller threshold in the lower part of a split gives the same count as in the whole sample (what the left recursive call sees) |
| Separation.CountBelowOfUpper | polygon_gen.py:105-115 | the count below a larger threshold is the count below the split value plus the count in the upper part (what the right recursive call sees) |
| Separation.CountBelowMissesMember | beta_overlap_thres.py:52-54 | a sample value at or above the threshold is never counted below it, so the count is smaller than the sample size |
| Geometry.UnitNormVec | polygon_gen.py:74-80 | the definition of `unit_norm_vec`: `(-dy, dx)` over `sqrt(dx * dx + dy * dy)`, or over `1e-10` when that root is 0 |
| Geometry.NormDenominator | polygon_gen.py:77-79 | the divisor is never 0, and it is the segment length whenever that length is non-zero |
| Geometry.UnitNormVecPerpendicular | polygon_gen.py:74-80 | the normal is perpendicular to the segment and is `(-dy, dx)` divided by the divisor; a zero-length segment gives the zero vector instead of an error |
| Geometry.UnitNormVecIsUnit | polygon_gen.py:74-80 | when `sqrt` is a true square root, the normal of a non-degenerate segment has length 1 |
| Geometry.IsCounterClockOrder | polygon_gen.py:149-154 | the definition of `is_counter_clock_order`: twice the signed area of the triangle is positive |
| Geometry.ReversedOrientation | polygon_gen.py:149-154 | reversing the three vertices negates the signed area `is_counter_clock_order` tests |
| Geometry.OrientedTriangle | polygon_gen.py:189-209 | the emitted triangle is the triple or its reverse; it is the triple exactly when the triple is counter-clockwise; its signed area is never negative |
| Geometry.Flatten | polygon_gen.py:190-198 | the flat list has three floats per vertex: x, y and z of each vertex in order |
| Geometry.ConcatMesh | polygon_gen.py:190-209 | appending triangle lists keeps every z at 0 and every triangle's signed area non-negative |
| Geometry.OrientedTriangleMesh | polygon_gen.py:172-209 | one emitted triangle of planar corners is 9 floats, planar and not clockwise |
| Extrema.SeqMin | polygon_gen.py:132 | `min` of a non-empty list is one of its elements and at most each of them |
| Extrema.SeqMax | polygon_gen.py:133 | `max` of a non-empty list is one of its elements and at least each of them |
| Dataset.BranchTotal | polygon_gen.py:251-254 | the definition of `total_n`: the sum of the sample counts of the branch entries |
| Dataset.CountBranchSamples | polygon_gen.py:251-254 | the loop sums the sample counts of the branch entries, `BranchTotal` |
| Dataset.BranchTotalCounts | polygon_gen.py:251-254 | every branch entry's sample count is at most `total_n`, and `total_n` is 0 exactly when every branch entry has empty values |
| Dataset.BranchTotalAppend | polygon_gen.py:251-254 | `total_n` of a concatenation is the sum of the two totals |
| Dataset.CentralRadius | polygon_gen.py:256 | the definition of `r`: `alpha * total_n / (2 * pi)` |
| Dataset.CentralRadiusSign | polygon_gen.py:256 | `r` is positive exactly when `alpha` is positive and some sample value exists; the circle's circumference is `alpha * total_n` |
| BranchCurve.SampleStd | polygon_gen.py:92-94 | `sd` is never negative, and it is 0 for an empty sample |
| BranchCurve.DisplacementPerpendicular | polygon_gen.py:92-103 | the flutter vector `u` is perpendicular to the segment, and it is zero when `sd` is 0, in particular for an empty sample |
| BranchCurve.FlutterAlternates | polygon_gen.py:96-99 | one recursion level deeper, the same segment and sample are displaced the opposite way |
| BranchCurve.MidPoint | polygon_gen.py:91-109 | the definition of the midpoint one recursion level builds: position displaced by the flutter, mean value, and start width less `alpha` per sample value below that mean |
| BranchCurve.MidPointShape | polygon_gen.py:101-109 | the midpoint lies on the perpendicular through the segment's midpoint, and is the plain midpoint for an empty sample; its value is the mean of the end values; its width is the start width less `alpha` per sample value below that mean, unclamped; a NaN end value gives a NaN value and the start width |
| BranchCurve.GenBranchPoints | polygon_gen.py:83-115 | the recursion with count `rep` returns exactly `2^rep` points |
| BranchCurve.PointValues | polygon_gen.py:104-115 | the reference sequence of point values, of length `2^rep` |
| BranchCurve.CurveValues | polygon_gen.py:104-115 | the value of the `k`-th curve point is the `k`-th reference value of the end values, whatever the sample and the displacement |
| BranchCurve.PointValuesInside | polygon_gen.py:104-115 | each reference value lies between the end values, strictly when they differ, for a start value at most the end value (in the program, `0 <= max(values)`) |
| BranchCurve.PointValuesIncrease | polygon_gen.py:104-115 | the reference values strictly increase for increasing end values |
| BranchCurve.ValuesIncrease | polygon_gen.py:104-115 | along the curve the point values strictly increase, and all lie strictly between the start and end values, for a start value below the end value (in the program, `0 < max(values)`) |
| BranchCurve.WidthAt | polygon_gen.py:105-115 | the width of every curve point is the start width less `alpha` per sample value below that point's value, for a start value at most the end value (in the program, `0 <= max(values)`) |
| BranchCurve.WidthCountsValuesAbove | polygon_gen.py:105-115 | when the start width is `alpha` per sample value, each point's width is `alpha` times the number of sample values at or above its value, for a start value at most the end value (in the program, `0 <= max(values)`) |
| BranchCurve.ScaledIsProduct | polygon_gen.py:107 | the repeated addition `Scaled(alpha, n)` equals `alpha * float(n)` |
| BranchCurve.ScaledSum | polygon_gen.py:107 | `Scaled` is additive in the count |
| Resample.CollectColumns | polygon_gen.py:122-126 | the first loop collects each point's x, y, distance from the centre and width, in point order |
| Resample.SampleDistances | polygon_gen.py:135-139 | there are `div + 1` sample distances, none for a negative `div` |
| Resample.SampleLoop | polygon_gen.py:134-139 | the distance loop fails with a division by zero for `div == 0` and otherwise returns the clamped even steps |
| Resample.SampleDistanceEnds | polygon_gen.py:135-139 | for a positive `div`, the first distance is `dist_min` and the last is `dist_max` |
| Resample.SampleDistanceBounds | polygon_gen.py:135-139 | no sample distance exceeds `dist_max`, and none from step 0 on is below `dist_min` |
| Resample.SampleDistanceMonotone | polygon_gen.py:135-139 | the sample distances never decrease |
| Resample.Evaluated | polygon_gen.py:140-146 | one point per sample distance, each with the NaN value marker |
| Resample.EvaluateAt | polygon_gen.py:140-146 | the evaluation loop builds exactly `Evaluated` |
| Resample.Resampled | polygon_gen.py:118-146 | the resampled branch has `div + 1` points (none for a negative `div`), all with the NaN value marker |
| Resample.Interpolable | polygon_gen.py:128-130 | the definition of when scipy builds both interpolants: at least four points and strictly increasing distances from the centre |
| Resample.GenInterpBranchPoints | polygon_gen.py:118-146 | the interpolant constructors fail first, for fewer than four points (an empty list included) or distances from the centre that do not strictly increase; then `div == 0` fails with a division by zero; otherwise the result is `Resampled` |
| Resample.IncreasingEnds | polygon_gen.py:130-133 | over strictly increasing distances, `dist_min` is the first point's distance and `dist_max` the last one's |
| Ribbon.CornersStraddle | polygon_gen.py:172-187 | the two corners at a point have that point as their midpoint and lie its width apart along the normal |
| Ribbon.QuadMesh | polygon_gen.py:172-209 | one segment gives two triangles (18 floats), planar and with non-negative signed area |
| Ribbon.RibbonPrefix | polygon_gen.py:163-209 | the first `n` segments give `18 * n` floats, planar and not clockwise |
| Ribbon.BranchMesh | polygon_gen.py:157-211 | the ribbon of `n >= 2` points has `18 * (n - 1)` floats, and fewer points give none; every z is 0 and every triangle's signed area is non-negative |
| Ribbon.GenBranchMeshes | polygon_gen.py:157-211 | the loop, with its running `un_s`/`un_e`, builds exactly `BranchMesh` |
| Ribbon.AppendQuad | polygon_gen.py:172-209 | one iteration appends exactly the two oriented triangles of the segment |
| Ribbon.AppendTriangle | polygon_gen.py:189-198 | the append is the triangle in the given order when it is counter-clockwise, and reversed otherwise |
| CentralNode.FanTriangle | polygon_gen.py:220-223 | one fan step is one triangle of 9 floats |
| CentralNode.FanPrefix | polygon_gen.py:219-224 | `n` fan steps give `9 * n` floats |
| CentralNode.FanPrefixPlanar | polygon_gen.py:222-223 | every z of the fan is 0 |
| CentralNode.CentralFan | polygon_gen.py:214-225 | the fan has `9 * (div + 1)` floats, none for a negative `div` |
| CentralNode.FanPrefixTriangle | polygon_gen.py:219-224 | the `t`-th triangle of the fan is the triangle of step `t` |
| CentralNode.FanTriangleVertices | polygon_gen.py:219-224 | triangle `t`'s vertices are the origin, the previous rim point (the origin at step 0) and the rim point of step `t` |
| CentralNode.FanShape | polygon_gen.py:214-225 | every triangle starts at the origin; each triangle's second vertex is the previous one's third; the first triangle is degenerate with zero area; the fan is planar |
| CentralNode.GenCentralNodeMeshes | polygon_gen.py:214-225 | the loop, carrying `prevPos`, fails for `div == 0` and otherwise builds exactly `CentralFan` |
| Assembly.Repeat | polygon_gen.py:288 | `[x] * k` has `k` elements, all `x` |
| Assembly.RawBranchPoints | polygon_gen.py:278-280 | a branch has `2^rep + 2` raw points: the start point, the curve points and the end point |
| Assembly.BranchTriangles | polygon_gen.py:264-287 | a branch fails exactly for empty values (in `max`), a negative recursion count, raw points scipy refuses to interpolate, or `branch_div == 0`, in that order and with those errors; otherwise it gives `2 * branch_div` planar triangles (none for a negative `branch_div`), none of them clockwise (non-negative signed area) |
| Assembly.RepZeroBranchFails | polygon_gen.py:278-284 | with `rep == 0` every branch with values fails in the cubic interpolant, its three raw points being too few |
| Assembly.PlaceBranch | polygon_gen.py:266-285 | the branch part of the loop body computes exactly `BranchTriangles` |
| Assembly.InnerFan | polygon_gen.py:302-307 | the inner circle fails exactly when it is drawn with `central_node_div == 0`; otherwise it is one planar fan of `div + 1` steps when the ratio is positive, and nothing otherwise |
| Assembly.InnerCircle | polygon_gen.py:302-305 | the inner-circle step computes exactly `InnerFan` |
| Assembly.EntryFails | polygon_gen.py:262-296 | the definition of when one entry's iteration raises: a branch that `BranchTriangles` refuses, or a non-branch entry with `central_node_div == 0` |
| Assembly.EntryError | polygon_gen.py:262-296 | the definition of the exception a failing entry raises first: `EmptySequence`, `RecursionLimit` or `InterpolationError` for a branch in that order, otherwise `DivisionByZero` |
| Assembly.Step | polygon_gen.py:261-296 | the definition of one iteration of the entry loop: a branch adds its triangles and labels, a non-branch entry replaces the central node's fan |
| Assembly.LayoutPrefix | polygon_gen.py:259-296 | the definition of the entry loop over the first `n` entries, stopping at the first failure |
| Assembly.StepFails | polygon_gen.py:261-296 | one iteration fails exactly when its entry fails, with that entry's first exception |
| Assembly.LayoutFails | polygon_gen.py:259-296 | the loop fails exactly when some entry fails, and then with the exception of the first failing entry |
| Assembly.LayoutFailureStays | polygon_gen.py:259-296 | once an entry fails, the loop's result is that failure |
| Assembly.StepValid | polygon_gen.py:261-296 | one iteration keeps the loop invariant `AccValid`: one label per triangle, labels in dataset order, the last non-branch entry as the central node, a name for every index seen, planar triangles, and branch triangles that are not clockwise (non-negative signed area) |
| Assembly.BranchStepValid | polygon_gen.py:264-288 | a branch iteration keeps `AccValid` |
| Assembly.AddBranchValid | polygon_gen.py:286-288 | appending a branch's triangles and `num_meshes_each_branch` copies of its index keeps `AccValid` |
| Assembly.CentralStepValid | polygon_gen.py:289-296 | a non-branch iteration keeps `AccValid` |
| Assembly.SetCentralValid | polygon_gen.py:292-296 | replacing the central node's fan and labels by a later non-branch entry's keeps `AccValid` |
| Assembly.KindsStep | polygon_gen.py:264 | after one more entry, a branch (or a non-branch) entry has been seen exactly when it was seen before or the new entry is one |
| Assembly.LayoutValid | polygon_gen.py:259-296 | after every prefix of the dataset that succeeds, the accumulated state satisfies `AccValid` |
| Assembly.AngleAdvance | polygon_gen.py:266-268 | `angle += (prev_n + n) * 0.5 * unit_angle` moves from the middle of the previous branch's arc to the middle of this branch's arc |
| Assembly.BranchTotalNext | polygon_gen.py:252-254 | the running total grows by the entry's sample count when the entry is a branch |
| Assembly.LayoutStep | polygon_gen.py:261-296 | one loop iteration computes exactly `Step`, and keeps `prev_n` as the last branch's size and `angle` at the middle of the last branch's arc |
| Assembly.BranchEntry | polygon_gen.py:262-288 | a branch iteration records the name, appends the triangles and their labels, and updates `num_meshes_each_branch`, or fails as `BranchTriangles` does |
| Assembly.CentralEntry | polygon_gen.py:289-296 | a non-branch iteration records the name and replaces the central node's category, fan and labels, or fails for `central_node_div == 0` |
| Assembly.LayoutLoop | polygon_gen.py:259-296 | the loop over all entries computes exactly `LayoutPrefix` |
| Assembly.PolygonData | polygon_gen.py:228-307 | the definition of `output_polygon_json` without its file I/O: `total_n`, `r` and `unit_angle`, the entry loop, then the inner circle |
| Assembly.PolygonDataIs | polygon_gen.py:256-257 | with `r` and `unit_angle` as computed, the output is the assembly over those two values |
| Assembly.OutputPolygon | polygon_gen.py:228-307 | the whole function, file I/O removed, computes exactly `PolygonData` |
| Assembly.PolygonFails | polygon_gen.py:251-307 | the function fails exactly when `total_n` is 0 (in `unit_angle`, before anything else), when some entry fails (a branch in `max`, the recursion, scipy's interpolants or the resampling division; a central node in its fan), or when the inner circle is drawn with `central_node_div == 0` |
| Assembly.RepZeroFails | polygon_gen.py:251-307 | with `rep == 0` the function fails for every dataset |
| Assembly.BranchesExist | polygon_gen.py:251-254 | a non-zero `total_n` means some branch entry exists |
| Assembly.PolygonShape | polygon_gen.py:241-307 | a successful output has 9 floats per label, all planar, and no triangle of the branch part is clockwise (non-negative signed area; a degenerate triangle, as with `alpha = 0`, has area zero). Its labels are each branch's index repeated `numMeshesForEachBranch = 2 * branch_div` times in dataset order, then the central node's index per fan step, then `-1` per inner-circle step. The central node is the last non-branch entry, and the names map holds every entry's index |
| Assembly.AssembleShape | polygon_gen.py:259-307 | the same shape for the assembly over any `r` and `unit_angle` |
| Assembly.FinishShape | polygon_gen.py:298-307 | appending the central fan and the inner circle with `-1` labels to a state keeping `AccValid` gives that shape |
| Assembly.PolygonLabels | polygon_gen.py:286-307 | every label of a successful output is `-1` (only when the inner circle is drawn), a branch entry's index, or the central node's index, which is a non-branch entry |
| Assembly.ShapedLabels | polygon_gen.py:286-307 | every label of an output of that shape means a branch, the central node or the inner circle |
| Assembly.BranchLabelsRange | polygon_gen.py:288 | every branch label is the index of a branch entry |
| Assembly.LastCentralIsCentral | polygon_gen.py:292 | when some entry is not a branch, the central node category is such an entry and every later entry is a branch |
| BetaThreshold.ThresholdFormula | beta_overlap_thres.py:50-55 | the definition of the threshold formula of one entry, from `wm`, `w_beta` and the standard deviation |
| BetaThreshold.EntryThreshold | beta_overlap_thres.py:42-55 | an entry's threshold is finite exactly when `sd > 0` and `r > 0`, so empty values always give infinity |
| BetaThreshold.Thresholds | beta_overlap_thres.py:41-57 | one threshold per dataset entry, non-branch entries included |
| BetaThreshold.MinThreshold | beta_overlap_thres.py:59 | the minimum is one of the thresholds and at most each of them, infinity being the largest |
| BetaThreshold.CalcBetaThresholds | beta_overlap_thres.py:29-59 | the function fails for an empty dataset (in `min`) and otherwise returns the minimum and the thresholds in dataset order, with `r` from the branch entries' `total_n` |
| BetaThreshold.ThresholdPositive | beta_overlap_thres.py:48-55 | for positive `alpha`, non-negative `gamma` and non-negative values, a finite threshold is positive |
| BetaThreshold.MaxNonNegative | beta_overlap_thres.py:49 | the maximum of non-negative values is non-negative |
| BetaThreshold.FormulaPositive | beta_overlap_thres.py:55 | the threshold formula is positive when fewer values lie below half the maximum than there are values |
| BetaThreshold.FirstMidWidth | beta_overlap_thres.py:52-54 | the `wm` of the formula is what the branch's first subdivision subtracts: the first midpoint of a branch from 0 to the maximum is `alpha` narrower per value below half the maximum |
| BetaThreshold.ThresholdUsesMidWidth | beta_overlap_thres.py:50-55 | the threshold is `0.5 * (mw + 0.5 * ws * l / r) / sd`, with `ws = alpha * n` and `mw = ws - wm` the first midpoint's width |

## Left out
- JSON reading and writing, argument parsing and the top-level runs of both scripts: I/O. The dataset is a parameter and the parsed arguments are a `Config` record. Importing `polygon_gen` from the threshold script runs polygon_gen.py's own command line; that side effect is also left out.
- The `.5g` rounding of the output floats (polygon_gen.py:311-312): float string formatting.
- The renderer under `rendering_example/`: UI code.
- Floating point: reals stand for floats. There is no rounding, overflow or NaN arithmetic beyond the NaN value marker.
- `math.pi` is the real constant `3.141592653589793`. `math.sqrt`, `math.cos`, `math.sin`, `numpy.std` and the scipy interpolants are uninterpreted functions. Only `std >= 0` is assumed.
- The output's `categoryToName` keys are entry indices as numbers, not the strings `str(idx)`.
- Resample.SampleDistanceBounds: over reals, the clamp at polygon_gen.py:137-138 never changes a step between 0 and `div`. The float overshoot it guards against is not modelled.
- Assembly.PolygonShape: states that triangles are not clockwise (non-negative signed area) only for the branch part of the output, not for the central node's fan or the inner circle, because the fan's orientation depends on the abstract `cos` and `sin`.
- `alpha * float(len(sub_val1))` is written as repeated addition (`BranchCurve.Scaled`). `BranchCurve.ScaledIsProduct` proves it equal to the product.
- In the model, the loop body of `output_polygon_json` is split into helper methods (`LayoutStep`, `BranchEntry`, `CentralEntry`, `InnerCircle`). The order of the updates is the source's.
- Assembly.BranchTriangles, Assembly.PolygonFails, BranchCurve.GenBranchPoints: the model has no call-stack bound. `gen_branch_points` recurses `rep + 1` frames deep and neither script raises Python's default recursion limit of 1000 frames, so a `rep` large enough to exhaust it raises `RecursionError` in the program, while the model succeeds.
