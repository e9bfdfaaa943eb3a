# COSTS sliding-window core, modelled in Dafny

This project models the integer and combinatorial skeleton of pydmd's COSTS
(COherent SpatioTemporal Scale separation) class:

- how `fit` plans the sliding windows, picks each window's rank, seeds the
  spectral solver and writes each window's fit into zero-padded result arrays;
- how `cluster_omega` renumbers the frequency bands in centroid order;
- how `scale_reconstruction` overlap-adds the band signals with edge-aware
  kernels and normalises by the total weight;
- the attribute sanitiser pair used for netCDF storage.

Some parts are parameters of the model rather than code in it:

- the spectral solver (`BOPDMD.fit`), as `Costs.Solver`;
- `compute_rank`, as `Costs.DataRanker` and `Costs.WindowRanker`;
- the clustering estimator, as `Bands.Clustering`, with its own contract in `Bands.Honours`;
- the Gaussian profile of `build_kern`, as the sequence `gauss`;
- the real part of every mode's time dynamics, as `Reconstruction.Signal`.

For each of these the model fixes what it is asked and what is done with its
answer.

Modules follow the source's concerns:

| module | covers |
|---|---|
| `Base` | options, results, the error kinds, `reshape` |
| `Windows` | `_build_windows`, the window planning in `fit`, `get_window_indices` |
| `Ranks` | the rank policy and the per-window rank |
| `Seeds` | `_build_initialization` and the seed carry rule |
| `Slots` | zero-initialised arrays and prefix writes |
| `Kernels` | `calculate_lv_kern`, `build_kern` and the edge directions |
| `Bands` | the argsort and lookup-table relabelling of `_cluster`, and the dispatch of `transform_omega` |
| `Reconstruction` | `scale_reconstruction`, `scale_separation`, `global_reconstruction` |
| `Sanitize` | `_xarray_sanitize` and `_xarray_unsanitize` |
| `Costs` | the object itself: constructor, `fit`, `cluster_omega`, reconstruction entry |

The window loop of `fit` has a reference semantics, `Costs.Run`. It fits the
windows in order, stops at the first error, and carries the seed with a
carrier function. A trace that follows this semantics is described by
`Costs.Follows`. `Costs.RunFollows` and `Costs.FollowsIsRun` prove that the two
agree. `Costs.FitWindows` is proved to return exactly the run's trace, with
every array row holding its window.

The overlap-add has a reference semantics as well:

- `Reconstruction.NormSum` is the weight step `t` receives;
- `Reconstruction.BandSum` is the weighted band signal at step `t`.

The loop of `Reconstruction.ScaleReconstruction` is proved to compute their
quotient.

Python's floor division by a positive divisor is Dafny's `/`. Python's
`int(a / b)` rounds toward zero, which `Seeds.TruncDiv` writes out. A Python
`slice` with negative or out-of-range bounds is resolved as Python does, in
`Windows.Resolve`.

Several quirks of the code are modelled as written:

- **Unreachable "both seeds" error.** The error for "both `init_alpha` and
  `cluster_centroids` given" cannot be reached (`Seeds.BothSeedsUnreachable`).
- **Constructor centroids are dropped.** The constructor's `cluster_centroids`
  is overwritten with None (`Costs.ConstructorCentroidsIgnored`).
- **A lone window is `backward`.** When there is only one window, it gets the
  "backward" kernel (`Kernels.EdgeKernel`).
- **Adaptive round-up can outgrow the arrays.** In adaptive mode without
  `max_rank`, the even round-up can ask for one slot more than the arrays
  reserve (`Ranks.AdaptiveRoundUpExceedsPreAllocation`). If the solver then
  returns that many modes, the write into the reserved slots fails with a
  shape error (`Costs.Accepts`). A solver that returns no more modes than the
  slots reserved, for instance because its own truncation stops at the data's
  dimensions, leaves the fit intact.
- **The default transform fails.** `cluster_omega`'s default
  `transform_method=None` is rejected by `transform_omega`
  (`Costs.DefaultTransformRejected`).
- **Inverted `fit_predict` test.** `_cluster` tests for `fit_predict` with an
  inverted condition. A clustering class without the method therefore fails
  on the attribute lookup rather than with the intended message. The model
  keeps the failure and names it `MissingFitPredict`.

Where behaviour is fixed only by Python semantics (slice bounds, None in
arithmetic), the model follows what the code does with them. numpy
broadcasting is not modelled; see "Left out".

## Model

| member | source | states |
|---|---|---|
| Windows.BuildWindows | pydmd/costs.py:318-344 | When the window fits in the spanned steps, the count is at least one. The last counted window ends inside the span, and one more would not fit. When it does not fit, the count is not positive. |
| Windows.SplitIsDivMod | pydmd/costs.py:342 | Counting step-sized strides by repeated subtraction gives the floor quotient and remainder that the slide count uses. |
| Windows.PlanWindows | pydmd/costs.py:545-576 | The plan fails exactly on a data/time mismatch, a zero window or step, or a window longer than the series, each with its own error. Otherwise the plan is valid: `nSlides` is the step-aligned count plus one flagged window exactly when the aligned windows leave a tail. |
| Windows.PlanExamples | pydmd/costs.py:566-576 | 200 steps, windows of 40 every 10: 17 unflagged slides. 95 steps, windows of 10 every 10: 10 slides, the last flagged and pinned to steps 85..95. |
| Windows.Resolve | pydmd/costs.py:716-719 | A Python slice resolves to a half-open range inside the sequence. A missing start is 0 and a missing stop is the length. A bound in range is kept, a negative one counts from the end, and one beyond either end is clamped. A stop before the start selects nothing. |
| Windows.Window | pydmd/costs.py:704-719 | Each window reads exactly `windowLength` steps inside the series. It starts at `stepSize * k`, except the flagged last window, which reads the final `windowLength` steps. The last window always ends the series. |
| Windows.WindowIsSlice | pydmd/costs.py:704-719 | The range of each window is exactly what Python selects with the slice `get_window_indices` returns: `[step·k, step·k + length)`, or `[-length:]` for the flagged last window. |
| Windows.EveryStepCovered | pydmd/costs.py:566-576 | When the step does not exceed the window length, every time step is read by some window. |
| Ranks.RankPolicy | pydmd/costs.py:578-607 | The global mode takes the data rank, computed twice, as both rank and width. An explicit positive rank is accepted exactly when it is even (if forced) and at most the spatial dimension, with `OddRank` checked first and `RankTooLarge` for a rank above the spatial dimension. The adaptive width is `max_rank` when given, else the spatial dimension. A None rank outside global mode is an error. |
| Ranks.RoundUp | pydmd/costs.py:669-670 | The forced-even rank is the computed rank, or one more exactly when evenness is forced and the computed rank is odd. It is even whenever evenness is forced. |
| Ranks.WindowRank | pydmd/costs.py:663-676 | Without a cap, the window rank is the even round-up. With `max_rank` at or above the round-up, it is the round-up. With `max_rank` below it, it is `max_rank`. So it never exceeds the cap, is even when evenness is forced and the cap is even, and is the computed rank when nothing forces or caps it. |
| Ranks.AdaptiveRankFitsMaxRank | pydmd/costs.py:604-675 | With `max_rank` given in adaptive mode, every window rank fits the pre-allocated width. |
| Ranks.AdaptiveRoundUpExceedsPreAllocation | pydmd/costs.py:606-670 | Without `max_rank`, an odd spatial dimension truncated at full rank is rounded up to one more slot than the pre-allocation. |
| Seeds.TruncDiv | pydmd/costs.py:494-497 | `int(a / b)`: the magnitude is the floor of the magnitudes' quotient, and the sign is the quotient's. |
| Seeds.CentroidSeed | pydmd/costs.py:487-499 | The centroid seed fails on a None or zero component count, on a negative repeat count `q = int(svd_rank / n_components)` (which `np.repeat` rejects), and exactly when the repeat and tile lengths cannot broadcast. Otherwise it has `2q` roots with alternating signs, each root one of the centroids. |
| Seeds.BuildInitialization | pydmd/costs.py:477-514 | Artificial initialisation off gives None. A user seed wins whenever present. Otherwise stored centroids give the centroid seed, or its error, and nothing gives None. |
| Seeds.BothSeedsUnreachable | pydmd/costs.py:483-510 | The "both seeds" error is never returned. |
| Seeds.NextSeed | pydmd/costs.py:690-702 | The carry rule: `use_last_freq` (which wins) passes on the fitted eigenvalues, `reset_alpha_init` alone clears the seed, and the default holds the initial seed. |
| Slots.Grid | pydmd/costs.py:609-621 | `np.zeros` gives the requested number of rows, every one all zero. |
| Slots.WritePrefix | pydmd/costs.py:682-686 | `row[:len(vals)] = vals` puts the values in the leading slots and leaves the rest unchanged. |
| Slots.SetRow | pydmd/costs.py:687-688 | Assigning a row replaces that row only. |
| Kernels.CalculateLvKern | pydmd/costs.py:347-401 | Only "kern" and "flat" are accepted, and anything else is rejected with its name. "kern" is the tanh rounding with the given sharpness, or 16 when none is given. "flat" is all ones. |
| Kernels.FlatTaperIsIdentity | pydmd/costs.py:392-394 | Multiplying a window by the "flat" taper leaves it unchanged. |
| Kernels.BuildKern | pydmd/costs.py:404-446 | "forward" forces `[L//2:]` to one, and "backward" forces `[:L//2]`. No direction keeps the profile. Any other direction is rejected. |
| Kernels.EdgeKernel | pydmd/costs.py:1061-1075 | The first window's kernel is one on its leading half. The last window's kernel (when it is not also the first) is one on its trailing half. Interior windows keep the Gaussian. A lone window keeps the Gaussian on its trailing half. |
| Kernels.EdgeKernelIsBuildKern | pydmd/costs.py:1061-1075 | The per-position kernel is what `build_kern` returns for the direction chosen for that window. |
| Kernels.EdgeKernelPositive | pydmd/costs.py:424-438 | Forcing halves to one keeps a positive profile positive. |
| Bands.Insert | pydmd/costs.py:822 | An insertion step adds exactly the one index (as a multiset), keeping indices in range. |
| Bands.InsertSorted | pydmd/costs.py:822 | Insertion keeps an index list sorted by centroid value. |
| Bands.ArgsortPrefix | pydmd/costs.py:822 | Sorting the first `m` indices yields each of them exactly once, in non-decreasing centroid order. |
| Bands.Argsort | pydmd/costs.py:822 | The result is a permutation of the indices that sorts the centroids, one of the orders `np.argsort` may return. |
| Bands.Scatter | pydmd/costs.py:823-824 | After the first `m` assignments of `lut[idx] = arange(n)`, `lut[idx[i]] == i` for those `i`. |
| Bands.Lookup | pydmd/costs.py:823-824 | The lookup table is a permutation and the two-sided inverse of the argsort. |
| Bands.Relabel | pydmd/costs.py:825 | `lut[classes]` keeps the shape and replaces every label by its table entry. |
| Bands.Canonicalise | pydmd/costs.py:821-828 | For any argsort: the new centroids are sorted, and the table is a bijection inverse to the argsort. Every raw band keeps its centroid under its new id. Every slot's new label points at its old centroid. The class array keeps its shape. |
| Bands.TransformOf | pydmd/costs.py:830-872 | Exactly the four named transforms are accepted, each name selecting its own transform, and None is rejected. |
| Base.Reshape | pydmd/costs.py:816-818 | `reshape(rows, width)`: row `k` holds the `k`-th run of `width` labels. |
| Bands.Cluster | pydmd/costs.py:761-828 | `_cluster` fails without `fit_predict`, on a rejected transform, or when the estimator refuses its input: fewer than one band, more bands than points, or an infinite point, which "period" makes of every zero imaginary part. Otherwise it succeeds. Its bands are the canonical renumbering of the reshaped labels: sorted centroids, a bijective table, and every slot's centroid preserved. Every clustering centre, used by a label or not, is stored under its new id, so the centroids are the centres in sorted order. |
| Costs.New | pydmd/costs.py:84-136 | Every modelled argument is stored except the centroids. The kernel method defaults to "kern", and no fit or clustering state exists yet. |
| Costs.ConstructorCentroidsIgnored | pydmd/costs.py:104-125 | A fresh object without `init_alpha` starts its first fit unseeded, whatever centroids it was given. |
| Costs.Prepare | pydmd/costs.py:544-640 | Before the loop, planning errors come first, then rank-policy errors, then a negative width, then seed and taper errors. On success the plan is valid, the width is the policy's, and the seed follows `_build_initialization`. |
| Costs.ShiftedTime | pydmd/costs.py:651-653 | Each window's time axis starts at zero. Shifting keeps every difference between two of the window's times. |
| Costs.RankFitsWidth | pydmd/costs.py:578-676 | In global mode every window's rank is the reserved width. In adaptive mode with `max_rank`, it fits the width. Without `max_rank`, it exceeds the width by at most the one slot of the even round-up, and only when evenness is forced. It is even when evenness is forced and any cap is even. |
| Costs.RunFollows | pydmd/costs.py:642-702 | A successful run of the loop is a trace of the right length that follows the policy and the carry rule. |
| Costs.FollowsIsRun | pydmd/costs.py:642-702 | Any full-length trace that follows the policy and the carry rule is the run. |
| Costs.SeedHeld | pydmd/costs.py:690-695 | In global mode, and under the default carry rule, every window gets the initial seed. |
| Costs.SeedPolicy | pydmd/costs.py:690-702 | Over a whole trace: global and default keep the initial seed, and `use_last_freq` seeds each window with the previous window's eigenvalues. `reset_alpha_init` alone leaves every window after the first unseeded. |
| Costs.ZeroArrays | pydmd/costs.py:609-621 | The result arrays have the plan's shapes and every row is zero. |
| Costs.PrefixIntoZeros | pydmd/costs.py:682-686 | Writing a fit's prefix into zeros leaves the fit followed by zero padding. |
| Costs.WriteRow | pydmd/costs.py:681-688 | Writing window `k` fills row `k` of every array: modes, eigenvalues and amplitudes padded with zeros, the time samples and the means. No other row changes. |
| Costs.Record | pydmd/costs.py:681-688 | After one more window, the arrays hold every window of the longer trace, and every later row is still zero. |
| Costs.FitWindows | pydmd/costs.py:642-702 | The loop succeeds exactly when the reference run does, and fails with its error otherwise. On success the trace is the run's, and each array row holds its window. |
| Costs.Fit | pydmd/costs.py:516-702 | `fit` fails with the preparation's or the loop's error. On success it stores the computed rank, the built seed and a recorded fit, and leaves the clustering state unchanged. |
| Costs.ClusterOmega | pydmd/costs.py:721-759 | Clustering fails without `fit_predict`, before a fit, on a rejected transform, or when the estimator refuses the transformed eigenvalues, and succeeds otherwise. On success it stores the band count, the transform, labels that keep each slot's centroid, and as centroids every clustering centre renumbered in sorted order. |
| Costs.ClusteredLayoutValid | pydmd/costs.py:721-759 | Bands clustered from the current fit always match it, so the reconstruction's shape error can only come from bands left over from an earlier fit. |
| Costs.ClusteringRefusals | pydmd/costs.py:761-828 | After an accepted transform, clustering a fit is refused with a band count below one, with more bands than eigenvalue slots, and under "period" whenever some slot has a zero imaginary part. |
| Costs.PeriodRejectsPadding | pydmd/costs.py:811-864 | A fit in which some window returned fewer eigenvalues than the reserved width keeps a zero in that row, so clustering it with "period" is always refused. |
| Costs.DefaultTransformRejected | pydmd/costs.py:721-759 | With the default `transform_method=None`, clustering a fitted object always fails. |
| Costs.ScaleReconstruction | pydmd/costs.py:1033-1117 | A missing fit or band count is a None error, a negative band count a dimension error, and missing bands a None error. Otherwise the call succeeds exactly when the bands match the fitted arrays, and then each entry is the band sum divided by the weight sum at its step. |
| Reconstruction.Divide | pydmd/costs.py:1115 | The quotient is finite exactly when the divisor is non-zero. A finite quotient times the divisor gives back the dividend. |
| Reconstruction.BandTotalIsSum | pydmd/costs.py:1018-1031 | A finite total over bands `from ..` is the sum of those bands' values. |
| Reconstruction.ArgMin | pydmd/costs.py:1105 | `np.argmin` is the first position of the smallest value. |
| Reconstruction.MeansGoToBandZero | pydmd/costs.py:1104-1106 | With centroids in ascending order, the window means go to band 0. |
| Reconstruction.AddAt | pydmd/costs.py:1109-1113 | `buf[lo:lo+len(w)] += w` adds `w` inside the range and nothing outside it. |
| Reconstruction.AddBlock | pydmd/costs.py:1094-1111 | Adding one window's block to a band adds, at each step, exactly what that window places there. |
| Reconstruction.AddWindow | pydmd/costs.py:1094-1111 | One window's pass adds its contribution to every present band, at every variable and step. |
| Reconstruction.AddWeights | pydmd/costs.py:1113 | One window's pass adds its kernel weight at the steps it read. |
| Reconstruction.SweepSums | pydmd/costs.py:1051-1113 | After `m` windows, the accumulators hold the first `m` windows' weighted band sums and weight sums. |
| Reconstruction.Normalise | pydmd/costs.py:1115 | `xr_sep / xn` divides every entry by its step's weight. |
| Reconstruction.WindowKernel | pydmd/costs.py:1061-1077 | The kernel and start the loop computes for window `k` are that window's edge kernel and the start of its range. |
| Reconstruction.ScaleReconstruction | pydmd/costs.py:1033-1117 | The result has shape bands × variables × steps. Each entry is the weighted sum of the window values reading that step, divided by their total weight. |
| Reconstruction.NormGrows | pydmd/costs.py:1113 | Partial weight sums are non-negative, and positive once a covering window is added. |
| Reconstruction.NormPositive | pydmd/costs.py:1113-1115 | With a positive profile and windows no further apart than their length, every step's weight is positive, so no nan or inf appears. |
| Reconstruction.ContributionOfConstant | pydmd/costs.py:1107-1111 | A window whose value at a step is `c` contributes `c` times its weight there. |
| Reconstruction.ConstantStep | pydmd/costs.py:1107-1113 | One more such window keeps the band sum at `c` times the collected weight. |
| Reconstruction.ConstantBandSum | pydmd/costs.py:1059-1113 | If every window reading a step has value `c` in a band, the band sum is `c` times the weight sum. |
| Reconstruction.ConstantBandReproduced | pydmd/costs.py:1059-1115 | The overlap-add is a weighted average: windows that agree on a value reproduce it exactly. |
| Reconstruction.AbsentBandIsZero | pydmd/costs.py:1094 | A band no slot is assigned to collects nothing. |
| Reconstruction.BandsPartitionSlots | pydmd/costs.py:1094-1102 | Summed over all bands, a window's band signals give back all of its fitted modes, each once. |
| Reconstruction.AddRatio | pydmd/costs.py:1030 | Addition is finite exactly when both sides are. |
| Reconstruction.BandTotalFinite | pydmd/costs.py:1030 | A sum over bands is finite exactly when every band is. |
| Reconstruction.GlobalReconstruction | pydmd/costs.py:1018-1031 | The global reconstruction has shape variables × steps. It is finite exactly where every band is, and there it is the sum of all bands. |
| Reconstruction.ScaleSeparation | pydmd/costs.py:1119-1146 | With no bands, separation fails. Otherwise the low band is band 0. The high band is finite exactly where bands 1 .. are, and there it is their sum. Low plus high is the global reconstruction, and with a single band the high band is zero. |
| Sanitize.Sanitize | pydmd/costs.py:1660-1676 | The result is always storable: None becomes "None", a set a list, and a function a description ending in its name. Storable values are unchanged. |
| Sanitize.Unsanitize | pydmd/costs.py:1679-1700 | Exactly None and the text "None" decode to None. Everything else is unchanged. |
| Sanitize.NoneRoundTrip | pydmd/costs.py:1659-1700 | None survives the round trip. |
| Sanitize.SetComesBackAsList | pydmd/costs.py:1659-1700 | A set comes back as the list of its members. |
| Sanitize.RoundTripExactly | pydmd/costs.py:1659-1700 | The round trip is the identity exactly on values that are not a set, a function or the text "None". |
| Sanitize.NoneTextCollapses | pydmd/costs.py:1659-1700 | None and the text "None" are stored alike, so the pair is not injective. |

## Left out

- The spectral solver (`BOPDMD`, its modes, eigenvalues and amplitudes) is a parameter. Its own reset of `init_alpha` between windows in global mode, and its `proj_basis` handling, are not modelled.
- `compute_rank` and `compute_svd` (pydmd/utils) are not part of this model. Ranks are given by parameter functions returning naturals. A float `svd_rank` (an energy fraction) is therefore not distinguished.
- The sklearn clustering (`MiniBatchKMeans.fit_predict`, `cluster_centers_`, random state, `kmeans_kwargs`) is a parameter with its contract in `Bands.Honours`. Its input checks are written out in `Bands.ClusteringAccepts`.
- Bands.Cluster: the estimator is taken to refuse exactly what the default `MiniBatchKMeans` refuses: fewer than one cluster, more clusters than points, and infinite points. A user-supplied `method` that refuses other inputs, or accepts these, is not modelled. NaN eigenvalues from the solver are not distinguished from finite ones, because the model's numbers are exact reals.
- Costs.ClusterOmega: inherits the estimator assumption of `Bands.Cluster`. The "square_frequencies" transform is taken to be finite, since its overflow to infinity for huge imaginary parts is floating point.
- `relative_filter_length` and `pydmd_kwargs` are not constructor arguments of `Costs.New`. The filter length only sets the spread of the Gaussian profile, which `gauss` carries as a parameter. Its documented requirement "greater than zero" rules out the division by zero in `build_kern`. The solver's keyword arguments belong to the solver, which is a parameter.
- `cluster_hyperparameter_sweep` (silhouette scores over many fits) is not modelled; it is a search loop around the clustering estimator.
- Floating-point numerics are not modelled: the tanh taper, the Gaussian profile values, the complex exponentials and `multi_dot` of the reconstruction, and the values of the omega transforms. The transform is only dispatched by name.
- `n_steps = int(window_length * (T / window_length))` in `_build_windows` is taken to be exactly `T`. The float quotient can round below `T`, and the model does not follow that rounding.
- Negative `window_length` or `step_size` are not modelled; both are natural numbers, and zero is the `ZeroDivision` error.
- `periods`, `relative_error`, the plotting methods, the `verbose` printing and the `to_xarray`/`from_xarray` dataset construction are left out (display and file I/O). Only the sanitiser pair is kept.
- numpy's size-1 broadcasting on the slot writes is not modelled. `Costs.Accepts` requires the solver's arrays to have the widths the slots are written with, and rejects the rest as a shape error.
- The state an object is left in after a failed `fit` (partly written arrays, a changed `svd_rank`) is not modelled; a failed fit returns only its error.
- Costs.ScaleReconstruction: bands that do not match the current fit (left over from clustering an earlier fit) are reported as one shape error, rather than as whichever numpy error or silent misreading the source would produce.
- Costs.Prepare: when the seed construction or the taper method fails, the contract states only that preparation fails, not with which error.
- The taper from `calculate_lv_kern` is carried in the solver's request (`Costs.Request.taper`) instead of being multiplied into the window data; the product is floating point.
- The time array is taken to be the single-row `(1, T)` array that the fitting loop indexes with `time[:, slice]` and `[:, 0]` (pydmd/costs.py:649-652). A one-dimensional time array passes the length check at pydmd/costs.py:549 but then fails in the loop with an index error; the model does not distinguish that case.
