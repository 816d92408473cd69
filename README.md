# Unsupervised concept-drift detectors and drift metrics, in Dafny

This project models the core of a Python library of unsupervised concept-drift
detectors and the metrics used to rate them, and proves properties of that model.

**Drift-quality metrics.** `calculate_drift_metrics` scans the sorted, de-duplicated
union of the known drift positions and the detection positions once. An "armed" flag
is set by a known drift and cleared by every detection. An armed detection is a true
detection, with its delay measured from the latest known drift; an unarmed one is a false
detection. The scan gives MTFA (mean time between false alarms), MTD (mean time to
detection), MDR (missed detection rate) and MTR (mean time ratio). `DriftMetrics` models
the scan as a class-free loop method proved against a step function, with NaN as `None`.
`LiftPerDrift` models the lift-per-drift score over exact reals: the zero-drift guard, the
`cost_ratio = 1` branch and the geometric-discount branch. `ExperimentMetrics` models the
experiment record, its dictionary form and the routing from accuracies to both metrics.

**Configuration sweep.** `Parameters` models the five value generators of a tuning
parameter and the dispatch that picks one. `ConfigGenerator` models the sorted parameter
names, the Cartesian product in lexicographic order with the last name varying fastest,
and the attachment of seeds.

**Detectors.** Each streaming detector is a small state machine over bounded FIFO
buffers. Each one is modelled twice, and the two are tied together:
- a pure state datatype with a `Step` function returning the new state and the decision
  (or the error the source raises);
- a `class` whose fields the `Update` method reassigns, with the postcondition
  `Outcome(State(), drift) == Step(old(State()), x)`.

The properties are then proved as lemmas about `Step`: which buffer receives each sample,
what is evicted or moved, when the detector is warming up and answers false, what a
reset does, and the decision rule on the test statistic. The statistical routines
(KS test, quantiles of the normal, chi-squared and beta distributions, Anderson–Darling,
k-means, PCA, nearest neighbours, logistic regression, one-class SVM, standard
deviation, square root) are oracle parameters: the model says how their answers are
used, not what they compute. `Window` models `deque(maxlen=…)`; `Detector` holds the
shared outcome and error types.

The detectors modelled are KS (`KolmogorovSmirnov`), SPLL, BNDM, NNDVI, D3, OCDD,
UDetect, IBDD, CSDDM, UCDD and EDFS. The model keeps these literal behaviours of the code:
- UDetect's window summary is `sum ** 1/2`, which Python parses as `(sum ** 1) / 2`, so
  the summary is half the sum of squared deviations, not its square root. Its drift rule is
  `lower OR (upper_ind AND upper_range)`, because `and` binds tighter than `or`.
- OCDD's reset pops `int(n·(1−threshold))` samples from the right end of its buffer,
  that is the newest ones, although its docstring says the oldest. The reset does not
  clear the outlier window.
- EDFS lets a subspace vote drift when its drifting detectors outnumber
  `len(features)·feature_percentage/2`, using the total feature count rather than the
  subspace size. It stops at the first drifting subspace.
- D3 does not store the sample that arrives on an evaluation call. A discriminator
  that fails leaves the buffer unchanged.
- CSDDM's reset does not clear `recent_transformed_data`. `Csddm.FullWindowProjected`
  proves that this is harmless: by the next test, every entry is a projection made after
  the reset.

The MDR formula divides by the number of known drifts, so with none the code raises
`ZeroDivisionError` rather than returning NaN; `DriftMetrics` models that error path.

## Model

| member | source | states |
|---|---|---|
| DriftMetrics.Timeline | metrics/drift.py:24 | `sorted(set(known + detections))`: strictly ascending and holding exactly the elements of the union |
| DriftMetrics.TimelineUnique | metrics/drift.py:24 | only one strictly ascending sequence has a given element set, so the timeline is the sorted de-duplicated union |
| DriftMetrics.Step | metrics/drift.py:27-37 | one loop iteration: a detection always disarms; a timestep in both lists is a true detection with delay 0; a detection while unarmed is a false detection at its own timestep; a detection while armed records its delay from the latest known drift; other timesteps leave both lists alone |
| DriftMetrics.Visit | metrics/drift.py:26-37 | the loop body on the four local variables equals one `Step` of the scan |
| DriftMetrics.CalculateDriftMetrics | metrics/drift.py:5-48 | the loop over the timeline followed by the four formulas returns exactly `Metrics(known, detections)`, including the ZeroDivisionError for no known drifts |
| DriftMetrics.Mtr | metrics/drift.py:46 | `mtfa / mtd * (1 - mdr)` with numpy semantics: NaN when either operand is NaN, finite iff MTD is nonzero, +inf for a positive MTFA over a zero MTD with MDR below 1 |
| DriftMetrics.ScanSnoc | metrics/drift.py:26 | visiting one more timestep is one more loop iteration |
| DriftMetrics.ScanInvariant | metrics/drift.py:24-37 | after any prefix of an ascending timeline: delays are non-negative; false detections are ascending detections of the timeline; every visited detection is counted once as true or false; true detections plus a pending armed drift never outnumber the visited known drifts |
| DriftMetrics.StepInv | metrics/drift.py:27-37 | one iteration at a timestep beyond every visited one preserves that invariant |
| DriftMetrics.StepDelays | metrics/drift.py:32-33 | a true detection's delay is measured from a known drift at or before it, so it is non-negative |
| DriftMetrics.StepFalseDetections | metrics/drift.py:34-36 | a false detection is appended at its own timestep, which exceeds every earlier one |
| DriftMetrics.StepArmed | metrics/drift.py:27-37 | each detection is counted once, and each true detection consumes the known drift that armed the scan |
| DriftMetrics.CountInBound | metrics/drift.py:24 | among distinct timesteps, at most as many lie in a list as it has distinct elements |
| DriftMetrics.CountInCovers | metrics/drift.py:24 | a timeline containing every detection visits each distinct detection exactly once |
| DriftMetrics.MdrBounds | metrics/drift.py:31-45 | each known drift yields at most one true detection, so #true <= #known and 0 <= MDR <= 1 |
| DriftMetrics.DelaysNonNegative | metrics/drift.py:27-33 | every true-detection delay is >= 0 |
| DriftMetrics.DetectionsPartitioned | metrics/drift.py:31-37 | #true + #false equals the number of distinct detections |
| DriftMetrics.GapsTelescope | metrics/drift.py:39-43 | the consecutive gaps of the false detections sum to last - first |
| DriftMetrics.MtfaClosedForm | metrics/drift.py:39-43 | MTFA is NaN iff there are fewer than two false detections, and otherwise equals (last - first)/(count - 1) |
| DriftMetrics.MtfaPositive | metrics/drift.py:24-43 | a defined MTFA is strictly positive, because false detections are ascending |
| DriftMetrics.ScoresNaN | metrics/drift.py:39-46 | MTD is NaN iff there is no true detection iff MDR = 1; MTFA is NaN iff fewer than two false detections; a NaN MTFA or MTD makes MTR NaN |
| DriftMetrics.NoDetections | test/metrics/test_drift.py:74-84 | with no detections MDR is 1 and MTFA, MTD and MTR are NaN |
| DriftMetrics.NoKnownDriftsRaises | metrics/drift.py:45 | an empty list of known drifts raises ZeroDivisionError, whatever the detections |
| DriftMetrics.InstantDetection | test/metrics/test_drift.py:62-72 | a detection at a known drift's own timestep gives MTD 0 and MDR 0, with MTFA and MTR NaN |
| DriftMetrics.MixedTimeline | test/metrics/test_drift.py:86-92 | the merged timeline of the mixed example holds its fifteen distinct timesteps in order |
| DriftMetrics.MixedScan15 | test/metrics/test_drift.py:86-92 | the scan of the mixed example ends with delays [3, 1, 2, 4, 2] and false detections [6, 10, 18] |
| DriftMetrics.MixedExample | test/metrics/test_drift.py:86-96 | the mixed example yields MTFA 6, MTD 2.4, MDR 2/7 and MTR 2.5 * 5/7 |
| LiftPerDrift.Lpd | metrics/lift_per_drift.py:14-15 | zero drifts give 0 whatever the accuracies; the guard precedes every division |
| LiftPerDrift.GeometricClosedForm | metrics/lift_per_drift.py:18-21 | (1 - c)(1 + c + ... + c^(n-1)) = 1 - c^n, linking the source's formula to the discounted count |
| LiftPerDrift.LpdIsDiscountedAverage | metrics/lift_per_drift.py:14-21 | for n >= 1 and any cost ratio, the result is the accuracy difference over 1 + c + ... + c^(n-1), and the division raises exactly when that sum is zero |
| LiftPerDrift.LpdDiscountedBranch | metrics/lift_per_drift.py:18-21 | away from c = 1, with a nonzero divisor, result * (1 - c^n) = diff * (1 - c) |
| LiftPerDrift.LpdUndiscounted | metrics/lift_per_drift.py:16-17 | with cost ratio 1 the result is (assisted - base) / n_drifts |
| LiftPerDrift.LpdSingleDrift | metrics/lift_per_drift.py:18-21 | one drift receives the whole accuracy difference, whatever the cost ratio |
| LiftPerDrift.LpdSign | metrics/lift_per_drift.py:14-21 | for a non-negative cost ratio and n >= 1 the result exists and has the sign of the accuracy difference |
| LiftPerDrift.LpdAntitoneInCost | metrics/lift_per_drift.py:9-11 | for a positive accuracy gain, a larger cost ratio never gives a larger result |
| LiftPerDrift.LpdAlternatingFails | metrics/lift_per_drift.py:21 | cost ratio -1 with two drifts makes 1 - c^n zero, so the source raises ZeroDivisionError |
| LiftPerDrift.GeometricSumAtLeastOne | metrics/lift_per_drift.py:18-21 | for c >= 0 and n >= 1 the discounted count is at least 1 |
| LiftPerDrift.GeometricSumMonotone | metrics/lift_per_drift.py:9-11 | the discounted count grows with the cost ratio |
| ExperimentMetrics.ToDict | metrics/metrics.py:31-55 | succeeds iff there are at least four accuracies and four F1 scores (otherwise IndexError); the keys are the ten classifier keys, plus the four drift keys exactly when requested |
| ExperimentMetrics.ClassifierLookups | metrics/metrics.py:38-49 | the ten classifier entries are lpd[0..1], accuracies[0..3] and f1_scores[0..3], in that order |
| ExperimentMetrics.DriftLookups | metrics/metrics.py:50-54 | the drift entries hold the record's mtfa, mtr, mtd and mdr unchanged |
| ExperimentMetrics.ToDictEntries | metrics/metrics.py:38-54 | the dictionary holds the classifier entries, and the drift entries when requested, neither overriding the other |
| ExperimentMetrics.ToDictDriftKeysOnlyAdd | metrics/metrics.py:50-54 | requesting the drift metrics only adds keys: every classifier entry is the same either way |
| ExperimentMetrics.Column | metrics/metrics.py:76-77 | column j of the transposed prediction matrix holds entry j of every row, in row order |
| ExperimentMetrics.ScoreColumns | metrics/metrics.py:74-79 | raises ValueError exactly when there is a prediction column and the number of true labels differs from the number of predictions; otherwise one accuracy and one macro-F1 score per prediction column, in column order, each scored against the true labels |
| ExperimentMetrics.LpdDefault | metrics/metrics.py:80-89 | lift-per-drift with the default cost ratio 1 never fails, and is 0 with no detections |
| ExperimentMetrics.GetMetrics | metrics/metrics.py:58-96 | an empty list of stream drifts raises; otherwise a label-count mismatch on a non-empty prediction matrix raises ValueError, and the call succeeds iff the predictions are rectangular with at least four columns and as many rows as true labels; scores per column; Hoeffding-tree lpd from accuracies 0 and 2, naive-Bayes lpd from 1 and 3, both over all detections; drift scores are `calculate_drift_metrics`'s when the stream has drifts and None otherwise |
| Parameters.SelectGenerator | optimization/parameter.py:32-48 | each generator is chosen under exactly its own rule: n_values only; step_size only; both; neither but a values list; none of these |
| Parameters.SingleValues | optimization/parameter.py:59-67 | `value` first, whatever it is (None, a number or a string), then `max_value` when it is not None; one or two items |
| Parameters.Arithmetic | optimization/parameter.py:77-100 | `range(n)` mapped to `value + i * step`: n items (none for n <= 0), item i being value + i * step |
| Parameters.SingleValueShape | optimization/parameter.py:59-67 | with only value (and optionally max_value) the parameter yields [value], or [value, max_value] when max_value is not None; values of any kind, strings included |
| Parameters.ListUnchanged | optimization/parameter.py:50-57 | a list of values of any kind (None, numbers, strings) is yielded unchanged and in order |
| Parameters.NValuesEquallySpaced | optimization/parameter.py:69-78 | for n_values >= 2: exactly n_values items, the first value, the last exactly max_value, consecutive items (max - value)/(n - 1) apart |
| Parameters.NValuesErrors | optimization/parameter.py:76 | a missing or non-numeric bound raises TypeError; otherwise the spacing divides by zero iff n_values = 1 |
| Parameters.StringValues | optimization/parameter.py:59-100 | a string value passes through the single-value generator unchanged, and makes the n_values, step and n_values/step generators raise TypeError whenever they have an item to build |
| Parameters.SingleStringExample | test/optimization/test_parameter.py:20-23 | `Parameter("a", value="test value")` yields ["test value"] |
| Parameters.StepCountExact | optimization/parameter.py:88 | for a positive step, the loop condition holds for exactly the first StepCount indices |
| Parameters.StepSizeMaximal | optimization/parameter.py:80-90 | for a positive step: items are value + i * step, every item is <= max_value and the next one would exceed it |
| Parameters.StepSizeUnbounded | optimization/parameter.py:87-90 | a non-positive step with value <= max_value never stops; a value above max_value yields nothing |
| Parameters.NValuesStepSizeShape | optimization/parameter.py:92-100 | exactly n_values items value + i * step |
| Parameters.StepSizeLoop | optimization/parameter.py:87-90 | the `while` loop, whenever it stops, collects exactly the step generator's items |
| Parameters.TenValuesExample | test/optimization/test_parameter.py:41-44 | value 11, max 20, 10 values yields 11, 12, ..., 20 |
| Parameters.StepExample | test/optimization/test_parameter.py:51-54 | value 0, max 20, step 5 yields 0, 5, 10, 15, 20 |
| Parameters.ShortStepExample | test/optimization/test_parameter.py:46-49 | value 10, max 12, step 5 yields only 10 |
| Parameters.StepCountExample | test/optimization/test_parameter.py:68-71 | value 3, step 2, 5 values yields 3, 5, 7, 9, 11 |
| ConfigGenerator.NameLeTotal | optimization/config_generator.py:20 | Python's string order compares any two names |
| ConfigGenerator.NameLeTransitive | optimization/config_generator.py:20 | Python's string order is transitive |
| ConfigGenerator.Insert | optimization/config_generator.py:20 | one insertion step of the stable sort adds exactly that parameter |
| ConfigGenerator.InsertSorted | optimization/config_generator.py:20 | inserting into a name-sorted list keeps it name-sorted |
| ConfigGenerator.SortByName | optimization/config_generator.py:20 | sorting keeps exactly the same parameters (a permutation) |
| ConfigGenerator.SortByNameSorted | optimization/config_generator.py:20 | the sorted parameters are in ascending name order and a permutation of the given ones |
| ConfigGenerator.SortByNameKeepsSorted | optimization/config_generator.py:20 | sorting a list already in name order leaves it unchanged |
| ConfigGenerator.NewGenerator | optimization/config_generator.py:13-21 | the constructor keeps the seeds and stores the parameters name-sorted, as a permutation of the given ones |
| ConfigGenerator.Names | optimization/config_generator.py:29 | the names of the parameters, position by position |
| ConfigGenerator.ParameterNames | optimization/config_generator.py:23-31 | "seed" first, then the parameter names in sorted order |
| ConfigGenerator.AllValues | optimization/config_generator.py:40 | one value list per parameter, each the parameter's own values; a parameter whose generator raises makes the whole sweep raise |
| ConfigGenerator.Assign | optimization/config_generator.py:42-45 | the dictionary's keys are exactly the parameter names |
| ConfigGenerator.ProductLength | optimization/config_generator.py:41 | `itertools.product` has one combination per choice of one value from each list: the product of the list lengths |
| ConfigGenerator.ProductWithIndex | optimization/config_generator.py:41 | combination a * len(rest) + b is value a of the first list in front of combination b of the rest |
| ConfigGenerator.ProductOrder | optimization/config_generator.py:41 | combinations come in lexicographic order, the last list varying fastest |
| ConfigGenerator.ProductMembers | optimization/config_generator.py:41 | combination i picks, at every position j, a value of list j |
| ConfigGenerator.ConfigCount | optimization/config_generator.py:40-41 | the number of configurations is the product of the parameters' value counts |
| ConfigGenerator.ConfigSeedsSuffice | optimization/config_generator.py:46-49 | the sweep succeeds iff no seeds were given or there are at least as many seeds as configurations |
| ConfigGenerator.ConfigContents | optimization/config_generator.py:42-49 | configuration i has exactly the parameter names and "seed" as keys, and its seed is seeds[i] when seeds were given |
| ConfigGenerator.AssignDistinct | optimization/config_generator.py:42-45 | a parameter whose name no other parameter shares is mapped to the value at its own position |
| ConfigGenerator.ConfigAt | optimization/config_generator.py:41-49 | configuration i is built from combination i, with the seed key added last |
| ConfigGenerator.ConfigValues | optimization/config_generator.py:42-45 | with distinct names, configuration i maps parameter j to combination i's value j, which is one of parameter j's values |
| ConfigGenerator.RepeatIterationAgrees | optimization/config_generator.py:40-50 | with seeds given, iterating twice at different wall-clock times yields identical configuration lists |
| ConfigGenerator.MixedExample | test/optimization/test_config_generator.py:41-58 | the three-parameter sweep with six seeds yields six configurations, the alphabetically last parameter varying fastest |
| Window.Append | detectors/ks.py:25-26 | `deque(maxlen=cap).append(x)`: below capacity x is appended; at capacity the oldest element is evicted and x is last; the length never exceeds the capacity |
| Window.Last | detectors/ks.py:25-26 | the last min(n, len) elements, a suffix of the sequence |
| Window.AppendKeepsLast | detectors/ks.py:25-26 | a bounded deque always holds exactly the last `cap` elements appended to it |
| Window.AppendKeepsSuffix | detectors/ks.py:25-26 | appending one element to two windows of one capacity keeps the first a suffix of the second |
| Detector.Identity | detectors/ibdd.py:153 | `np.arange(n)`: n entries, entry i being i |
| Detector.ShuffledIdentity | detectors/ibdd.py:153-155 | a shuffled `arange(n)` has n entries, each below n, no two equal |
| Detector.Slide | detectors/ks.py:36-38 | once recent is full, its oldest element is appended to reference before the new sample is appended to recent; below capacity only recent grows; both stay within capacity |
| Detector.SlideStep | detectors/ks.py:36-38 | one slide keeps the sliding-delay invariant: reference ++ recent is the last min(t, 2 * cap) samples, reference staying empty until recent is full |
| Detector.SlidingDelay | detectors/ks.py:36-38 | without resets, after any stream reference ++ recent equals the last min(t, 2 * window_size) samples in arrival order |
| Detector.SlideIsSuffix | detectors/ks.py:36-38 | one slide keeps reference ++ recent a suffix of what the pair held followed by the new sample |
| Detector.SlideOrResetIsSuffix | detectors/ks.py:36-52 | whether the pair is kept or reset to recent alone, what it holds is a suffix of the stream |
| Detector.SlideKeepsRows | detectors/spll.py:55-57 | sliding a d-dimensional sample into d-dimensional windows keeps every row d-dimensional |
| Detector.Members | detectors/ucdd.py:119-126 | `data[labels == i]`: the rows labelled i, in order, never more than the rows |
| Detector.MembersPartition | detectors/ucdd.py:119-126 | with labels 0 and 1 only, the two label classes together hold exactly the rows (as a multiset) |
| Detector.Sub | detectors/spll.py:118-126 | elementwise difference of two samples |
| Detector.VecMat | detectors/spll.py:118-126 | `np.matmul(c, m)`: entry j is the inner product of c with column j |
| Detector.QuadFormZero | detectors/spll.py:118-126 | the quadratic form of the zero vector is zero, whatever the matrix |
| Detector.DotSelfNonNegative | detectors/udetect.py:84-88 | a sum of squares is never negative |
| Detector.ColumnMean | detectors/udetect.py:84-88 | `np.mean(rows, axis=0)`: entry j is the mean of column j |
| Common.ArgMin | detectors/spll.py:99-102 | `np.argmin`: an index holding the least value, with every earlier value strictly greater |
| Common.Ceil | detectors/edfs.py:92 | `math.ceil`: the least integer at or above x |
| Common.Trunc | detectors/ocdd.py:79 | `int(x)`: truncation toward zero |
| Common.SumNonNegative | detectors/ibdd.py:119-126 | a sum of non-negative terms is non-negative |
| Common.SumZero | detectors/ibdd.py:119-126 | a sum of zeros is zero |
| Common.MeanConstant | detectors/udetect.py:94-100 | the mean of a constant list is that constant |
| Common.RatioBounds | metrics/drift.py:45 | k/n lies in [0, 1] for k <= n |
| KolmogorovSmirnov.Reset | detectors/ks.py:47-52 | the recent window becomes the reference window and a fresh, empty recent window starts |
| KolmogorovSmirnov.Step | detectors/ks.py:30-45 | window size 0 raises IndexError with nothing changed; otherwise the update never raises; both windows stay within window_size |
| KolmogorovSmirnov.StepDecision | detectors/ks.py:36-45 | after the sliding move, a drift is reported iff the reference window is full and p < threshold and statistic > 0.1; only then, and only with reset_after_drift, the detector resets; otherwise the windows are the slid pair |
| KolmogorovSmirnov.FullReferenceTests | detectors/ks.py:36-41 | once the reference window is full it stays full and every update runs the test |
| KolmogorovSmirnov.NoWarmUpAfterReset | detectors/ks.py:39-52 | a reset with a full recent window leaves a full reference window, so the very next update tests against a single recent feature |
| KolmogorovSmirnov.RunWithoutReset | detectors/ks.py:36-38 | without resets the detector's windows are the sliding-delay pair over the stream |
| KolmogorovSmirnov.SlidingDelayWithoutReset | detectors/ks.py:36-38 | without resets, reference ++ recent is the last min(t, 2 * window_size) features in arrival order, and reference stays empty until recent has filled |
| KolmogorovSmirnov.StepKeepsSuffix | detectors/ks.py:36-52 | one update, with or without a reset, keeps reference ++ recent a contiguous run of the latest features |
| KolmogorovSmirnov.RunIsSuffix | detectors/ks.py:30-52 | with or without resets the windows always hold a contiguous run of the most recent features, each within capacity |
| KolmogorovSmirnov.KsDetector.constructor | detectors/ks.py:13-28 | both windows start empty, with the given window size, threshold and reset flag |
| KolmogorovSmirnov.KsDetector.Update | detectors/ks.py:30-45 | the new windows and the returned value are exactly `Step` of the old windows |
| KolmogorovSmirnov.KsDetector.Slides | detectors/ks.py:36-38 | the in-place sliding move equals `Slide` of the old windows |
| KolmogorovSmirnov.KsDetector.ResetWindows | detectors/ks.py:47-52 | the in-place reset equals `Reset` of the old state |
| Spll.Distances | detectors/spll.py:93-98 | one row of `cdist`: the Mahalanobis distance from the sample to every centre |
| Spll.ClosestCentroids | detectors/spll.py:83-103 | one centre per recent sample, each one of the centres; no centre is closer than the chosen one, and every centre listed before it is strictly farther (argmin's first minimum) |
| Spll.Likelihoods | detectors/spll.py:120-124 | one likelihood per centred sample: its quadratic form c * VI * c |
| Spll.CalculateSpll | detectors/spll.py:105-126 | the loop accumulating the likelihoods, divided by n_samples, equals the mean quadratic form |
| Spll.SpllNonNegative | detectors/spll.py:118-126 | with a positive semidefinite inverse covariance, the SPLL statistic is never negative |
| Spll.SpllZeroOnCentroids | detectors/spll.py:118-126 | recent samples lying exactly on their centres give SPLL 0, whatever the matrix |
| Spll.Centered | detectors/spll.py:119 | `recent_data - closest_centroids`, row by row |
| Spll.Detect | detectors/spll.py:65-81 | k-means refusing the window raises ValueError; a univariate stream makes `pinv` raise LinAlgError; otherwise a drift iff chi2.ppf(exp(-spll), d) < threshold |
| Spll.Reset | detectors/spll.py:128-133 | the recent window becomes the reference window and recent restarts empty |
| Spll.Moved | detectors/spll.py:55-57 | the sample enters the window pair by the sliding move, which keeps both windows within capacity |
| Spll.TestAndReset | detectors/spll.py:58-63 | no test unless both windows hold n_samples; otherwise the state is unchanged or, on a drift, reset |
| Spll.Step | detectors/spll.py:47-63 | n_samples = 0 raises IndexError with nothing changed; the windows stay within capacity |
| Spll.StepDecision | detectors/spll.py:55-63 | after the move, the test runs exactly when both windows are full; a quantile below the threshold is a drift that resets the detector; otherwise the moved windows are kept |
| Spll.WarmUpAfterDrift | detectors/spll.py:58-133 | while the recent window refills after a reset, updates only append and return False |
| Spll.SpllStatisticNonNegative | detectors/spll.py:75-77 | the statistic of a fitted model with a positive semidefinite inverse covariance is >= 0 |
| Spll.StepKeepsSuffix | detectors/spll.py:55-63 | one update, drift or not, keeps reference ++ recent a contiguous run of the latest samples |
| Spll.SpllDetector.constructor | detectors/spll.py:25-45 | both windows start empty, with the given sizes and threshold |
| Spll.SpllDetector.Update | detectors/spll.py:47-63 | the new windows and the returned value are exactly `Step` of the old windows |
| Spll.SpllDetector.DetectDrift | detectors/spll.py:65-81 | the in-place `_detect_drift` returns exactly `Detect` of the current windows |
| Spll.SpllDetector.ResetWindows | detectors/spll.py:128-133 | the in-place reset equals `Reset` of the old state |
| Bndm.BinaryValue | detectors/bndm.py:137 | `int(partition, 2)` of a partition of length L is below 2^L |
| Bndm.Quantiles | detectors/bndm.py:137-140 | partition k at level L covers the quantiles [k/2^L, (k+1)/2^L], a non-empty range inside [0, 1] |
| Bndm.ChildQuantiles | detectors/bndm.py:85-140 | the children p0 and p1 split p's quantile range at its midpoint: p0 starts where p starts, p1 ends where p ends, and they meet |
| Bndm.PartitionExamples | test/detectors/test_bndm.py:44-64 | "0" and "1" are the two halves, "00" to "11" the four quarters of [0, 1] |
| Bndm.CountIn | detectors/bndm.py:126-127 | the number of elements in the half-open interval (lo, hi], at most the sample size |
| Bndm.CountSplit | detectors/bndm.py:126-127 | half-open intervals that meet count every element of their union exactly once |
| Bndm.IntervalCount | detectors/bndm.py:116-128 | each sample's count in a partition is at most its size |
| Bndm.ChildCountsAdd | detectors/bndm.py:126-141 | with a monotone quantile function, the counts of p0 and p1 add up to the count of p |
| Bndm.PolyaTreeTestSymmetric | detectors/bndm.py:65-114 | the test statistic does not depend on which sample comes first |
| Bndm.ContributionSymmetric | detectors/bndm.py:98-107 | exchanging the two samples' counts leaves a split's contribution unchanged |
| Bndm.PolyaTreeTestStops | detectors/bndm.py:95-96 | a partition holding no element of one of the samples contributes 0 |
| Bndm.RootCount | detectors/bndm.py:130-142 | at the root the halves "0" and "1" together hold every element, for a quantile function infinite at 0 and 1 |
| Bndm.RootStopsIffEmptySample | detectors/bndm.py:95-96 | at the root the stopping rule fires exactly when one of the samples is empty |
| Bndm.Statistic | detectors/bndm.py:59 | the sigmoid 1/(1 + exp(-log_odds)) lies strictly between 0 and 1 |
| Bndm.Normalize | detectors/bndm.py:158-171 | subtract the mean, and divide by the IQR only when it is nonzero |
| Bndm.NormalizedSumZero | detectors/bndm.py:167-171 | normalised data has sum (hence mean) 0, whatever the IQR |
| Bndm.Samples | detectors/bndm.py:144-156 | the normalised column split by position: the first n_samples rows form sample one, the rest sample two |
| Bndm.Statistics | detectors/bndm.py:56-59 | one statistic per feature, in feature order |
| Bndm.AnyBelowExists | detectors/bndm.py:56-62 | the loop stopping at the first drifting feature finds a drift iff some feature's statistic is below the threshold |
| Bndm.AppendRows | detectors/bndm.py:39-53 | the window stays within 2 * n_samples rows of the stream's width |
| Bndm.FullWindowDrift | detectors/bndm.py:54-63 | with n_samples = 0 a non-empty feature vector raises IndexError; otherwise a drift iff some feature's statistic is below the threshold |
| Bndm.Decide | detectors/bndm.py:54-63 | a drift empties the window; anything else leaves it; no test below 2 * n_samples rows |
| Bndm.Step | detectors/bndm.py:45-63 | a drift leaves an empty window; otherwise the window is the bounded append of the sample |
| Bndm.WarmUp | detectors/bndm.py:53-63 | while the window fills, an update only appends and returns False |
| Bndm.StepDecision | detectors/bndm.py:53-63 | on a full window the update never raises and reports a drift iff some feature's statistic is below the threshold |
| Bndm.NonPositiveThresholdNeverDrifts | detectors/bndm.py:59-60 | a threshold <= 0 is never undercut by the sigmoid, so no drift is ever reported |
| Bndm.ThresholdAboveOneAlwaysDrifts | detectors/bndm.py:59-62 | a threshold >= 1 is always undercut, so every full window is a drift and empties the window |
| Bndm.BndmDetector.constructor | detectors/bndm.py:20-43 | the window starts empty, with the given parameters |
| Bndm.BndmDetector.Update | detectors/bndm.py:45-63 | the new window and the returned value are exactly `Step` of the old window |
| Bndm.BndmDetector.DetectDrift | detectors/bndm.py:56-62 | the feature loop with early return equals `FullWindowDrift` of the window |
| Bndm.BndmDetector.ResetWindow | detectors/bndm.py:173-177 | reset leaves an empty window |
| Nndvi.Indices | detectors/nndvi.py:106-115 | two index runs of n_samples each, the first from 0 and the second ending at the data's end, both inside the data when it has at least n_samples points |
| Nndvi.IndicesDisjoint | detectors/nndvi.py:106-115 | the two runs share no index iff the data holds at least 2 * n_samples points, and they coincide when it holds exactly n_samples |
| Nndvi.IndicesUnionSize | detectors/nndvi.py:106-115 | the two runs together cover min(data length, 2 * n_samples) distinct indices |
| Nndvi.IndicesAsRanges | detectors/nndvi.py:113-114 | the runs are exactly the ranges [0, n) and [len - n, len) |
| Nndvi.RangeSize | detectors/nndvi.py:113-114 | the integer range [lo, hi) has hi - lo members |
| Nndvi.GetPermutation | detectors/nndvi.py:117-129 | the shuffled halves together hold exactly the indices of both runs (a permutation), the first half min(n_samples, total) of them |
| Nndvi.PermutationInRange | detectors/nndvi.py:117-129 | shuffled halves stay inside the data's index range |
| Nndvi.ParticleMatrix | detectors/nndvi.py:145-151 | the particle matrix is a 0/1 matrix with one row per point |
| Nndvi.ParticleMatrixMarks | detectors/nndvi.py:145-148 | entry (i, j) is 1 exactly when j is one of point i's neighbours |
| Nndvi.ParticleRow | detectors/nndvi.py:146-148 | a row marks exactly the neighbour columns with 1 and every other column with 0 |
| Nndvi.GetParticleMatrix | detectors/nndvi.py:145-151 | the nested loop writing 1s into a zero matrix builds exactly `ParticleMatrix` |
| Nndvi.Cardinalities | detectors/nndvi.py:167 | one row sum per row |
| Nndvi.Lcm | detectors/nndvi.py:168 | the least common multiple: a common multiple, and no smaller positive number is one |
| Nndvi.LcmFrom | detectors/nndvi.py:168 | the search from k finds the first common multiple at or after k, at most a * b |
| Nndvi.LcmAll | detectors/nndvi.py:168 | `np.lcm.reduce` of positive cardinalities is positive and a multiple of every one of them |
| Nndvi.Weights | detectors/nndvi.py:169 | one weight lcm / cardinality per row, all positive |
| Nndvi.LcmWeights | detectors/nndvi.py:168-170 | with the lcm as scale, each weight is the integer lcm / cardinality and each weighted particle sums to the lcm |
| Nndvi.Totals | detectors/nndvi.py:171-172 | one weighted column total per point |
| Nndvi.Dissimilarity | detectors/nndvi.py:173-176 | the distance is defined (not NaN) iff there is a column and no column is empty in both windows |
| Nndvi.DissimilaritySymmetric | detectors/nndvi.py:173-176 | the dissimilarity does not depend on the order of the two totals |
| Nndvi.DissimilaritySelf | detectors/nndvi.py:173-176 | a window compared with itself is at distance 0 (or NaN) |
| Nndvi.DissimilarityBounds | detectors/nndvi.py:173-176 | with non-negative totals the distance lies in [0, 1] |
| Nndvi.DissimilarityScale | detectors/nndvi.py:170-176 | scaling both totals by a positive factor leaves the distance unchanged |
| Nndvi.TotalsScale | detectors/nndvi.py:168-172 | the totals with lcm weights are the totals with weights 1 / cardinality scaled by the lcm |
| Nndvi.NnpsDistanceUnitWeights | detectors/nndvi.py:154-177 | the NNPS distance equals the dissimilarity under weights 1 / cardinality, so the lcm only rescales |
| Nndvi.ColumnTotalSign | detectors/nndvi.py:170-172 | a column total is non-negative, and positive iff some selected particle marks the column |
| Nndvi.LcmTotals | detectors/nndvi.py:168-172 | the lcm-weighted totals are non-negative and positive exactly on the marked columns |
| Nndvi.NnpsDistanceDefined | detectors/nndvi.py:154-177 | the distance is a number iff the matrix is non-empty, every row is non-empty and every column is marked by one of the two index sets; then it lies in [0, 1] |
| Nndvi.NnpsDistanceSymmetric | detectors/nndvi.py:154-177 | swapping the two index sets leaves the distance unchanged |
| Nndvi.NnpsDistanceSameSets | detectors/nndvi.py:154-177 | the distance between equal index sets is 0 (or NaN) |
| Nndvi.PaperWeights | detectors/nndvi.py:167-170 | the paper's 4x4 matrix has unit-scale weights 1/2, 1/3, 1/3, 1/2 |
| Nndvi.PaperTotals | detectors/nndvi.py:171-172 | its totals for {0, 1} and {2, 3} are (5/6, 5/6, 1/3, 0) and (0, 1/3, 5/6, 5/6) |
| Nndvi.PaperTerms | detectors/nndvi.py:173-176 | those totals are at dissimilarity 5/7 |
| Nndvi.PaperExample | test/detectors/test_nndvi.py:45-57 | the distance of the paper's example is exactly 5/7 |
| Nndvi.PermutedDistances | detectors/nndvi.py:82-89 | one distance per permutation |
| Nndvi.PermutedDistancesStep | detectors/nndvi.py:83-89 | one more permutation appends the distance of the next draw |
| Nndvi.PermutedDistanceIs | detectors/nndvi.py:84-89 | each permuted distance is the NNPS distance of that draw's shuffled halves |
| Nndvi.Values | detectors/nndvi.py:90-92 | the numbers of a NaN-free list of distances, in order |
| Nndvi.Threshold | detectors/nndvi.py:90-92 | the threshold is a number only when there is at least one permutation and no permuted distance is NaN |
| Nndvi.Detect | detectors/nndvi.py:69-93 | the test succeeds iff k_neighbors + 1 does not exceed the number of points and the neighbour table is well formed, consuming n_permutations shuffles; otherwise ValueError and no shuffle |
| Nndvi.DetectDecides | detectors/nndvi.py:76-93 | on valid data detection is the permutation test on the particle matrix |
| Nndvi.Decide | detectors/nndvi.py:79-93 | a drift is reported only when the observed distance is a number (NaN never exceeds the threshold) |
| Nndvi.Step | detectors/nndvi.py:53-67 | the sliding window is always the bounded append of the sample |
| Nndvi.StepDecision | detectors/nndvi.py:60-67 | while the reference window fills the sample goes into both windows and no drift is reported; afterwards the test runs, and only a drift replaces the reference window with the sliding one |
| Nndvi.StepKeepsSynced | detectors/nndvi.py:46-65 | the windows stay in step: equal while filling, both of n_samples after |
| Nndvi.TestOnFullWindows | detectors/nndvi.py:76-115 | every test sees 2 * n_samples points, split into two disjoint runs covering them all |
| Nndvi.RunSliding | detectors/nndvi.py:47-61 | after any stream the sliding window holds its last n_samples samples and the windows are in step |
| Nndvi.RunWarmUp | detectors/nndvi.py:61-63 | during the first n_samples samples both windows are the stream so far and no shuffle is drawn |
| Nndvi.WarmUpNoDrift | detectors/nndvi.py:62-67 | no drift is reported while the reference window fills |
| Nndvi.NndviDetector.constructor | detectors/nndvi.py:28-51 | both windows start empty, with no shuffle drawn |
| Nndvi.NndviDetector.Update | detectors/nndvi.py:53-67 | the new windows, draw count and result are exactly `Step` of the old state |
| Nndvi.NndviDetector.DetectDrift | detectors/nndvi.py:69-93 | leaves the windows alone and returns `Detect` of them |
| Nndvi.NndviDetector.PermutationTest | detectors/nndvi.py:78-93 | draws n_permutations shuffles and returns `Decide` of the particle matrix |
| Nndvi.NndviDetector.PermutationDistances | detectors/nndvi.py:82-89 | the permutation loop collects exactly `PermutedDistances` of the next n_permutations draws |
| D3.NSamples | detectors/d3.py:44 | the truncated buffer size is at least n_reference_samples for a non-negative proportion, and not positive below -1 |
| D3.StepSize | detectors/d3.py:63 | the rounded-up step is at least 1 for a positive proportion and reference size, and not positive otherwise |
| D3.SliceFrom | detectors/d3.py:60-64 | Python's `s[i:]`: a suffix for a start in range, empty past the end, counted from the end for a negative start, everything below -len |
| D3.Labels | detectors/d3.py:79-87 | n labels, 0 at the reference positions and 1 from n_reference_samples on |
| D3.GetLabels | detectors/d3.py:79-87 | filling a zero array with 1 from n_reference_samples on yields exactly `Labels` |
| D3.LabelCounts | detectors/d3.py:85-86 | the labels hold min(n, n_reference_samples) zeros and the rest ones |
| D3.Detect | detectors/d3.py:67-77 | the test fails exactly when the discriminator raises; otherwise a drift iff the AUC is at least the threshold |
| D3.StepDecision | detectors/d3.py:48-65 | a buffer short of n_samples takes the sample and reports no drift; a full buffer drops the sample, and the test's outcome decides: a drift drops the reference part, no drift drops `step` samples, an error leaves the buffer; in each case the new buffer is a suffix of the old |
| D3.StepBounded | detectors/d3.py:56-64 | the buffer never exceeds n_samples |
| D3.StepAfterTest | detectors/d3.py:59-64 | with a non-negative proportion a drift keeps the samples after the reference part and no drift drops the first `step` samples |
| D3.ZeroStepStaysFull | detectors/d3.py:63-64 | with a zero step a test without drift leaves the full buffer unchanged |
| D3.D3Detector.constructor | detectors/d3.py:25-46 | the buffer starts empty, with the given parameters |
| D3.D3Detector.Update | detectors/d3.py:48-65 | the new buffer and the returned value are exactly `Step` of the old buffer |
| D3.D3Detector.DetectDrift | detectors/d3.py:67-77 | returns `Detect` of the buffer |
| Ocdd.Setup | detectors/ocdd.py:84-98 | a non-empty buffer yields a detector fitted on exactly that buffer, which is then emptied; an empty buffer leaves a detector that never got fitted; the outlier window is untouched |
| Ocdd.OutlierRate | detectors/ocdd.py:72 | the outlier rate is a number iff the window is non-empty, and then lies in [0, 1] |
| Ocdd.PopNewest | detectors/ocdd.py:79-81 | popping k samples from the right succeeds iff the buffer holds at least k, keeping the oldest |len| - k; otherwise it empties the buffer and raises |
| Ocdd.Reset | detectors/ocdd.py:75-82 | reset never touches the outlier window |
| Ocdd.ResetKeepsOldest | detectors/ocdd.py:75-82 | when fewer samples are dropped than held, a reset refits on the oldest ones, empties the buffer and reports a drift |
| Ocdd.ResetOfFullBuffer | detectors/ocdd.py:61-79 | for a threshold in (0, 1] a reset of a full buffer always succeeds |
| Ocdd.FirstSetup | detectors/ocdd.py:55-60 | before any fit the sample only enters the buffer; when the buffer first fills a detector is fitted on it, the buffer empties and the sample's prediction enters the outlier window, with no drift |
| Ocdd.FittedStep | detectors/ocdd.py:55-64 | with a fitted detector both windows take the sample; a drift is reported iff the buffer is full, the outlier rate reaches the threshold and the reset succeeds; otherwise nothing else changes |
| Ocdd.StepCases | detectors/ocdd.py:55-64 | `update` is setup on the first full buffer (raising when n_samples is 0) followed by monitoring, or monitoring alone |
| Ocdd.StepBounded | detectors/ocdd.py:40-64 | both windows stay within n_samples |
| Ocdd.MonitorBounded | detectors/ocdd.py:58-63 | monitoring keeps both windows within n_samples |
| Ocdd.MonitorFitted | detectors/ocdd.py:58-64 | with a fitted detector monitoring either resets or only appends the prediction |
| Ocdd.ResetBounded | detectors/ocdd.py:75-82 | a reset keeps both windows within n_samples |
| Ocdd.NoTestWhileRefilling | detectors/ocdd.py:55-64 | while the buffer refills no drift is reported and a successful update only appends the sample |
| Ocdd.OcddDetector.constructor | detectors/ocdd.py:20-45 | both windows start empty and no detector exists |
| Ocdd.OcddDetector.Update | detectors/ocdd.py:47-64 | the new state and the returned value are exactly `Step` of the old state, and both windows stay bounded |
| Ocdd.OcddDetector.AdmitSample | detectors/ocdd.py:54-57 | the sample enters the buffer, and the first full buffer is fitted (failing only when n_samples is 0) |
| Ocdd.OcddDetector.MonitorSample | detectors/ocdd.py:58-64 | the monitoring half equals `Monitor` of the state |
| Ocdd.OcddDetector.ResetDetector | detectors/ocdd.py:75-82 | the pop loop followed by setup equals `Reset` of the state |
| Ocdd.OcddDetector.SetUp | detectors/ocdd.py:84-98 | fitting succeeds iff the buffer was non-empty, and the new state is `Setup` of the old |
| UDetect.SquaredDeviation | detectors/udetect.py:84-86 | a row's squared distance from the column-wise mean is non-negative |
| UDetect.Deviations | detectors/udetect.py:84-86 | one squared deviation per row of the window, in order |
| UDetect.Summary | detectors/udetect.py:78-88 | the summary exists iff the window's rows all have one width (numpy raises on a ragged window) |
| UDetect.SummaryNonNegative | detectors/udetect.py:78-88 | a summary is never negative |
| UDetect.SummaryOfEqualRows | detectors/udetect.py:84-88 | a window of identical samples has summary 0 |
| UDetect.Differences | detectors/udetect.py:95 | `summaries[1:] - summaries[:-1]`: one successive difference per adjacent pair |
| UDetect.Squares | detectors/udetect.py:95 | the squared differences, each non-negative |
| UDetect.MovingRange | detectors/udetect.py:95-96 | the moving range (the norm of the differences) is non-negative |
| UDetect.ConstantMovingRange | detectors/udetect.py:95-96 | identical summaries have moving range 0 |
| UDetect.Thresholds | detectors/udetect.py:90-100 | the individual limits are numbers iff there is at least one summary (the mean of none is NaN) |
| UDetect.ThresholdsOrdered | detectors/udetect.py:98-100 | the range limit is non-negative, and the individual limits enclose the mean summary symmetrically |
| UDetect.ConstantSummaries | detectors/udetect.py:94-100 | identical summaries give a zero range limit and individual limits equal to the summary |
| UDetect.Detect | detectors/udetect.py:63-76 | the test fails exactly on a ragged window; otherwise a drift iff the summary is out of control |
| UDetect.OutOfControlCases | detectors/udetect.py:70-74 | because `and` binds tighter than `or`, a drift iff the summary is below the lower limit or above both upper limits |
| UDetect.NoSummariesNoDrift | detectors/udetect.py:70-100 | limits computed from no summaries (NaN) never signal a drift |
| UDetect.EqualRowsWindow | detectors/udetect.py:63-88 | a window of identical samples, against a lower limit at or below 0, drifts only when both upper limits are negative |
| UDetect.Reset | detectors/udetect.py:102-106 | reset drops the limits and empties the window but keeps the summaries |
| UDetect.FreshConsistent | detectors/udetect.py:31-39 | a new detector satisfies the invariant |
| UDetect.StepPhases | detectors/udetect.py:41-61 | a window short of n_samples only takes the sample; a full one adds a summary while fewer than n_windows exist (emptying the window in disjoint mode), then sets the limits once without testing, then is tested, and a drift resets the detector |
| UDetect.StepConsistent | detectors/udetect.py:41-61 | every update keeps the window within n_samples, the summaries within n_windows, and any limits equal to those of the summaries |
| UDetect.LimitsNeverChange | detectors/udetect.py:49-60 | once limits are set the summaries are frozen, so limits recomputed after a reset are the ones dropped |
| UDetect.RunConsistent | detectors/udetect.py:41-61 | the invariant holds after any stream of updates from a new detector |
| UDetect.UDetector.constructor | detectors/udetect.py:19-39 | the window and summaries start empty with no limits, satisfying the invariant |
| UDetect.UDetector.Update | detectors/udetect.py:41-61 | the new state and the returned value are exactly `Step` of the old state, and the invariant is kept |
| UDetect.UDetector.DetectDrift | detectors/udetect.py:63-76 | returns `Detect` of the window against the limits |
| UDetect.UDetector.CalculateThresholds | detectors/udetect.py:90-100 | sets the limits to `Thresholds` of the summaries and changes nothing else |
| UDetect.UDetector.ResetDetector | detectors/udetect.py:102-106 | the new state is `Reset` of the old |
| Ibdd.Values | detectors/ibdd.py:160 | the numbers of a NaN-free array, in order |
| Ibdd.MeanOf | detectors/ibdd.py:132-137 | `np.mean` is a number iff the array is non-empty and holds no NaN |
| Ibdd.StdOf | detectors/ibdd.py:132-137 | `np.std` is a number iff the array is non-empty and holds no NaN, and then it is non-negative |
| Ibdd.MeanOfNonNegative | detectors/ibdd.py:100-106 | the mean of non-negative values is non-negative |
| Ibdd.RowErrors | detectors/ibdd.py:125 | one squared row difference per row |
| Ibdd.Msd | detectors/ibdd.py:112-126 | the deviation is computed iff the two windows have the same shape (ValueError otherwise), and is a number iff they are non-empty with non-empty rows (the mean of nothing is NaN) |
| Ibdd.MsdNonNegative | detectors/ibdd.py:125-126 | the mean squared deviation is never negative |
| Ibdd.MsdSelf | detectors/ibdd.py:112-126 | a window deviates from itself by 0 |
| Ibdd.MsdSymmetric | detectors/ibdd.py:112-126 | the deviation does not depend on the order of the windows, including which of them raises |
| Ibdd.PermutedIndices | detectors/ibdd.py:153-155 | every shuffled index array is a permutation of `arange(n_samples)` |
| Ibdd.PermutedIndicesInRange | detectors/ibdd.py:153-157 | a shuffled index array has n_samples entries, each a valid row index |
| Ibdd.Permute | detectors/ibdd.py:157 | row i of the permuted copy is the row named by index i |
| Ibdd.PermuteSameShape | detectors/ibdd.py:156-157 | a permuted copy of the reference has the reference's shape, so comparing them never raises |
| Ibdd.PermutationDeviation | detectors/ibdd.py:155-158 | the deviation of the reference from a permuted copy is never negative |
| Ibdd.PermutationDeviations | detectors/ibdd.py:154-159 | one deviation per shuffle, in order, each from that shuffle's copy |
| Ibdd.Spread | detectors/ibdd.py:132-162 | `mean ± 2·std` thresholds are ordered, and their gap is 4 standard deviations (NaN exactly when the std is) |
| Ibdd.Record | detectors/ibdd.py:98-110 | new thresholds take effect, their gap is appended to `threshold_diffs`, the update time is the current step, and nothing else changes |
| Ibdd.InitialThresholds | detectors/ibdd.py:141-163 | raises ValueError when thresholds exist or the reference is ragged; otherwise the deviation window takes the permuted deviations and the thresholds are `mean ± 2·std` of it, with their gap recorded and the windows and clocks unchanged |
| Ibdd.UpdateThresholds | detectors/ibdd.py:128-139 | renewed thresholds are ordered and 4 standard deviations apart, their gap is recorded and the update time is now; windows and step are unchanged |
| Ibdd.Evaluated | detectors/ibdd.py:90-97 | the islice succeeds iff its start is not negative, and is then the last n_consecutive_deviations + 1 deviations |
| Ibdd.Detect | detectors/ibdd.py:83-110 | a test never changes the windows, the deviation window or the time step |
| Ibdd.DetectCases | detectors/ibdd.py:83-110 | the test raises iff fewer than n_consecutive_deviations + 1 deviations exist; otherwise a drift iff all evaluated deviations reach the upper threshold or all reach the lower one; the upper case moves the thresholds to deviation + std and deviation - mean gap; a drift notes the update time, and no drift changes nothing |
| Ibdd.Renewed | detectors/ibdd.py:76-77 | thresholds older than update_interval steps are renewed, leaving the windows and the step alone |
| Ibdd.Advanced | detectors/ibdd.py:80 | the time step advances by one unless the update raised |
| Ibdd.CollectSetsThresholds | detectors/ibdd.py:63-66 | once the reference holds n_samples, thresholds exist |
| Ibdd.ReferenceFrozen | detectors/ibdd.py:63-64 | the reference grows only while no thresholds exist and is never changed after |
| Ibdd.TimeStepAdvances | detectors/ibdd.py:80 | an update that does not raise advances the time step by exactly 1 |
| Ibdd.CollectFrame | detectors/ibdd.py:63-66 | the first half of `update` never reports a drift, leaves the recent window alone, and with thresholds set changes nothing |
| Ibdd.TestFrame | detectors/ibdd.py:67-81 | the second half never changes the reference, and advances the time step when it does not raise |
| Ibdd.TestMeasured | detectors/ibdd.py:67-79 | with both windows full and a deviation computed, the second half records it and tests |
| Ibdd.MeasuredFrame | detectors/ibdd.py:72-80 | recording and testing leave the reference alone and advance the step when nothing raises |
| Ibdd.TestOnlyWhenFull | detectors/ibdd.py:67-81 | while either window is short of n_samples an update only appends the sample and advances the step, reporting no drift |
| Ibdd.AroundOrdered | detectors/ibdd.py:99-106 | thresholds placed a non-negative distance either side of the deviation are ordered |
| Ibdd.RecordSound | detectors/ibdd.py:128-139 | recording ordered thresholds keeps every recorded gap non-negative |
| Ibdd.DetectSound | detectors/ibdd.py:98-109 | a drift's new thresholds stay ordered |
| Ibdd.StepSound | detectors/ibdd.py:54-81 | every update keeps the deviation window within update_interval, the recorded gaps non-negative and the thresholds ordered |
| Ibdd.CollectSound | detectors/ibdd.py:141-163 | the first half keeps the invariant |
| Ibdd.TestSound | detectors/ibdd.py:67-81 | the second half keeps the invariant |
| Ibdd.SoundDeviations | detectors/ibdd.py:43 | the invariant depends on the deviation window only through its bound |
| Ibdd.MeasuredSound | detectors/ibdd.py:72-79 | recording, renewing and testing keep the invariant |
| Ibdd.RunSound | detectors/ibdd.py:54-81 | from a new detector the thresholds stay ordered over any stream |
| Ibdd.AppendDeviation | detectors/ibdd.py:154-159 | appending to the bounded deque keeps the last update_interval of everything appended |
| Ibdd.IbddDetector.constructor | detectors/ibdd.py:22-52 | all windows empty, no thresholds, clocks at 0 |
| Ibdd.IbddDetector.Update | detectors/ibdd.py:54-81 | the new state and the returned value are exactly `Step` of the old state, and the invariant is kept |
| Ibdd.IbddDetector.CollectSample | detectors/ibdd.py:63-66 | the first half equals `Collect` of the state |
| Ibdd.IbddDetector.TestSample | detectors/ibdd.py:67-81 | the second half equals `Test` of the state |
| Ibdd.IbddDetector.Measure | detectors/ibdd.py:72-80 | recording a deviation, renewing and testing equals `Measured` of the state |
| Ibdd.IbddDetector.Advance | detectors/ibdd.py:80 | the step advances unless the update raised |
| Ibdd.IbddDetector.DetectDrift | detectors/ibdd.py:83-110 | equals `Detect` of the state |
| Ibdd.IbddDetector.RenewThresholds | detectors/ibdd.py:128-139 | the new state is `UpdateThresholds` of the old |
| Ibdd.IbddDetector.CalculateInitialThresholds | detectors/ibdd.py:141-163 | the shuffle loop and thresholds equal `InitialThresholds`; on error nothing changes |
| Ibdd.IbddDetector.ShuffledDeviations | detectors/ibdd.py:153-159 | the loop fails (ValueError) iff there is a shuffle and the reference is ragged; otherwise it yields the last update_interval of the old deviations followed by `PermutationDeviations` |
| Csddm.ConfidenceIndex | detectors/csddm.py:111-124 | succeeds iff the confidence is one of the seven supported levels, returning its first position; any other confidence raises ValueError |
| Csddm.IndexOf | detectors/csddm.py:124 | `list.index`: found iff present, at the first position holding the value; absent raises ValueError |
| Csddm.SupportedConfidences | detectors/csddm.py:119-124 | every supported level maps to its own position, and an unsupported one (0.2) is refused |
| Csddm.Project | detectors/csddm.py:68-71 | a projected sample has n_components coordinates |
| Csddm.ProjectAll | detectors/csddm.py:143 | one projection per sample, in order |
| Csddm.ClusterAll | detectors/csddm.py:144-145 | one cluster label per sample, in order |
| Csddm.Setup | detectors/csddm.py:135-145 | fails (IndexError) iff the reference is empty; otherwise n_components comes from the first sample's width, the reference becomes its projection, and each projected row gets its cluster label; the recent windows are untouched |
| Csddm.ComponentsBounds | detectors/csddm.py:139-141 | for a proportion in (0, 1] and at least one feature, the PCA keeps between 1 and all of the features |
| Csddm.NoTestBeforeSetup | detectors/csddm.py:62-76 | before the models exist no drift is reported: samples join the reference, and the n_samples-th fits the models |
| Csddm.TestOnlyWhenFull | detectors/csddm.py:66-76 | with the models fitted, the recent window stays within n_samples, a short window is not tested, a full one returns the test's result, and a drift is reported as such |
| Csddm.DriftResets | detectors/csddm.py:73-133 | a drift makes the recent window the new reference, refitted, and empties the recent window; the projected recent window is left as it was |
| Csddm.GuardSkipsPair | detectors/csddm.py:93-100 | a cluster empty on either side, or with one member on both, is skipped without a test |
| Csddm.ScanComponentsExists | detectors/csddm.py:92-108 | when no test raises, a cluster's component loop reports a drift iff some component's statistic reaches its critical value |
| Csddm.ClusterScan | detectors/csddm.py:85-108 | the same for the members of cluster i on both sides |
| Csddm.ScanClustersExists | detectors/csddm.py:85-109 | when no test raises, the nested loop reports a drift iff some (cluster, component) pair drifts |
| Csddm.DetectExists | detectors/csddm.py:78-109 | `_detect_drift` reports a drift iff some (cluster, component) pair drifts, provided no test raises |
| Csddm.FreshAligned | detectors/csddm.py:40-52 | a new detector satisfies the invariant |
| Csddm.AdmitAligned | detectors/csddm.py:67-71 | appending a sample and its projection keeps the projected window aligned with the recent one |
| Csddm.ProjectAppend | detectors/csddm.py:67-71 | projecting after a bounded append is appending the projection |
| Csddm.CollectAligned | detectors/csddm.py:62-65 | collecting the reference keeps the invariant |
| Csddm.MonitorAligned | detectors/csddm.py:72-75 | testing and resetting keep the invariant |
| Csddm.StepAligned | detectors/csddm.py:54-76 | every update keeps both recent windows within n_samples and the projected window a projection of the recent one by the current PCA |
| Csddm.FullWindowProjected | detectors/csddm.py:126-133 | a test sees only current projections: a full recent window's projected window is exactly its projection by the current PCA, even though reset does not clear the projected window |
| Csddm.CsddmDetector.constructor | detectors/csddm.py:23-52 | empty windows, no models, the confidence stored as its index |
| Csddm.CsddmDetector.Update | detectors/csddm.py:54-76 | the new state and the returned value are exactly `Step` of the old state, and the invariant is kept |
| Csddm.CsddmDetector.CollectSample | detectors/csddm.py:62-65 | the branch before the models exist equals `Collect` |
| Csddm.CsddmDetector.TestWindow | detectors/csddm.py:72-76 | the test of a full window and the reset equal `Monitor` |
| Csddm.CsddmDetector.DetectDrift | detectors/csddm.py:78-109 | the nested loop with early return equals `Detect` of the state |
| Csddm.CsddmDetector.ResetDetector | detectors/csddm.py:126-133 | the new state is `Reset` of the old |
| Csddm.CsddmDetector.SetUp | detectors/csddm.py:135-145 | the new state is `Setup` of the old; on error nothing changes |
| Ucdd.SplitPoint | detectors/ucdd.py:120-125 | the slice point `data[:n_reference_samples]` is clamped to the window's length |
| Ucdd.Closest | detectors/ucdd.py:97-109 | the nearest neighbour's index lies inside the candidates |
| Ucdd.Distances | detectors/ucdd.py:106-108 | one distance per candidate, in order |
| Ucdd.ClosestIsFirstMinimum | detectors/ucdd.py:106-109 | `argmin` picks a candidate at the least distance, and every earlier candidate is strictly farther |
| Ucdd.NeighboursStep | detectors/ucdd.py:90-94 | one more evaluated sample adds its nearest neighbour when the pool is non-empty, and an empty pool contributes nothing |
| Ucdd.AddNeighbour | detectors/ucdd.py:91-94 | one iteration of the loop for one pool grows the set to the neighbours of one more evaluated sample |
| Ucdd.NeighboursBounds | detectors/ucdd.py:89-95 | each unique-neighbour count is at most the number of evaluated samples and at most the pool size, and every index is a valid pool position |
| Ucdd.Test | detectors/ucdd.py:54-69 | a full window raises (KMeans with two clusters) iff it holds fewer than two samples; otherwise a drift iff either class's Beta value is below the threshold |
| Ucdd.RunIsLast | detectors/ucdd.py:40-53 | there is no reset: the window is always the newest n_reference + n_recent samples of the stream |
| Ucdd.StepTestsWhenFull | detectors/ucdd.py:53-70 | the window stays within its capacity; below capacity an update only appends, and at capacity it returns the test of the window |
| Ucdd.SeparatePartitions | detectors/ucdd.py:111-126 | the four subsets partition a full window: the reference subsets together are its first n_reference samples, the recent subsets the rest |
| Ucdd.Swapped | detectors/ucdd.py:120-125 | exchanging the labels keeps one label per sample |
| Ucdd.MembersSwapped | detectors/ucdd.py:122-125 | under exchanged labels class i holds what class 1 - i held |
| Ucdd.SeparateMirror | detectors/ucdd.py:62-126 | the two classes play mirrored roles: exchanging the labels exchanges the positive and negative subsets, so the two Beta values trade places |
| Ucdd.UcddDetector.constructor | detectors/ucdd.py:24-44 | the window starts empty, with the given parameters |
| Ucdd.UcddDetector.Update | detectors/ucdd.py:46-70 | the new window and the returned value are exactly `Step` of the old window, and the window stays within capacity |
| Ucdd.UcddDetector.ComputeBeta | detectors/ucdd.py:72-95 | the loop collecting the two sets of unique nearest-neighbour indices returns the Beta CDF of their sizes |
| Edfs.KsOf | detectors/edfs.py:106 | every nested detector is a KS detector with the ensemble's window size, alpha as its threshold, and no reset after drift |
| Edfs.Keys | detectors/edfs.py:107 | `list(sample.keys())`: one name per entry, in the dictionary's order |
| Edfs.Lookup | detectors/edfs.py:80 | `features[feature]` is missing (KeyError) iff no entry has that name, and otherwise is the value stored under it |
| Edfs.RangeLength | detectors/edfs.py:109 | `range(n)` has n elements for positive n and none otherwise |
| Edfs.Choose | detectors/edfs.py:107 | a draw of k features yields k names of the sample |
| Edfs.ChooseDistinct | detectors/edfs.py:107 | drawing without replacement yields distinct features |
| Edfs.RandomSubspace | detectors/edfs.py:104-108 | a subspace holds one fresh detector per drawn feature |
| Edfs.RandomSubspaces | detectors/edfs.py:100-110 | `__random_reset` builds one subspace per element of `range(n_subspaces)` |
| Edfs.Reset | detectors/edfs.py:87-115 | reset records n_features and `ceil(n_features * feature_percentage)` whatever the mode; SUBSPACE_SELECTION raises NotImplementedError and any other mode ValueError; RANDOM raises iff a subspace must be drawn with a negative size or more features than the sample has; a raising reset leaves the subspaces as they were |
| Edfs.ResetShape | detectors/edfs.py:100-110 | a random reset that cannot raise builds `range(n_subspaces)` subspaces, each holding fresh detectors for n_features_per_space distinct features of the sample, one draw per subspace |
| Edfs.ResetOneFeature | test/detectors/test_edfs.py:30-34 | `EDFS(1, 1, RANDOM).reset({"a": 1})` builds one subspace holding one fresh detector for "a" |
| Edfs.HalfOfEvenFeatures | test/detectors/test_edfs.py:36-45 | with feature_percentage 0.5 and 2n features every subspace holds n features |
| Edfs.OtherModesRaise | detectors/edfs.py:64-98 | an update of a detector in an unsupported mode raises ValueError, and in SUBSPACE_SELECTION mode NotImplementedError, building no subspace |
| Edfs.FeederSucceeds | detectors/ks.py:30-45 | with a positive window no nested KS detector update raises |
| Edfs.Vote | detectors/edfs.py:78-81 | the inner loop updates one detector per feature of the subspace and counts at most as many drifts as detectors |
| Edfs.VoteFirst | detectors/edfs.py:79-81 | the first detector decides how the inner loop goes on: a missing feature raises KeyError with nothing updated, a raising detector stops the loop, otherwise its drift is counted and the loop continues |
| Edfs.Joined | detectors/edfs.py:79-81 | joining updated detectors to the rest keeps their order and adds their drift counts, passing on an exception |
| Edfs.TallyStep | detectors/edfs.py:79-81 | one more detector of the inner loop, after the detectors already updated |
| Edfs.JoinedTwice | detectors/edfs.py:79-81 | two stretches of the inner loop join as one |
| Edfs.Fed | detectors/edfs.py:79-80 | the subspace after its first j detectors took their feature's value keeps its length |
| Edfs.FedCons | detectors/edfs.py:79-80 | feeding j detectors is feeding the first, then j - 1 of the rest |
| Edfs.VoteUpdatesEach | detectors/edfs.py:79-81 | when every feature is present and no detector raises, the inner loop updates every detector with its feature's value |
| Edfs.VoteStopsAtMissing | detectors/edfs.py:79-80 | the first missing feature raises KeyError, after the detectors before it were updated |
| Edfs.SubspaceMajoritySuffices | detectors/edfs.py:82-92 | more drifts than half of n_features_per_space always make a majority, since the threshold is half of `n_features * feature_percentage` |
| Edfs.ThresholdFollowsSample | detectors/edfs.py:82 | the vote threshold uses the sample's size: one drift is a majority for 2 features but not for 4, at feature_percentage 0.5 |
| Edfs.Detect | detectors/edfs.py:71-85 | the subspace loop keeps one subspace per subspace |
| Edfs.DetectFirst | detectors/edfs.py:77-85 | the first subspace's vote decides how the loop goes on: an exception propagates, a majority returns drift leaving the later subspaces untouched, otherwise the loop continues |
| Edfs.Resumed | detectors/edfs.py:77-85 | the outcome of the loop after subspaces that voted without a majority keeps them in front |
| Edfs.ResumeStep | detectors/edfs.py:77-85 | one more subspace's vote, resumed after those already polled |
| Edfs.ResumedNone | detectors/edfs.py:77 | resuming after no subspaces is the loop itself |
| Edfs.ResumedTwice | detectors/edfs.py:77 | resuming twice is resuming after both stretches |
| Edfs.Polled | detectors/edfs.py:77-81 | the subspaces after those up to j voted keep their number |
| Edfs.PolledCons | detectors/edfs.py:77-81 | polling up to j is polling the first subspace, then up to j - 1 of the rest |
| Edfs.DetectStopsAtFirstMajority | detectors/edfs.py:77-85 | when subspace j is the first to vote drift, the loop reports drift with subspaces up to j updated and the rest untouched |
| Edfs.DetectDriftHasFirstMajority | detectors/edfs.py:77-85 | conversely, a drift is reported only when some subspace is the first to vote drift |
| Edfs.Step | detectors/edfs.py:57-69 | an exception raised by the initial reset is the exception of the update |
| Edfs.Voted | detectors/edfs.py:66-69 | without a drift the detectors updated by the vote are kept and nothing is reset |
| Edfs.DriftRebuilds | detectors/edfs.py:66-110 | a reported drift happens only in RANDOM mode and rebuilds every subspace from the current sample |
| Edfs.VotedRebuilds | detectors/edfs.py:67-68 | after a drift the subspaces are rebuilt from the current sample |
| Edfs.FirstUpdateBuilds | detectors/edfs.py:64-66 | the first update builds well-formed subspaces and returns the vote on them |
| Edfs.EdfsDetector.constructor | detectors/edfs.py:28-55 | no subspaces, zero feature counts, no draws yet |
| Edfs.EdfsDetector.Update | detectors/edfs.py:57-69 | the new state and the returned value are exactly `Step` of the old state |
| Edfs.EdfsDetector.DetectDrift | detectors/edfs.py:71-85 | the subspace loop with early return equals `Detect` of the subspaces and changes nothing else |
| Edfs.EdfsDetector.VoteSubspace | detectors/edfs.py:78-81 | the inner loop over one subspace equals `Vote` |
| Edfs.EdfsDetector.ResetSubspaces | detectors/edfs.py:87-115 | the new state and the exception raised equal `Reset` of the old state |

## Left out

- Floating point: every quantity is an exact `real` or `int`. NaN results are `None`. IEEE-754 rounding, infinities and NaN propagation are not modelled.
- Statistical and machine-learning routines (ks_2samp, betaln, the normal, chi-squared and beta distributions, anderson_ksamp, KMeans, PCA, NearestNeighbors, LogisticRegression with StratifiedKFold and roc_auc_score, OneClassSVM, np.std, np.linalg.norm and pinv, stats.iqr) are oracle parameters. Only the bookkeeping and decision rules around them are modelled.
- Random number generation: `rng.shuffle` and `rng.choice` are modelled by explicit permutation or draw indices that the caller supplies. EDFS's `rng.choice` is the first k entries of a shuffled index range, one draw per subspace.
- Wall-clock seeding (`int(time.time())` in the detector base class and in the configuration generator) is replaced by an explicit seed parameter.
- The experiment runner, logger and classifiers (`optimization/model_optimizer.py`, `optimization/logger.py`, `optimization/classifiers.py`), the evaluation tooling, the dataset readers and generators, and the entry points are not part of this model. Detection timestamps are taken to be the sample indices those would produce.
- `NNDVI._create_data_set` is not modelled; the code never calls it.
- ExperimentMetrics.ScoreColumns: the accuracy and F1 scorers are oracles; of their input checks only the one on the number of labels is modelled, so labels sklearn rejects for other reasons (for example mixed label types) still score.
- DriftMetrics: with no known drifts the model returns the error that the division by `len(known_drifts)` raises, not NaN.
- Spll: the covariance, its pseudo-inverse and k-means are oracles; the model keeps only when they fail (a univariate stream, k-means refusing the window). Features are taken to have the stream's dimension.
- Ocdd: the failures of `fit` on empty data, of `predict` before a fit and of popping more samples than the buffer holds are error results; the one-class SVM itself is an oracle.
- D3: the stratified cross-validation, the logistic regression and the AUC are one oracle, which may fail.
- UDetect.MovingRange: the square root inside `np.linalg.norm` is an oracle known only to be non-negative and zero at zero, so the moving range is not computed exactly.
- Ibdd: standard deviation and square root are oracles. The shuffle loop of the initial thresholds works on a local copy of the reference.
- Csddm: a PCA or KMeans failure is not modelled. The constructor requires a supported confidence level, where the source raises ValueError for any other.
- Ucdd: k-means and the distance are oracles, so ragged samples are not seen by the model. K-means on fewer than two samples is the ValueError it raises.
- KolmogorovSmirnov: a window size of 0, where the source raises IndexError, is an error result.
- Edfs: the nested KS detectors are held as values inside the EDFS state and stepped through the KS step function; aliasing between them is not modelled. A negative window size is not modelled.
- Bndm: `n_samples == 0` with a non-empty feature dimension, where the source raises IndexError, is an error result.
- ConfigGenerator: fewer seeds than configurations, where the source raises IndexError, is an error result.
- Parameters: a non-positive step makes the source's step generator loop forever; the model returns `Unbounded` for it instead.
