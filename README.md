# cogspaces: trace-norm solver and contrast fetchers in Dafny

This project models two parts of the cogspaces repository and proves properties of the model.

- **The trace-norm multinomial solver** of `cogspaces/model/trace.py`:
  - the Lipschitz bound;
  - the singular-value soft-thresholding operator and its rank;
  - the cross-entropy loss;
  - the quadratic majorizer;
  - the backtracking proximal-gradient step `_prox_grad`;
  - the momentum loop `_ista_loop`;
  - the bookkeeping of `TraceNormEstimator.fit`: class limits and slices, label padding in split-loss mode, weight normalisation, initial step size and initial coefficients.
- **The z-map fetchers** of `cogspaces/datasets/contrasts.py`:
  - how each of camcan, brainomics, archi, human_voice, la5c and brainpedia turns file paths into rows (subject, task, contrast, direction, z_map);
  - which paths each one drops, and in which order errors stop the fetch;
  - how `n_subjects` keeps the rows of the first subjects only.

Files:

- `wrappers.dfy`: the `Option` and `Result` types.
- `vectors.dfy`: sums, dot products and squared norms over flat `seq<real>`, with the algebra lemmas the solver needs.
- `trace_numerics.dfy`: the pure numerics of `trace.py`. These are `lipschitz_constant`, the thresholding inside `proximal_operator`, `cross_entropy` (a method with nested loops, proved against a function) and the majorizer of `_quad_approx`.
- `trace_layout.dfy`: limits, class slices, label padding and dataset-weight normalisation.
- `trace_solver.dfy`: the `Workspace` class that owns the solver's preallocated buffers as arrays. Its methods are `_prox_grad`, `_quad_approx` and the iterate update of `_ista_loop`, together with the loop itself.
- `trace_estimator.dfy`: the `TraceNormEstimator` class and its `fit`.
- `pytext.dfy`: Python's `s[a:b]` slicing, `int(str)`, `os.path.split` and `os.path.join`, each modelled explicitly.
- `contrasts.dfy`: the per-path parsers, the collecting loops and the parallel lists they fill, the subject selection, and brainpedia's three nested listing loops.

Several operations of the source need exp, log or an SVD: the log-softmax predictions, the cross-entropies of the current predictions, the gradient matrix products, the singular values and the reconstruction `U diag(s) V`. They enter the solver as a `Numerics` value of total functions. Every property proved about the solver holds whatever those functions compute. The one exception is `sqrt`, which must be a square root (`IsSqrt`).

Where the source would divide by zero, the model returns an error value instead. This happens:

- at `L == 0` in the gradient step;
- at a zero mean of non-empty dataset weights;
- at a zero `step_size_multiplier`.

Under numba or numpy the result would be `inf`/`nan`, or a `ZeroDivisionError`. An empty list of dataset weights is no error where it is normalised: its mean is `nan` and dividing nothing leaves it empty. The Lipschitz bound then rejects it, because it does not broadcast against the datasets.

In split-loss mode, `lipschitz_constant` combines the weighted per-dataset bounds by their **mean** (`np.mean`, trace.py:16-17), not by their sum. `TraceNumerics.LipschitzSplitLoss` states the mean and shows that it never exceeds the bound of the other mode.

## Model

| member | source | states |
|---|---|---|
| TraceNumerics.LipschitzConstant | cogspaces/model/trace.py:10-21 | succeeds exactly when there is at least one dataset, every dataset has a sample, and the weights broadcast against the datasets; an empty dataset is reported with its index |
| TraceNumerics.LipschitzSplitLoss | cogspaces/model/trace.py:12-20 | in split-loss mode L is half the mean of the weighted per-dataset terms (max squared row norm, +1 with an intercept, times the weight); the max mode is then defined on the same data and its L is never smaller |
| TraceNumerics.LipschitzMaxMode | cogspaces/model/trace.py:15-20 | otherwise L is half the largest weighted term: at least half of every term, and equal to half of one of them |
| TraceNumerics.LipschitzNonnegative | cogspaces/model/trace.py:12-20 | with non-negative weights L >= 0 in both modes |
| TraceNumerics.ProximalOperator | cogspaces/model/trace.py:31-36 | the shrunk values are non-negative, zero exactly where s <= threshold, never above s for a non-negative threshold; the rank is the number of values above the threshold |
| TraceNumerics.RankCountsValuesAboveThreshold | cogspaces/model/trace.py:33-34 | the number of non-zero shrunk values equals the number of singular values strictly above the threshold |
| TraceNumerics.FullShrinkage | cogspaces/model/trace.py:33-34 | a threshold at or above every singular value gives rank 0 and all-zero values |
| TraceNumerics.ZeroThresholdIsIdentity | cogspaces/model/trace.py:33 | a zero threshold leaves non-negative singular values unchanged |
| TraceNumerics.CrossEntropy | cogspaces/model/trace.py:126-134 | the nested loops compute minus the sum of the predictions at labelled entries divided by the number of samples; no samples is an error |
| TraceNumerics.CrossEntropyIgnoresUnlabelled | cogspaces/model/trace.py:130-133 | predictions at unlabelled entries do not affect the loss |
| TraceNumerics.CrossEntropyNonnegative | cogspaces/model/trace.py:126-134 | for log-probabilities (all <= 0) the loss is defined and non-negative |
| TraceNumerics.OneHotRow | cogspaces/model/trace.py:130-133 | for a one-hot row the row's contribution is the prediction of its class |
| TraceNumerics.MajorizerOfGradientStep | cogspaces/model/trace.py:111-123 | at the unthresholded step the majorizer equals loss - (squared gradient norm) / (2L), hence never exceeds the loss |
| TraceNumerics.MajorizerOfDisplacement | cogspaces/model/trace.py:117-122 | for a displacement c * grad the majorizer is loss + c*norm^2 + L/2 * c^2 * norm^2 |
| TraceNumerics.MajorizerAtCurrentPoint | cogspaces/model/trace.py:117-122 | the majorizer at the current point is the loss itself |
| TraceLayout.Limits | cogspaces/model/trace.py:213-215 | limits start at 0, each adds the next class count, and the last is the total |
| TraceLayout.LimitsMonotone | cogspaces/model/trace.py:214 | the limits never decrease |
| TraceLayout.ClassSlices | cogspaces/model/trace.py:228-231 | one slice per dataset, as wide as its class count, each starting where the previous ends, from 0 to the total |
| TraceLayout.ClassInExactlyOneSlice | cogspaces/model/trace.py:228-231 | every class below the total lies in exactly one dataset's slice |
| TraceLayout.PaddingIsExact | cogspaces/model/trace.py:233-236 | a padded label matrix has total_size columns, gives back y inside its slice, and is zero elsewhere |
| TraceLayout.PadTarget | cogspaces/model/trace.py:234-236 | the fill loops build exactly the padded matrix |
| TraceLayout.NormalisedWeights | cogspaces/model/trace.py:217-221 | no weights gives all ones; non-empty given weights are divided by their mean, keeping their ratios, with mean 1 afterwards; an empty list stays empty; only a zero mean is an error |
| TraceLayout.NormalisedMeanIsOne | cogspaces/model/trace.py:220-221 | weights divided by their non-zero mean average to 1 and times the mean give back the originals |
| TraceSolver.PenaltyGradient | cogspaces/model/trace.py:49-58 | with beta > 0 the coefficient gradient is the data gradient plus beta * coef; with beta <= 0 it is the data gradient alone |
| TraceSolver.PenaltyExpansion | cogspaces/model/trace.py:48-58 | beta * coef is the exact first-order term of the penalty 0.5 * beta * norm^2: moving coef by d changes the penalty by <beta * coef, d> + 0.5 * beta * norm(d)^2 |
| TraceSolver.SearchOutcome | cogspaces/model/trace.py:61-87 | the line search fails only on a zero L, divider or Lmax, and succeeds when all three are non-zero; the budget is kept, or collapsed to 1 with L = Lmax; from 0 < L <= Lmax with a divider >= 1, L only grows and stays <= Lmax |
| TraceSolver.SearchResult | cogspaces/model/trace.py:61-87 | with a budget below two nothing is tested and L and the budget come back unchanged; an accepted step keeps the budget, passed the majorizer test at the returned L and returns the candidate's loss; otherwise the loss at the current point is returned |
| TraceSolver.FirstTrialAccepted | cogspaces/model/trace.py:61-79 | with a budget of at least two, a first candidate that passes the test is accepted at the given L, with the budget unchanged and the candidate's loss |
| TraceSolver.Rejected | cogspaces/model/trace.py:61-85 | after k rejected trials from trial j the search goes on at trial j + k with the k-fold backtracked L and budget, and that budget is within the starting one |
| TraceSolver.StepOutcome | cogspaces/model/trace.py:157-181 | one iteration fails with the unbound-rank error exactly when its budget is 0, and with the non-finite error only for a zero L, divider or Lmax; a successful one has a non-zero L and keeps the budget or collapses it to 1 with L = Lmax |
| TraceSolver.RunOutcome | cogspaces/model/trace.py:150-181 | a run of n iterations fails with the unbound-rank error exactly when n > 0 and the budget is 0, and with the non-finite error only for a zero L0, divider or Lmax; it ends with the budget kept or collapsed to 1 with L = Lmax |
| TraceSolver.RunStaysFailed | cogspaces/model/trace.py:150-170 | once an iteration fails, every longer run ends with the same error |
| TraceSolver.ExtrapolationIsOverRelaxation | cogspaces/model/trace.py:176-177 | the same point is prox + w * (prox - old_prox) |
| TraceSolver.ExtrapolationByZero | cogspaces/model/trace.py:172-177 | a zero weight (t = 1, the first iteration) leaves the candidate unchanged |
| TraceSolver.MomentumGrowth | cogspaces/model/trace.py:173-174 | t' = (1 + sqrt(1 + 4t^2)) / 2 grows by at least 1/2 and the weight (t - 1) / t' lies in [0, 1) |
| TraceSolver.Workspace.constructor | cogspaces/model/trace.py:244-254 | fresh distinct buffers; coef all ones, intercept all zeros |
| TraceSolver.Workspace.SmoothLoss | cogspaces/model/trace.py:102-108 | the loop computes 0.5 * beta * norm^2 plus the sum of cross-entropy / n_datasets * weight |
| TraceSolver.Workspace.ComputeGradient | cogspaces/model/trace.py:46-58 | the gradient buffers hold the full coefficient and intercept gradients |
| TraceSolver.Workspace.GradientStep | cogspaces/model/trace.py:62-63 | the candidate buffers hold coef - grad / L and intercept - grad / L |
| TraceSolver.Workspace.Shrink | cogspaces/model/trace.py:64-65 | the candidate becomes its reconstruction after thresholding at alpha / L, and the rank is the count of singular values above the threshold |
| TraceSolver.Workspace.Trial | cogspaces/model/trace.py:61-67 | after one attempt the buffers hold the (thresholded when alpha > 0) candidate at L, and the rank is full when alpha <= 0 |
| TraceSolver.Workspace.Test | cogspaces/model/trace.py:68-79 | the returned loss is the candidate's loss, and the candidate is accepted exactly when that loss is at most the quadratic majorizer at the current point |
| TraceSolver.Workspace.ProxGrad | cogspaces/model/trace.py:39-87 | the gradient buffers hold the gradient at the iterate; the returned L, budget, acceptance and loss are exactly the line search's outcome, or its error; a zero budget is the unbound-rank error and nothing else is; the buffers hold the candidate at the final L; the budget stays or collapses to 1 with L = Lmax; L only grows and stays <= Lmax; budgets <= 1 never test; an accepted step passes the majorizer test and a rejected run keeps the current loss |
| TraceSolver.Workspace.Backtracking | cogspaces/model/trace.py:61-87 | with the loss and gradient in place, the trial loop computes exactly the line search and leaves the candidate at the final L in the buffers |
| TraceSolver.Workspace.UpdateIterate | cogspaces/model/trace.py:172-181 | with momentum t grows by at least 1/2, coef becomes the extrapolation with weight in [0, 1) and old_prox the candidate; without momentum coef becomes the candidate; the intercept always does |
| TraceSolver.Workspace.Advance | cogspaces/model/trace.py:157-181 | one iteration on the buffers: the new coef, intercept, old_prox, t, L and budget are exactly the iteration function applied to the old ones, or its error |
| TraceSolver.Workspace.IstaLoop | cogspaces/model/trace.py:137-181 | the buffers end as the run of max_iter iterations from (coef, intercept, zeros, t = 1, L0, budget), or the loop stops with that run's error; the unbound-rank error exactly when max_iter > 0 and the budget is 0; t >= 1 + max_iter / 2 with momentum (1 without); the final L and budget keep the bounds of a single step; zero iterations change nothing; the last candidate becomes the iterate |
| TraceSolver.Workspace.Iterations | cogspaces/model/trace.py:150-181 | from the buffers as they stand and t = 1, the loop computes the run of max_iter iterations, or stops with the first failing iteration's error |
| TraceSolver.Workspace.QuadApprox | cogspaces/model/trace.py:111-123 | the difference buffers hold prox - current and the result is the majorizer |
| TraceSolver.Backtrack | cogspaces/model/trace.py:82-85 | L * divider above Lmax gives (Lmax, 1), otherwise (L * divider, budget); so L never exceeds Lmax, stays non-zero, and does not shrink for a divider >= 1 |
| TraceSolver.DifferenceInto | cogspaces/model/trace.py:118-122 | the loop fills prox - x and returns its dot product with the gradient and its squared norm |
| TraceSolver.Fill | cogspaces/model/trace.py:145 | every entry is set to the value |
| TraceSolver.CopyInto | cogspaces/model/trace.py:178 | the destination becomes a copy of the source |
| TraceSolver.ExtrapolateInto | cogspaces/model/trace.py:176-177 | the destination holds the momentum extrapolation |
| TraceEstimator.TraceNormEstimator.constructor | cogspaces/model/trace.py:184-205 | keeps the configuration; nothing fitted yet |
| TraceEstimator.TraceNormEstimator.Fit | cogspaces/model/trace.py:207-268 | errors in the order the model checks them (no data, invalid arrays, a zero weight mean, missing targets, Lipschitz, zero multiplier, shape mismatch, solver); slices_ written before the later failures; an empty weight list fails only in the Lipschitz bound; the solver runs from ones and zeros at L0 = Lmax / multiplier on the training problem (padded labels and full-width slices in split-loss mode), and coef_ and intercept_ are that run's final iterate |
| TraceEstimator.Train | cogspaces/model/trace.py:233-266 | Lmax is the Lipschitz bound and L0 = Lmax / multiplier; in split-loss mode the training problem has each label matrix padded into its slice and every training slice [0, total_size), otherwise the original labels and slices; the result is the solver run from there, or its error |
| TraceEstimator.Solve | cogspaces/model/trace.py:244-266 | fresh buffers run through the loop; the returned coef and intercept are the final iterate of the run from ones, zeros, L0 and the budget, or the loop stops with that run's error |
| TraceEstimator.BuildSlices | cogspaces/model/trace.py:228-231 | the slice loop builds one class slice per dataset; with fewer label matrices than datasets it stops after the slices of all label matrices |
| TraceEstimator.PadTargets | cogspaces/model/trace.py:233-238 | every dataset's labels are padded into its own slice |
| TraceEstimator.FirstNonConforming | cogspaces/model/trace.py:51-53 | the first dataset whose shapes do not fit the stacked problem: it does not conform and every dataset before it does; none exactly when all conform |
| PyText.Adjust | cogspaces/datasets/contrasts.py:26 | a slice bound as Python reads it: a bound inside the sequence is kept, a negative one counts from the end, and the result is always clipped to the length |
| PyText.PySlice | cogspaces/datasets/contrasts.py:26 | a Python slice `s[a:b]` is never longer than the sequence |
| PyText.SliceBetweenAffixes | cogspaces/datasets/contrasts.py:26 | s[len(a):-len(c)] on a + b + c gives b for a non-empty c |
| PyText.SliceHead | cogspaces/datasets/contrasts.py:46 | s[:n] keeps the first n, or all but the last -n |
| PyText.ParseShowInt | cogspaces/datasets/contrasts.py:27 | int() reads back any printed integer |
| PyText.ParseZeroPadded | cogspaces/datasets/contrasts.py:27 | int() reads back a zero-padded number |
| PyText.ParseIgnoresSpaces | cogspaces/datasets/contrasts.py:27 | surrounding whitespace does not change int() |
| PyText.Split | cogspaces/datasets/contrasts.py:24-25 | os.path.split: the tail is a suffix without '/' |
| PyText.SplitJoin | cogspaces/datasets/contrasts.py:24-25 | splitting a joined path gives back both parts |
| PyText.JoinSplit | cogspaces/datasets/contrasts.py:24 | joining the two parts of a split gives back any path that has no '//' |
| Contrasts.ParseCamcan | cogspaces/datasets/contrasts.py:23-37 | the contrast is the file name's [13:-15] and the subject int() of the directory name's [6:]; a row exactly for the five listed contrasts, with audio-video for AudOnly/VidOnly and AV-freq otherwise, level1; the subject is parsed first, so a bad directory fails even for a discarded contrast |
| Contrasts.CamcanRoundTrip | cogspaces/datasets/contrasts.py:17-37 | the path of subject id and contrast on the camcan layout parses back to exactly that row |
| Contrasts.MatchesVsMeans | cogspaces/datasets/contrasts.py:63-65 | the pattern '.*vs.*' matches exactly when "vs" occurs before the first newline |
| Contrasts.ParseBrainomics | cogspaces/datasets/contrasts.py:63-74 | no row exactly when the pattern matches; otherwise the contrast is the file name's [6:-7] and the subject int() of the directory's last two characters, in a localizer, level1 row; failure exactly when those two characters are not an integer |
| Contrasts.BrainomicsRoundTrip | cogspaces/datasets/contrasts.py:57-74 | a layout path without "vs" parses back to its subject and contrast |
| Contrasts.ParseGlm | cogspaces/datasets/contrasts.py:118-130 | the contrast is file[2:-7]; no row exactly when the filter rejects it; a row is level1, keeps the path, its task is the name of the file's grandparent directory and its subject int() of the last three characters of the next directory up; failure exactly for a kept contrast whose subject is not an integer |
| Contrasts.ParseArchi | cogspaces/datasets/contrasts.py:88-130 | rows only for the thirty listed contrasts, dropped paths are exactly the others |
| Contrasts.ParseUnfiltered | cogspaces/datasets/contrasts.py:156-167 | every successfully parsed path gives a row |
| Contrasts.GlmRoundTrip | cogspaces/datasets/contrasts.py:112-130 | the layout path of subject id, task and contrast parses back to that row when the contrast is kept and to nothing otherwise |
| Contrasts.CollectedRows | cogspaces/datasets/contrasts.py:23-37 | a loop that does not fail parsed every path, and its rows are exactly the rows of the kept paths |
| Contrasts.CollectedFailure | cogspaces/datasets/contrasts.py:23-27 | the loop fails exactly when some path fails, with the first failing path's error |
| Contrasts.CollectedEveryPath | cogspaces/datasets/contrasts.py:156-167 | when every path is kept the rows are the paths' rows one for one in order |
| Contrasts.Tabulate | cogspaces/datasets/contrasts.py:30-42 | the five lists have equal length and their k-th entries form the k-th row |
| Contrasts.Collect | cogspaces/datasets/contrasts.py:18-37 | the loop appending to the five lists fills them with the collected rows, or stops with the first error |
| Contrasts.SortedSubjects | cogspaces/datasets/contrasts.py:43-45 | the distinct subjects, strictly increasing, exactly those of the rows |
| Contrasts.KeptAreSmallest | cogspaces/datasets/contrasts.py:44-46 | the kept subjects are a prefix of the sorted distinct ones: n of them (or all), all but the last -n for negative n, all for None, each smaller than every dropped one |
| Contrasts.SelectedRows | cogspaces/datasets/contrasts.py:46 | a row is kept exactly when its subject is kept, so subjects keep all their rows or none, and the kept rows' subjects are the kept subjects |
| Contrasts.SelectAll | cogspaces/datasets/contrasts.py:46 | n_subjects = None keeps every row |
| Contrasts.Fetch | cogspaces/datasets/contrasts.py:10-47 | a level-1 fetcher: the collected rows of the kept subjects as the five lists, or the first error |
| Contrasts.CamcanRows | cogspaces/datasets/contrasts.py:23-46 | every camcan row has a listed contrast, its task, level1 and one of the input paths |
| Contrasts.BrainomicsRows | cogspaces/datasets/contrasts.py:64-74 | no brainomics row comes from a "vs" path, and every other path gives a localizer row |
| Contrasts.ArchiRows | cogspaces/datasets/contrasts.py:118-139 | every archi row has one of the thirty contrasts |
| Contrasts.UnfilteredRows | cogspaces/datasets/contrasts.py:193-204 | human_voice and la5c give one row per path, in path order |
| Contrasts.GatheredStops | cogspaces/datasets/contrasts.py:222-240 | a listing loop stopped by an error returns that error |
| Contrasts.GatheredFrom | cogspaces/datasets/contrasts.py:222-240 | each record of a successful listing loop comes from one listed entry |
| Contrasts.GatheredOneEach | cogspaces/datasets/contrasts.py:232-240 | one record per entry gives one record per entry in listing order |
| Contrasts.MapRecord | cogspaces/datasets/contrasts.py:233-240 | task int(map[4:7]), contrast map[8:-7], level2, z_map joined onto the subject's map directory; failure exactly when the task is not an integer |
| Contrasts.FetchBrainpedia | cogspaces/datasets/contrasts.py:217-243 | the outer loop over datasets computes the brainpedia records; a listing error is returned as is; no record at all is the KeyError of `set_index` on a frame without columns; a successful fetch is the non-empty list of records |
| Contrasts.FetchSubjects | cogspaces/datasets/contrasts.py:224-240 | the loop over a dataset's entries computes the gathered per-entry records, where an entry named 'models' gives none and every other entry parses its subject before its maps |
| Contrasts.FetchMaps | cogspaces/datasets/contrasts.py:231-240 | the loop over a subject's maps appends one record per map |
| Contrasts.OneRecordPerMap | cogspaces/datasets/contrasts.py:231-240 | maps whose task parses give one record each, in listing order |
| Contrasts.SubjectProvenance | cogspaces/datasets/contrasts.py:225-240 | every record of an entry comes from a non-'models' entry whose name gives the subject, and from one of its maps |
| Contrasts.BrainpediaProvenance | cogspaces/datasets/contrasts.py:217-241 | every record is level2 and comes from a listed dataset, one of its non-'models' entries and one of that entry's maps |
| Contrasts.ModelsEntriesIgnored | cogspaces/datasets/contrasts.py:226-227 | removing the 'models' entries from a dataset listing changes nothing |

## Left out

- The SVD, exp, log and the matrix products are parameters (`Numerics`), so the model does not compute them. This covers `_predict` (log-softmax predictions), the gradient products `X.T (exp(pred) - y)`, `np.linalg.svd`, `trace_norm` and `np.linalg.matrix_rank`. The cross-entropy the solver sees is a parameter too; `TraceNumerics.CrossEntropy` models `cross_entropy` itself on given predictions.
- Whether `_prox_grad` always accepts a step when `Lmax` is a true Lipschitz bound is not proved. That needs smoothness of the real loss, which the parameters do not carry. `TraceSolver.Workspace.ProxGrad` proves what the code does for any loss.
- Reals replace float32 and float64: rounding, overflow and `nan` propagation are not modelled. Division by zero is an error value, as described above.
- `Workspace`: the coefficient matrices are flat row-major arrays. Every operation on them in the source is elementwise or a full reduction. `np.empty_like` buffers start as zeros in the model.
- TraceLayout.NormalisedWeights: a zero mean of non-empty weights is an error in the model; numpy would go on with `inf`/`nan` weights.
- TraceEstimator.TraceNormEstimator.Fit: numpy raises nothing on a zero weight mean, while the model stops there with `Weights(ZeroMeanWeight)`, before `slices_` is written. An empty weight list goes on, as in the source, and fails in `lipschitz_constant` (trace.py:15) as the Lipschitz error `WeightShape`, after `slices_` is written.
- TraceSolver.PenaltyGradient: with beta < 0 the gradient leaves the penalty out (trace.py:57-58) while `_loss` keeps it (trace.py:105). The model follows the code in both places.
- `TraceSolver.Workspace.UpdateIterate` requires t >= 1 and a true square root. The loop starts t at 1 and keeps it there or above.
- `verbose` reporting and every `print` are left out, and so is the per-iteration loss that only feeds them.
- Negative `max_iter` or `max_backtracking_iter` are not modelled; both are `nat` (Python's `range` of a negative count is empty).
- `predict`, `score` and `check_Xs_ys`'s dtype casting are left out. `check_array`'s rejection of empty or ragged arrays is one error, `InvalidArray`.
- `TraceEstimator.FirstNonConforming` stands for the shape errors numba raises inside the solver. The model checks them up front and reports the first mismatching dataset.
- The fetchers' directory access is not modelled. `get_data_dirs`, `os.path.exists` and its `ValueError`, `glob.glob` and `os.listdir` are inputs: a list of paths, or a listing per directory.
- The DataFrame row order after `sort_index` is not modelled. The fetchers keep rows in input order, and `SortedSubjects` states the sorted subject order that `n_subjects` uses.
- `int()` accepts Latin-1 whitespace and ASCII digits only. Other Unicode whitespace and digits are not modelled.
- `Contrasts.MatchesVsMeans` models `re.match('.*vs.*')` only, not Python's regular expressions in general.
