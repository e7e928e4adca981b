# Armory metrics and the GTSRB poisoning scenario, modelled in Dafny

This project models two parts of the Armory adversarial-robustness framework.

The first is the metric accumulation layer in `armory/utils/metrics.py`:
- the per-sample scorers `categorical_accuracy`, `top_n_categorical_accuracy` and `top_5_categorical_accuracy`;
- `MetricList`, an append-only list of per-sample scores with `clear` and `mean`;
- `MetricsLogger`, which holds three groups of metric lists (benign, adversarial, perturbation), routes updates to one group, and builds a flat results map;
- the computational-resource ledger that `resource_context` updates.

The second is `armory/scenarios/poisoning_gtsrb_scenario.py`:
- `poison_dataset`, which replaces the chosen source-class samples by the attack's output;
- the way `GTSRB._evaluate` builds the in-memory training set, both preloaded and poisoned in place;
- the defense's keep-mask filter and the decision to skip training;
- the routing of predictions to the four accuracy metrics, and the result keys it reports.

The pure scorers are functions over a small numpy-array datatype (`Accuracy.Array`: a scalar, a vector or a matrix of integer scores). `MetricList`, `MetricsLogger` and the ledger are classes whose methods change their fields. Every `for` statement of the source is a method with a loop, proved against a specification function (list comprehensions are sequence comprehensions inside functions): `PoisonDataset` against `PoisonedAll`, `Results` against `AllResults`, `Evaluate` against `EvaluationResults`. The properties the source promises are lemmas about those functions.

Outside collaborators are function-typed parameters:
- the attack's `poison` (`Poisoning.Attack`);
- the classifier's `fit` and `predict` (`Evaluation.Predict`, applied to a `TrainingSet.TrainPlan`);
- the defense's `detect_poison` (`TrainingSet.Detector`);
- `np.random.choice` (`Poisoning.Draw`, constrained by `DrawsWithoutReplacement`);
- the floating-point metrics (`MetricLists.ExternalScorers`).

Datasets are sequences of batches. Elapsed time and profiler text are inputs.

A logger whose adversarial group never received an update cannot report results when `means` is set. `results()` raises a ZeroDivisionError for the first empty metric, even when the benign group is complete. `MetricsResults.BenignOnlyLoggerRaises` shows this on a concrete logger. The model keeps this behaviour, as the code has it.

## Model

| member | source | states |
|---|---|---|
| Common.Trunc | armory/scenarios/poisoning_gtsrb_scenario.py:143 | Python's `int()` of a float truncates toward zero: the result is the integer at or below a non-negative value and at or above a negative one |
| Common.Repeat | armory/scenarios/poisoning_gtsrb_scenario.py:233 | `[v] * n` is a list of exactly n copies of v |
| Common.NatToString | armory/utils/metrics.py:390 | a count formats as `str(n)` does: a non-empty string of decimal digits whose decimal value is n, with no leading zero except for 0 itself |
| Common.NatToStringInjective | armory/utils/metrics.py:390 | distinct execution counts give distinct strings, so the average-time key names its count unambiguously |
| Common.SumAppend | armory/utils/metrics.py:272 | the sum in `mean` is additive over concatenation, so appending a batch adds its sum |
| Accuracy.Argmax | armory/utils/metrics.py:36-37 | numpy argmax over a row is an index of a maximum, and no earlier index holds that maximum |
| Accuracy.ArgmaxRows | armory/utils/metrics.py:37 | argmax along the last axis gives one index per row, each the argmax of its row |
| Accuracy.CompareLabels | armory/utils/metrics.py:33 | `y == y_pred` on label vectors succeeds exactly for equal lengths or a length-1 side, and otherwise raises the broadcast error; equal lengths give 1 exactly where the labels agree, and a length-1 side is compared with every element of the other |
| Accuracy.CategoricalAccuracy | armory/utils/metrics.py:22-39 | every score is 0 or 1; a zero-dimensional label is promoted first; equal shapes score `y[i] == y_pred[i]`, element by element for label vectors, and vectors of different lengths raise the mismatched-dimensions ValueError; one extra dimension of as many rows scores `y[i] == argmax(y_pred[i])`; a zero-width score matrix raises in argmax; any other rank relation raises the mismatched-dimensions ValueError |
| Accuracy.Indices | armory/utils/metrics.py:66 | the class indices of a score row are exactly 0 to width-1 |
| Accuracy.TopNCategoricalAccuracy | armory/utils/metrics.py:49-71 | n below 1 raises; n equal to 1 is exactly categorical_accuracy; for n of 2 or more, two label vectors raise (different lengths, else "Must supply multiple predictions"), a label vector against a score matrix scores exactly when the row count matches, 1 exactly when the label is among the n highest-ranked classes, and a scalar label against a score vector scores whether it is among the top n |
| Accuracy.CategoricalAccuracyBroadcast | armory/utils/metrics.py:29-34 | one extra dimension with a row count other than the label count succeeds exactly when one side has length 1, and otherwise raises the broadcast error; a single label is compared with the argmax of every row, a single row's argmax with every label |
| Accuracy.CategoricalAccuracyOnMatrices | armory/utils/metrics.py:27-39 | two matrices of different shapes raise the mismatched-dimensions ValueError; equal shapes with one column, or no rows, score `y[i][0] == y_pred[i][0]` row by row; equal shapes with a wider non-empty matrix raise the `int()` TypeError |
| Accuracy.CategoricalAccuracyEmptyScores | armory/utils/metrics.py:27-33 | a zero-dimensional label against an empty score vector raises in argmax |
| Accuracy.TopNShapeErrors | armory/utils/metrics.py:54-71 | for n of 2 or more: equal shapes (scalars, vectors or matrices) raise "Must supply multiple predictions"; a zero-dimensional y_pred against a label vector or matrix raises the `len()` TypeError; a label vector against a score matrix of another row count raises the length error; a scalar label against a score matrix raises the dimension error; a label matrix raises the length error for a different length, else the dimension error unless the shapes are equal |
| Accuracy.Top5CategoricalAccuracy | armory/utils/metrics.py:42-46 | top-5 accuracy is top-n accuracy with n = 5 |
| Accuracy.RankBelowClasses | armory/utils/metrics.py:66 | in the argsort, every class has a rank below the number of classes |
| Accuracy.TopNCoversAllClasses | armory/utils/metrics.py:66-69 | when n is at least the number of classes, every class is among the top n |
| Accuracy.TopNDominates | armory/utils/metrics.py:66-69 | a class among the top n scores at least as high as any class outside them |
| Accuracy.RankInjective | armory/utils/metrics.py:66 | the argsort puts distinct classes at distinct positions |
| Accuracy.RanksArePermutation | armory/utils/metrics.py:66 | the argsort is a permutation of the classes: every position 0 to width-1 holds exactly one class |
| Accuracy.TopClassesSize | armory/utils/metrics.py:66-69 | `argsort(row)[-n:]` holds exactly min(n, width) classes |
| Accuracy.TopNAllHitsWhenNCoversClasses | armory/utils/metrics.py:61-69 | with n at least the number of classes, every sample with a valid label scores 1 |
| MetricLists.AsReals | armory/utils/metrics.py:272 | the values a list keeps are the scorer's 0/1 outputs as numbers, one for one, and a scorer error passes through unchanged |
| MetricLists.Resolve | armory/utils/metrics.py:220-234 | a name outside the registry is a KeyError; categorical and top-5 accuracy resolve to those scorers; the three-argument scorers fail when called with two arguments; the rest are the floating-point scorers |
| MetricLists.MeanOf | armory/utils/metrics.py:271-272 | the mean fails with a division by zero exactly when there are no values, and otherwise times the count equals the sum |
| MetricLists.SumBounds | armory/utils/metrics.py:272 | the sum of scores in [0, 1] lies between 0 and the count |
| MetricLists.MeanIsFraction | armory/utils/metrics.py:271-272 | the mean of accuracy scores lies in [0, 1] |
| MetricLists.MetricList.constructor | armory/utils/metrics.py:242-253 | a list built from a name and a callable keeps both and starts empty |
| MetricLists.MetricList.FromName | armory/utils/metrics.py:242-253 | construction by name raises a KeyError exactly for unknown names; otherwise the list is fresh, empty, and scores with the registry's function |
| MetricLists.MetricList.Clear | armory/utils/metrics.py:255-256 | clear empties the values; the name and the function are constants |
| MetricLists.MetricList.Append | armory/utils/metrics.py:258-260 | append extends the values by exactly the function's output and keeps the earlier values; a raising function leaves the values alone |
| MetricLists.MetricList.Length | armory/utils/metrics.py:265-266 | len() is the number of recorded values |
| MetricLists.MetricList.Values | armory/utils/metrics.py:268-269 | values() returns the recorded values, as a value that later appends cannot change |
| MetricLists.MetricList.Mean | armory/utils/metrics.py:271-272 | mean() is the mean of the current values |
| MetricLists.ClearedMeanFails | armory/utils/metrics.py:255-256 | after clear(), mean() raises a division by zero, whatever was recorded before |
| Resources.Ledger.constructor | armory/utils/metrics.py:300 | the ledger starts empty |
| Resources.Recorded | armory/utils/metrics.py:185-193 | recording a run adds 1 to execution_count and the elapsed time to total_time, both starting from 0 for a new name; under the deterministic profiler the profile text is appended to text stats, and on an existing entry without text stats the append fails and leaves the stats 0, the value the defaultdict stored when the key was read |
| Resources.ResourceContext | armory/utils/metrics.py:161-194 | with no profiler the ledger is untouched; an unknown profiler raises before the body; a raising body records nothing; otherwise only the entry for this name changes, and a new name is added at the end of the ledger's order |
| Resources.RecordingKeepsReportable | armory/utils/metrics.py:185-191 | recording keeps every entry complete and counted, raises this name's count by exactly 1, and leaves every other name unchanged |
| MetricsResults.FirstEmpty | armory/utils/metrics.py:369-378 | the first metric of a group that has no values |
| MetricsResults.GroupResultsFailure | armory/utils/metrics.py:369-378 | a group's results fail exactly when means is set and some metric is empty; the error names the first empty metric as `{prefix}_{name}` |
| MetricsResults.GroupResultsKeys | armory/utils/metrics.py:369-374 | a group adds exactly the keys `{prefix}_{name}` when per-sample recording is set and `{prefix}_mean_{name}` when means is set |
| MetricsResults.RegistryHasNoMeanPrefix | armory/utils/metrics.py:220-234 | no registry name starts with `mean_` |
| MetricsResults.KeysDoNotClash | armory/utils/metrics.py:371-374 | a per-sample key never equals a mean key of the same prefix |
| MetricsResults.PerSampleKeyInjective | armory/utils/metrics.py:371 | distinct metric names give distinct per-sample keys |
| MetricsResults.PerSampleValue | armory/utils/metrics.py:370-371 | with distinct names, the per-sample key of each metric holds exactly that metric's values |
| MetricsResults.MeanKeyInjective | armory/utils/metrics.py:374 | distinct names give distinct mean keys |
| MetricsResults.MeanValue | armory/utils/metrics.py:372-374 | with means reported and distinct names, the mean key of each metric holds exactly the mean of that metric's values |
| MetricsResults.ReportableLedgerResults | armory/utils/metrics.py:380-391 | a ledger of complete entries never raises, and reports an average-time key for every name |
| MetricsResults.AverageTime | armory/utils/metrics.py:381-393 | the reported average is total_time divided by execution_count, and the stats key appears exactly when the entry has stats, holding their text or 0 |
| MetricsResults.BasicThenDeterministicReportsZero | armory/utils/metrics.py:185-193 | a name profiled with Basic and then with Deterministic raises the TypeError on the second run, yet results() reports a count of 2, the average of both times and stats 0 |
| MetricsResults.BenignOnlyLoggerRaises | armory/utils/metrics.py:364-378 | a benign group gets its mean, but an empty adversarial metric makes the whole of results() raise, naming `adversarial_categorical_accuracy` |
| MetricsLogging.NameSeq | armory/utils/metrics.py:312-320 | None gives no names and a string gives one; any other type raises a ValueError |
| MetricsLogging.FirstUnknown | armory/utils/metrics.py:321 | the first name that the registry does not know |
| MetricsLogging.GenerateCounters | armory/utils/metrics.py:312-321 | counters fail exactly on a bad type or an unknown name, with that error; otherwise one fresh, empty, distinct list per name, in order, each scoring with the registry's function (`Counters`) |
| MetricsLogging.FirstFailing | armory/utils/metrics.py:333-334 | the first metric of a group whose function raises on the batch |
| MetricsLogging.AppendAll | armory/utils/metrics.py:333-334 | every metric before the first raising one gets the batch's scores appended; that one and all later ones are unchanged; the error is the raising function's |
| MetricsLogging.FirstFailingIs | armory/utils/metrics.py:333-334 | the first raising metric is determined by the scorers alone |
| MetricsLogging.Snap | armory/utils/metrics.py:369-371 | a group read as (name, values) pairs, one per metric, in order |
| MetricsLogging.GroupFailurePersists | armory/utils/metrics.py:373-378 | once a group's results raise, later metrics do not change the outcome |
| MetricsLogging.LedgerFailurePersists | armory/utils/metrics.py:380-385 | once a ledger entry raises, later entries do not change the outcome |
| MetricsLogging.AddMetric | armory/utils/metrics.py:370-378 | one metric adds its values under `<prefix>_<name>` when full, its mean under `<prefix>_mean_<name>` when means, and an empty metric raises the ZeroDivisionError naming `<prefix>_<name>` |
| MetricsLogging.AddGroup | armory/utils/metrics.py:369-378 | the results loop over one group computes exactly the group's specified results |
| MetricsLogging.AddLedger | armory/utils/metrics.py:380-393 | the loop over the ledger computes exactly the ledger's specified results |
| MetricsLogging.MetricsLogger.Init | armory/utils/metrics.py:295-300 | the logger keeps the three groups and the two flags, and gets a fresh, empty ledger |
| MetricsLogging.MetricsLogger.Create | armory/utils/metrics.py:280-310 | construction fails exactly when the task or perturbation names are bad, task first; otherwise benign and adversarial groups are built separately from the same names, every list is fresh and empty, every list scores with the registry's function for its name, and the ledger starts empty whatever dictionary was passed |
| MetricsLogging.MetricsLogger.Clear | armory/utils/metrics.py:327-329 | clear empties every list of all three groups |
| MetricsLogging.MetricsLogger.UpdateTask | armory/utils/metrics.py:331-334 | the batch goes to the selected task group in order, and the other task group and the perturbation group are unchanged |
| MetricsLogging.MetricsLogger.UpdatePerturbation | armory/utils/metrics.py:336-338 | the pair goes to the perturbation group in order, and both task groups are unchanged |
| MetricsLogging.MetricsLogger.DisjointGroups | armory/utils/metrics.py:295-297 | no metric list belongs to two groups |
| MetricsLogging.LogMeans | armory/utils/metrics.py:353-357 | the logging loop writes one line per metric, with its name, the task type and its mean, in order, up to the first empty metric, whose mean raises a ZeroDivisionError |
| MetricsLogging.MetricsLogger.LogTask | armory/utils/metrics.py:340-357 | a targeted benign task raises a ValueError before logging; otherwise the selected group's metrics log their means in order with the task type, prefixed `targeted ` when targeted, until the first empty metric raises a ZeroDivisionError |
| MetricsLogging.MetricsLogger.Results | armory/utils/metrics.py:359-394 | results() is exactly the specified map: the benign, adversarial and perturbation groups in that order, then the ledger in insertion order |
| Poisoning.ChannelsFirst | armory/scenarios/poisoning_gtsrb_scenario.py:40 | the (2, 0, 1) transpose moves the channel axis first, entry by entry |
| Poisoning.ChannelsLast | armory/scenarios/poisoning_gtsrb_scenario.py:42 | the (1, 2, 0) transpose moves the channel axis last, entry by entry |
| Poisoning.ChannelRoundTrip | armory/scenarios/poisoning_gtsrb_scenario.py:40-42 | transposing an image channels-first and back gives the same image |
| Poisoning.ChannelRoundTripBack | armory/scenarios/poisoning_gtsrb_scenario.py:40-42 | the two transposes are inverse in the other order too |
| Poisoning.PoisonDataset | armory/scenarios/poisoning_gtsrb_scenario.py:27-50 | the loop computes exactly the specified poisoned set: `ds_size` images and labels, and an index error when ds_size exceeds the inputs |
| Poisoning.OnlyChosenSourceSamplesChange | armory/scenarios/poisoning_gtsrb_scenario.py:39-46 | a position changes only if its label is the source class and its index was chosen |
| Poisoning.ChosenSamplesArePoisoned | armory/scenarios/poisoning_gtsrb_scenario.py:39-46 | when every chosen index has the source label, a position holds the transposed attack output exactly when chosen, and its original sample otherwise |
| Poisoning.IdentityAttackKeepsImages | armory/scenarios/poisoning_gtsrb_scenario.py:39-46 | an attack that keeps images leaves every image unchanged |
| Poisoning.ShapePreservingAttackKeepsShape | armory/scenarios/poisoning_gtsrb_scenario.py:40-42 | an attack that keeps the channels-first shape gives back images of the original (W, H, C) shape |
| Poisoning.PositionsOf | armory/scenarios/poisoning_gtsrb_scenario.py:148 | `np.where(y == src)[0]` lists, in increasing order, exactly the positions holding src |
| Poisoning.PositionsOfCount | armory/scenarios/poisoning_gtsrb_scenario.py:142-148 | there are as many such positions as occurrences of src |
| Poisoning.MaxLabel | armory/scenarios/poisoning_gtsrb_scenario.py:142 | the largest label, which sets the bincount's length |
| Poisoning.BincountAt | armory/scenarios/poisoning_gtsrb_scenario.py:142 | `np.bincount(y)[src]` raises on negative labels, on an empty input, and on a class outside the bincount; otherwise it counts src, with a negative class counting the class max(y) + 1 + src; negative labels are the ValueError and the other failures the IndexError |
| Poisoning.BincountOfPresentClass | armory/scenarios/poisoning_gtsrb_scenario.py:142-148 | for a present class, the bincount equals the number of source positions |
| Poisoning.PrefixDraw | armory/scenarios/poisoning_gtsrb_scenario.py:149-151 | drawing without replacement is satisfiable for every size up to the population |
| Poisoning.DrawnFromSource | armory/scenarios/poisoning_gtsrb_scenario.py:148-151 | every drawn index had the source label |
| Poisoning.PoisonCount | armory/scenarios/poisoning_gtsrb_scenario.py:142-143 | `poison_count` is `int(fraction * bincount[src])` and fails where the bincount fails |
| Poisoning.PoisonTrainingSet | armory/scenarios/poisoning_gtsrb_scenario.py:141-160 | in-place poisoning computes exactly the specified set: count, draw, then poison_dataset over every row; a negative or too large sample size raises |
| Poisoning.PoisonWithCount | armory/scenarios/poisoning_gtsrb_scenario.py:148-160 | with the count known, a negative size or one above the number of source positions raises, and otherwise poison_dataset runs over the draw from the source positions |
| Poisoning.CountWithinPopulation | armory/scenarios/poisoning_gtsrb_scenario.py:142-148 | for a present class and a fraction in [0, 1], the poison count lies between 0 and the number of source positions |
| Poisoning.PoisonCountWithinPopulation | armory/scenarios/poisoning_gtsrb_scenario.py:141-160 | for a fraction in [0, 1] and a present class, the count is between 0 and the number of source samples, the draw has that size and only source positions, and poisoning succeeds |
| Poisoning.FractionBelow | armory/scenarios/poisoning_gtsrb_scenario.py:143 | `int(fraction * n)` lies in [0, n] for a fraction in [0, 1] |
| Poisoning.ZeroCountLeavesDataUnchanged | armory/scenarios/poisoning_gtsrb_scenario.py:144-160 | a poison count of zero only warns: the training set comes back unchanged |
| Poisoning.CountUniform | armory/scenarios/poisoning_gtsrb_scenario.py:142 | a label vector of one class counts that class at every position |
| TrainingSet.FlattenAppend | armory/scenarios/poisoning_gtsrb_scenario.py:133-134 | concatenating batches distributes over appending batch lists |
| TrainingSet.Interleave | armory/scenarios/poisoning_gtsrb_scenario.py:126-132 | the preloaded loop produces two batches per clean batch |
| TrainingSet.InterleaveAlternates | armory/scenarios/poisoning_gtsrb_scenario.py:126-132 | the batches alternate: clean batch i, then poison batch i, clean first |
| TrainingSet.FlattenInterleaveStep | armory/scenarios/poisoning_gtsrb_scenario.py:126-134 | each clean batch adds its rows, then the next poison batch's rows, to the end of the training set |
| TrainingSet.InterleavedContents | armory/scenarios/poisoning_gtsrb_scenario.py:126-134 | the preloaded training set holds all the clean rows and the rows of the first matching poison batches, and its labels are their labels as a multiset |
| TrainingSet.AssemblePreloaded | armory/scenarios/poisoning_gtsrb_scenario.py:124-134 | the preloaded loop succeeds exactly when there is a clean batch and a poison batch for each, and builds the interleaved set; no clean batch cannot be concatenated, and running out of poison batches fails |
| TrainingSet.AssembleClean | armory/scenarios/poisoning_gtsrb_scenario.py:136-140 | the clean loop concatenates all clean batches in order and fails exactly when there are none |
| TrainingSet.PreloadedPoisonCount | armory/scenarios/poisoning_gtsrb_scenario.py:104-108 | `int(fraction * num_images_target_class)` of zero raises; otherwise it is the poison batch size |
| TrainingSet.Select | armory/scenarios/poisoning_gtsrb_scenario.py:194-195 | fancy indexing picks the given rows, in the given order |
| TrainingSet.KeepClean | armory/scenarios/poisoning_gtsrb_scenario.py:193-195 | a mask of another length raises; otherwise the kept rows are those marked 1, in original order, with the same mask applied to images and labels |
| TrainingSet.KeepCleanIsExact | armory/scenarios/poisoning_gtsrb_scenario.py:193 | a row is kept exactly when its mask entry is 1, and kept rows keep their order |
| TrainingSet.AllCleanKeepsEverything | armory/scenarios/poisoning_gtsrb_scenario.py:193-195 | an all-clean mask keeps the whole training set |
| TrainingSet.AllPositions | armory/scenarios/poisoning_gtsrb_scenario.py:193 | on a uniform vector, every position is selected, in order |
| TrainingSet.NoCleanRowsKeepsNothing | armory/scenarios/poisoning_gtsrb_scenario.py:193-195 | a mask with no 1 keeps no rows |
| TrainingSet.NoPositions | armory/scenarios/poisoning_gtsrb_scenario.py:193 | nothing is selected exactly when no entry matches |
| TrainingSet.UseDefense | armory/scenarios/poisoning_gtsrb_scenario.py:79-84 | a check run turns the filtering defense off; otherwise the configured setting holds |
| TrainingSet.PlanTraining | armory/scenarios/poisoning_gtsrb_scenario.py:164-214 | without the defense all rows are kept; with it, the mask's rows are kept or the mask's length error is raised; an empty result skips fit |
| TrainingSet.SkipExactlyWhenNothingKept | armory/scenarios/poisoning_gtsrb_scenario.py:193-214 | training is skipped exactly when the defense marks no row clean, or, without the defense, when the training set is empty |
| Evaluation.RowsWithLabel | armory/scenarios/poisoning_gtsrb_scenario.py:230 | `y_pred[y == src]` raises for a zero-dimensional or differently sized prediction; otherwise it keeps one row per sample labelled src, in order |
| Evaluation.AccumulateFailurePersists | armory/scenarios/poisoning_gtsrb_scenario.py:227-306 | once a batch raises, later batches do not change the outcome |
| Evaluation.AccumulateStep | armory/scenarios/poisoning_gtsrb_scenario.py:227-306 | one more batch adds its scores after the earlier batches' scores |
| Evaluation.TargetedClassIsRestrictedValidation | armory/scenarios/poisoning_gtsrb_scenario.py:227-234 | the targeted-class benign metric receives one score per source-class sample, scored against src, and each equals that sample's validation score |
| Evaluation.PoisonedTestScoresAgainstTarget | armory/scenarios/poisoning_gtsrb_scenario.py:286-306 | in poisoned testing, test_metric scores against the true labels, and targeted_test_metric scores each source-class sample 1 exactly when it is classified as the target class |
| Evaluation.PreloadedTestScoresAgainstSource | armory/scenarios/poisoning_gtsrb_scenario.py:259-275 | on the preloaded path, a poison test batch scores test_metric 1 exactly when the prediction is the source class and targeted_test_metric 1 exactly when it is the batch's own poison label; a clean test batch scores test_metric against its true labels and adds nothing to targeted_test_metric |
| Evaluation.MeanPair | armory/scenarios/poisoning_gtsrb_scenario.py:239-242 | two means are reported under exactly the two given keys, the first key holding the first metric's mean and the second key the second's, and an empty metric raises |
| Evaluation.ResultKeys | armory/scenarios/poisoning_gtsrb_scenario.py:239-316 | the validation keys are always present; the two test keys are present exactly when the training set was poisoned in place or the attack is preloaded |
| Evaluation.ValidationMeansReported | armory/scenarios/poisoning_gtsrb_scenario.py:239-242 | `validation_accuracy` holds the mean of the validation scores and `validation_accuracy_targeted_class` the mean of the targeted-class validation scores |
| Evaluation.TestMeansReported | armory/scenarios/poisoning_gtsrb_scenario.py:308-310 | when the test metrics are reported, `test_accuracy` holds the mean of the test scores and `targeted_misclassification_accuracy` the mean of the targeted scores |
| Evaluation.NumEvalBatchesRefused | armory/scenarios/poisoning_gtsrb_scenario.py:61-62 | setting num_eval_batches raises before anything else happens |
| Evaluation.NewAccuracyList | armory/scenarios/poisoning_gtsrb_scenario.py:225-226 | `MetricList("categorical_accuracy")` is fresh, empty and scores with categorical accuracy |
| Evaluation.ValidationBatch | armory/scenarios/poisoning_gtsrb_scenario.py:228-234 | one validation batch appends exactly that batch's specified scores to both metrics |
| Evaluation.Validate | armory/scenarios/poisoning_gtsrb_scenario.py:225-234 | the validation loop leaves in the two metrics exactly the batch-by-batch specified scores, or raises the first batch's error |
| Evaluation.ValidationPathBatch | armory/scenarios/poisoning_gtsrb_scenario.py:228-234 | validation batch i extends the scores of the first i validation steps by step i, or raises the whole validation path's error |
| Evaluation.PoisonedTestBatch | armory/scenarios/poisoning_gtsrb_scenario.py:287-306 | one poisoned test batch appends exactly that batch's specified scores |
| Evaluation.PreloadedTestBatch | armory/scenarios/poisoning_gtsrb_scenario.py:258-262 | one preloaded poison batch appends the poison labels' scores to targeted_test_metric and the source-class scores to test_metric |
| Evaluation.CleanTestBatch | armory/scenarios/poisoning_gtsrb_scenario.py:273-275 | one clean batch after the preloaded poison feeds only test_metric |
| Evaluation.PreloadedPathOrder | armory/scenarios/poisoning_gtsrb_scenario.py:248-275 | the preloaded path scores the poison test batches first, then the clean test batches, one step per batch |
| Evaluation.TestPreloadedPoison | armory/scenarios/poisoning_gtsrb_scenario.py:255-262 | the poison test loop leaves exactly the scores of its steps, one per poison test batch, or raises the error of the whole path that continues after them |
| Evaluation.TestPreloaded | armory/scenarios/poisoning_gtsrb_scenario.py:248-275 | the preloaded test loops leave exactly the path's specified scores, or raise its first error |
| Evaluation.TestPath | armory/scenarios/poisoning_gtsrb_scenario.py:248-275 | the poison test loop followed by the clean test loop leaves exactly the scores of the poison steps followed by the clean steps, or raises their first error |
| Evaluation.CleanPathBatch | armory/scenarios/poisoning_gtsrb_scenario.py:270-275 | clean test batch j extends the scores of the path so far by clean step j, or raises the whole path's error |
| Evaluation.TestPreloadedClean | armory/scenarios/poisoning_gtsrb_scenario.py:270-275 | the clean test loop, started from the scores of the steps before it, leaves exactly the scores of those steps followed by the clean steps, or raises their first error |
| Evaluation.TestPoisoned | armory/scenarios/poisoning_gtsrb_scenario.py:277-306 | the poisoned test loop leaves exactly the specified scores, or raises its first error |
| Evaluation.Evaluate | armory/scenarios/poisoning_gtsrb_scenario.py:54-316 | the whole evaluation computes exactly the specified results: the refusal of num_eval_batches, training-set assembly and poisoning, filtering, validation, testing and the reported means |

## Left out

- The floating-point metrics `norm`, `l0`, `l1`, `l2`, `lp`, `linf`, `snr`, `snr_db`, `snr_spectrogram` and `snr_spectrogram_db` are one abstract scorer parameter, because their numerics cannot be stated exactly.
- Scores are integers and means are exact rationals, so float rounding and NaN are not modelled.
- Accuracy.TopNCategoricalAccuracy: ties among equal scores are ranked by a stable sort (a later index ranks higher), while numpy's default sort does not promise an order for ties.
- Accuracy.CategoricalAccuracy: arrays have rank at most 2. A rank-2 label against a rank-3 prediction is not modelled and fails as a dimension mismatch. Rank-2 labels of width other than 1 fail where `int()` of a row fails.
- MetricLists.MetricList.constructor: a custom function is taken as already callable, so the ValueError for a non-callable function is not modelled.
- Accuracy.TopNCategoricalAccuracy: `n` is an integer, so `int(n)` of a fractional n is not modelled.
- The registry scorers that take three arguments fail with an arity error when a list appends two arguments.
- Poisoning.PoisonCount: `fraction * bincount[src]` is an exact product, not an IEEE double product, so the count can be one higher than the source's where the exact product is a whole number and the double product falls just below it (0.29 × 100 gives 29 here and 28 in the source).
- TrainingSet.PreloadedPoisonCount: the same exact product for `fraction * num_images_target_class`, with the same possible difference of one from the source's count.
- MetricsLogging.MetricsLogger.Create: `profiler_type` and `computational_resource_dict` are accepted and ignored, as in the source; the warnings for a logger that reports nothing are not modelled.
- Python argument types are the `Names` datatype: None, a string, a list, or another type.
- MetricsLogger.from_config is keyword-argument dispatch and is not modelled.
- The timing, cProfile and pstats work of `resource_context` is not modelled: elapsed time and profile text are inputs.
- The Deterministic profiler's warning is not modelled.
- `np.random.seed`, `set_random_seed` and `np.random.choice` are the `Draw` parameter. Only the constraints on the chosen index set are modelled.
- `load_dataset`, `load_model`, `load` and `load_fn` are not modelled: datasets are sequences of batches given as parameters.
- The poison batch size that the preloaded count sets is not modelled. A poison dataset that runs out of batches fails.
- `classifier.fit` and `classifier.predict` are the `TrainPlan` and `Predict` parameters.
- `defense.detect_poison` is the `Detector` parameter.
- `attack.poison` is the `Attack` parameter.
- `to_categorical` is not modelled: training rows keep their integer labels.
- The defense model's fitting is not modelled, because it only feeds the detector.
- Logging, tqdm progress bars and the edits to the configuration dictionary are not modelled.
- The `Scenario` base class is not part of this model.
- Sizes such as `ds_size` are natural numbers. A negative size, which `range` treats as empty, is not modelled.
