# AutoML Laboratory: a verified model of its state and decision logic

AutoML Laboratory is a demonstration AutoML workbench. A React frontend lets a
user:

- upload a CSV dataset;
- walk through a three-step "run experiment" wizard;
- browse, search and compare experiments;
- read results and benchmark pages;
- chat with a rule-based assistant ("Jarvis").

A small Python backend has these parts:

- a leakage-column filter and a task detector;
- a metric selector;
- a bounded log buffer;
- a JSON results registry with an upsert;
- a comparison service that reports the best value of each metric.

This project models that logic in Dafny and proves what it promises. Each
source file has one module:

- **Mutable state is modelled as classes.** This covers `localStorage`, React
  component state, the results file, the log deque and the logger memo. Every
  method states its whole new state.
- **Pure logic is modelled as functions.** This covers decision rules, filters,
  string processing and lookups.
- **Lemmas relate the operations.** They state round trips, idempotence,
  invariants, first-match and last-match properties, and the orders the source
  relies on.

Shared foundations:

- `Wrappers` (Option and Result).
- `Json`, which gives JSON values. Numbers are exact rationals, and a
  `toFixed` string is kept as `Fixed(x, digits)`. It also gives JavaScript and
  Python truthiness, and the text JavaScript's `String(v)` prints for a value
  that is not a number.
- `Seqs`, which gives order-preserving filter and count.
- `Strings`, which gives ASCII case mapping, `includes`, `split` with its
  `join` round trip, `trim`, and line splitting on `/\r?\n/`.
- `Storage`, which is the browser's `localStorage`.
- `DataFrame`, a small pandas frame with `nunique` and `drop`.
- `NumberSyntax`, which gives the string grammar JavaScript's `Number` accepts
  (the StringNumericLiteral grammar, section 7.1.4.1.1 of ECMA-262).
- `Csv`, which covers line filtering and cell splitting.

The source's errors are modelled as `Err` results rather than excluded by
preconditions:

- a `TypeError` from calling a string method on a non-string, or from
  reading a property of `undefined` or `null`;
- a `KeyError` from indexing a missing key or column;
- a `SyntaxError` from `JSON.parse`;
- an `IndexError` on an empty frame.

Time, randomness and parsing are parameters:

- `Date.now()` ids and locale dates.
- The `Math.random` draws of the loss curve.
- `parseFloat` on the compare page, taken as a `Parser` function.
- Timestamps of log lines and chat messages.

Each `setTimeout` callback is a separate method. The pending callbacks are kept
as queue fields of the class.

## Model

| member | source | states |
|---|---|---|
| Json.JsText | frontend/src/utils/MockData.js:124 | the text JavaScript prints for `null` ("null"), a boolean, a string and an object ("[object Object]"); none for a number's digits |
| Json.JoinTextIsJoin | frontend/src/utils/MockData.js:124 | joining elements prints exactly when every element prints, and then gives their texts joined with "," |
| Json.ArrayText | frontend/src/utils/MockData.js:124 | an array prints exactly when all its elements print, as their texts (`null` as nothing) joined with "," |
| Json.IdentOf | frontend/src/pages/Experiments.jsx:19-20 | an id is known by its value when it is a primitive or absent, and by the record it was read from when it is an object or array |
| Json.SameIdent | frontend/src/pages/Experiments.jsx:19-20 | two ids of a parsed list are the same exactly when they come from the same record or are `===` |
| Json.RoundedToClose | frontend/src/utils/MockData.js:132-138 | rounding to `d` places, as `toFixed(d)` does, moves a value by at most half a unit in the last place |
| Json.RoundedToExact | frontend/src/utils/MockData.js:132-138 | a value with at most `d` decimals is what `toFixed(d)` spells |
| MockData.StoredList | frontend/src/utils/MockData.js:15-18 | an absent key reads as the empty list, a stored list is returned unchanged |
| MockData.NewProject | frontend/src/utils/MockData.js:24-30 | the new project has id, updated, status and count; defaults are "Active" and 1, and every caller field overrides its default |
| MockData.NewExperiment | frontend/src/utils/MockData.js:48-54 | the record has id, date and status "Running" unless supplied; generated results override caller fields, caller fields override defaults |
| MockData.IncrementCount | frontend/src/utils/MockData.js:66 | `count += 1` adds one to a number, coerces `null` and booleans to numbers, appends "1" to the string form of a string, array or object, and yields NaN (Null after JSON) for a missing count |
| MockData.CountConcatenates | frontend/src/utils/MockData.js:66 | an object count becomes "[object Object]1", an empty array "1", an array of strings its comma-joined elements followed by "1" |
| MockData.Bump | frontend/src/utils/MockData.js:66-67 | an existing project gets count+1 and updated "Just now"; its other fields are unchanged |
| MockData.FindByName | frontend/src/utils/MockData.js:62 | `find` returns the FIRST project whose name is `===` to the given one, or none; an object or array name is `===` to nothing, an absent name matches an absent name |
| MockData.FindById | frontend/src/utils/MockData.js:83 | `findIndex` returns the first experiment whose id is `===` to the given one, or none; an object or array id matches nothing |
| MockData.ProjectFor | frontend/src/utils/MockData.js:71-75 | the project passed for a new name has that name, type "AutoML" and count 1 |
| MockData.ExistingProjectBumped | frontend/src/utils/MockData.js:61-68 | when some project's name is `===` to the given one, only the first such project is bumped; all others and the length are unchanged |
| MockData.NewProjectPrepended | frontend/src/utils/MockData.js:69-76 | when no project's name is `===` to the given one, exactly one new project (name, "AutoML", count 1, "Active") is prepended before the old list |
| MockData.UpdateReplacesFirstMatch | frontend/src/utils/MockData.js:81-88 | an id `===` to no stored id changes nothing; otherwise only the first match is replaced, status applied before results, length unchanged |
| MockData.ObjectNameAlwaysNew | frontend/src/utils/MockData.js:61-76 | an object or array project name never finds a stored project, so a new project is always prepended |
| MockData.ObjectIdChangesNothing | frontend/src/utils/MockData.js:81-88 | an object or array id never finds a stored experiment, so the update changes nothing |
| MockData.BaseAccuracy | frontend/src/utils/MockData.js:114-115 | the base accuracy lies in [0.85, 0.94] |
| MockData.ReadModel | frontend/src/utils/MockData.js:114 | reading `.length` throws exactly for an absent or `null` model; a string is seeded by its length, an array by its element count, and a number, boolean or object has no length |
| MockData.Results | frontend/src/utils/MockData.js:113-144 | the generated fields are exactly metrics, loss_curve and leaderboard, whatever the model |
| MockData.DeterministicResults | frontend/src/utils/MockData.js:113-144 | for a string model the generated fields are exactly metrics, loss_curve and leaderboard |
| MockData.LengthlessModelGivesNaN | frontend/src/utils/MockData.js:113-143 | a model without `.length` still gets results: every `toFixed` figure is "NaN", training time stays 124.5, the leaderboard is named after the printed model and the curve has ten points |
| MockData.ArrayModelSeededByLength | frontend/src/utils/MockData.js:113-143 | an array model is seeded by its element count and printed comma-joined |
| MockData.MetricsFromLength | frontend/src/utils/MockData.js:114-140 | the metrics depend only on the name's length; accuracy is base+0.02, cpu_peak 20+len%30, ram_peak 2+len%6 |
| MockData.LeaderboardShape | frontend/src/utils/MockData.js:123-128 | the leaderboard has four entries in fixed order, the first named `<model>_Best` |
| MockData.LossCurveShape | frontend/src/utils/MockData.js:117-121 | the loss curve has ten points for epochs 1..10, each loss between its jitter-free value and that value less 0.05, both cut off at the floor (0.1 for loss, 0.15 for val_loss) |
| MockData.H2OAccuracy | frontend/src/utils/MockData.js:114-115 | a model named "H2O" gets accuracy "0.9000" |
| MockData.AddProject | frontend/src/utils/MockData.js:20-34 | the project list becomes the new project prepended to the old list; nothing else changes |
| MockData.AddExperiment | frontend/src/utils/MockData.js:42-79 | an absent or `null` model is a TypeError that writes nothing; any other model is filed: the new experiment is prepended and the project list is bumped or extended, nothing else changes |
| MockData.UpdateExperimentStatus | frontend/src/utils/MockData.js:81-88 | storage is unchanged when no stored id is `===` to the given one; otherwise only the first match is replaced |
| MockData.SetDraftProject | frontend/src/utils/MockData.js:91-97 | a get after the set returns the value set; only that key changes |
| MockData.SetDraftExperimentName | frontend/src/utils/MockData.js:99-105 | a get after the set returns the value set; only that key changes |
| MockData.ClearDraft | frontend/src/utils/MockData.js:107-110 | both draft keys are removed and the project and experiment lists are unchanged |
| MockData.ResetAll | frontend/src/utils/MockData.js:147-151 | projects, experiments and the draft project are removed; the draft experiment name is kept |
| Registry.HeadModelId | backend/compare/registry.py:26 | a dict head answers with its `model_id` if it has one; `in` on None, a boolean or a number is a TypeError |
| Registry.WithBestModel | backend/compare/registry.py:24-29 | a truthy best_model is kept; otherwise only best_model is added, all other fields unchanged |
| Registry.BestModelDefaulting | backend/compare/registry.py:24-29 | without a truthy best_model it becomes the head's model_id of a non-empty list leaderboard, else "UNKNOWN_MODEL" |
| Registry.WithBestModelIdempotent | backend/compare/registry.py:24-29 | defaulting twice is defaulting once |
| Registry.UpsertOneMatchLast | backend/compare/registry.py:31-37 | after saving, exactly one record has the entry's (dataset, tool) and it is the last |
| Registry.UpsertKeepsOthers | backend/compare/registry.py:32-35 | records under other keys are all kept in their original order |
| Registry.UpsertLength | backend/compare/registry.py:32-37 | new length = old length - old matches + 1 |
| Registry.CountComplement | backend/compare/registry.py:32-35 | matching and non-matching records partition the list |
| Registry.SaveIdempotent | backend/compare/registry.py:24-37 | saving the same entry twice stores what saving it once stores |
| Registry.WithoutKey | backend/compare/registry.py:32-35 | the comprehension's loop yields exactly the records under other keys, in order |
| Registry.ResultStore.constructor | backend/compare/registry.py:5-8 | the results file does not exist at first |
| Registry.ResultStore.LoadResults | backend/compare/registry.py:10-14 | a missing file reads as [], otherwise the stored list |
| Registry.ResultStore.SaveResult | backend/compare/registry.py:16-40 | the file becomes the upsert of the defaulted entry; a failed defaulting leaves the file unchanged |
| Service.Considered | backend/compare/service.py:4 | only records of the dataset are considered; a record without "dataset" is a KeyError |
| Service.SelectedOf | backend/compare/service.py:6-11 | the selection exists iff some record has the tool, and is such a record |
| Service.SelectedIsLast | backend/compare/service.py:9-11 | the selected record is the LAST one with the tool |
| Service.PartitionCount | backend/compare/service.py:9-13 | |others| + records with the tool = considered records; no selection iff none has the tool |
| Service.SplitBySelected | backend/compare/service.py:6-13 | the loop yields (selected, others), others being the other-tool records in order; a record without "tool" is a KeyError |
| Service.Greater | backend/compare/service.py:18 | Python `>` on numbers and on strings; None and dicts are a TypeError |
| Service.StrGreaterAsymmetric | backend/compare/service.py:18 | string `>` is never true both ways |
| Service.Step | backend/compare/service.py:17-22 | one record's pass of the best_per_metric loop |
| Service.ComputeBest | backend/compare/service.py:15-22 | the nested loops compute the best_per_metric fold |
| Service.PrefixError | backend/compare/service.py:16-22 | once a record makes the loop fail, the whole computation fails the same way |
| Service.CompareResults | backend/compare/service.py:3-28 | compare_results on the stored list: filter, partition, best per metric |
| Service.CompareConsidered | backend/compare/service.py:6-28 | on the dataset's records: a record without "tool" is a KeyError, otherwise the partition and the best per metric |
| Service.MetricsOf | backend/compare/service.py:17 | the numeric metrics of a record |
| Service.StepNumeric | backend/compare/service.py:17-22 | on numeric metrics one step never fails, keeps every key, and replaces a best only when strictly greater |
| Service.BestPerMetricKeys | backend/compare/service.py:16-21 | the keys of best_per_metric are exactly the union of the records' metric keys |
| Service.BestIsMax | backend/compare/service.py:16-21 | every best value is at least each record's value for that metric |
| Service.BestIsFirst | backend/compare/service.py:18-21 | every best value and tool are those of the EARLIEST record attaining the maximum |
| Service.FirstAttainsLast | backend/compare/service.py:18 | the last record attains first when it beats the earlier best |
| Service.FirstAttainsPrefix | backend/compare/service.py:16 | attaining first in a prefix is attaining first in the whole |
| Service.BestPerMetricSpec | backend/compare/service.py:15-22 | keys, maximum and earliest-attainer facts for all metrics at once |
| Logger.LogLine | backend/logger.py:34 | the line is "[" + ts + "] " + message |
| Logger.Appended | backend/logger.py:32-36 | the queue (a deque bounded at 500, line 8) never exceeds 500; below 500 the line is appended, at 500 exactly the oldest entry is dropped |
| Logger.AppendedIsSuffix | backend/logger.py:32-36 | the queue after appending is the newest entries of everything appended, in order |
| Logger.AppendAll | backend/logger.py:32-36 | appending lines one by one never exceeds 500 entries |
| Logger.Newest | backend/logger.py:8 | the newest min(n, 500) entries, oldest first, as a suffix |
| Logger.NewestOfNewest | backend/logger.py:8 | trimming to the newest entries before appending more and trimming again is trimming once |
| Logger.AppendAllKeepsNewest | backend/logger.py:32-36 | after any run of appends the queue is the newest min(n, 500) lines, oldest first |
| Logger.LogQueue.constructor | backend/logger.py:8 | the queue starts empty |
| Logger.LogQueue.StreamLog | backend/logger.py:32-41 | the formatted line is appended to the bounded queue, and the sent payload is {type: "log", message: line} |
| Logger.LogQueue.GetLogQueue | backend/logger.py:44-45 | returns the contents oldest first without changing the queue |
| Logger.GetLogger | backend/logger.py:15 | the same name gives the same logger; a new name gives a fresh one |
| Logger.Configure | backend/logger.py:16-27 | level INFO, no propagation, a handler added only when there is none |
| Logger.ConfigureIdempotent | backend/logger.py:24-25 | configuring twice is configuring once: handlers never stack |
| Logger.Loggers.constructor | backend/logger.py:9 | the memo starts empty |
| Logger.Loggers.SetupLogger | backend/logger.py:11-29 | a memoised name returns the stored logger and changes nothing; a new one is configured and memoised |
| Logger.SetupTwice | backend/logger.py:11-29 | two set-ups of a name give the same logger, with a handler |
| DataFrame.Names | backend/splitter.py:10 | the column names in column order |
| DataFrame.Find | backend/splitter.py:26 | `df[name]` finds the column with that name, or reports none has it (KeyError) |
| DataFrame.NamesDiffer | backend/splitter.py:10-14 | with unique names, distinct columns have distinct names |
| DataFrame.Distinct | backend/splitter.py:13 | the distinct non-missing values of a column |
| DataFrame.NUnique | backend/splitter.py:13 | `nunique()` is at most the row count |
| DataFrame.DistinctBound | backend/splitter.py:13 | distinct values never outnumber the cells |
| DataFrame.AllDistinctNUnique | backend/splitter.py:13-14 | present, pairwise different values give nunique == rows |
| DataFrame.DropColumns | backend/splitter.py:15 | `drop(columns=...)` keeps exactly the other columns and the row count |
| Splitter.NamesOfFilter | backend/splitter.py:9-15 | a column's name survives a filter iff the filter keeps the column |
| Splitter.DropLeakageKeepsOthers | backend/splitter.py:9-15 | the cleaned frame is exactly the non-leaky columns in original order |
| Splitter.DropLeakageColumns | backend/splitter.py:8-15 | the loop drops an id/index/uid name (any case) or a column with nunique == rows, and lists the drops in column order |
| Splitter.SplitData | backend/splitter.py:18-28 | X is the cleaned frame without the target, y the target, stratified iff "classification"; a target missing after cleaning is a KeyError |
| Splitter.LeakyTargetFails | backend/splitter.py:21-25 | a target the leakage rule catches makes split_data fail with KeyError |
| Splitter.RegressionTargetDropped | backend/splitter.py:21-25 | a price column with one value per row cannot be split on |
| Splitter.SplitDataCorrectedSeparates | backend/splitter.py:18-28 | with the target exempt, splitting succeeds iff the target exists, and X is the cleaned features |
| Splitter.CorrectedAgreesOnSafeTarget | backend/splitter.py:21-28 | the corrected split agrees with the written one whenever the target is not leaky |
| TaskDetector.DetectTask | backend/task_detector.py:4-12 | the target is the last column; the task is classification exactly when the target is of object dtype or has at most 20 distinct present values, regression otherwise; an empty frame is an IndexError |
| TaskDetector.ObjectTargetIsClassification | backend/task_detector.py:7-8 | an object target gives classification |
| TaskDetector.FewDistinctIsClassification | backend/task_detector.py:7-8 | at most 20 distinct present values give classification, whatever the row count |
| TaskDetector.ManyDistinctIsRegression | backend/task_detector.py:7-10 | a non-object target with more than 20 distinct present values gives regression |
| TaskDetector.FewRowsIsClassification | backend/task_detector.py:7-8 | a frame of at most 20 rows gives classification |
| TaskDetector.ContinuousTargetIsRegression | backend/task_detector.py:7-10 | a non-object target of more than 20 rows, all present and pairwise different, gives regression |
| Metrics.SelectMetrics | backend/metrics.py:5-21 | "classification" gives accuracy/precision/recall/f1, every other task rmse/mae/r2 |
| Metrics.SelectMetricsShape | backend/metrics.py:6-18 | the result is non-empty and duplicate-free, and the two lists are disjoint |
| Csv.NonBlankLines | frontend/src/components/DatasetUpload.jsx:37 | the kept lines are non-blank and hold no line feed |
| Csv.NonBlankLinesInOrder | frontend/src/components/DatasetUpload.jsx:37 | the kept lines are exactly the non-blank lines, in text order and with repetitions (the line list filtered by non-blankness) |
| Csv.Cells | frontend/src/components/DatasetUpload.jsx:44 | one trimmed cell per comma-separated field |
| Csv.ParseRows | frontend/src/components/DatasetUpload.jsx:79 | each line becomes its trimmed cells |
| Csv.Slice | frontend/src/components/DatasetUpload.jsx:45-54 | `slice` keeps the window clipped to the sequence |
| NumberSyntax.NumericHasNoComma | frontend/src/components/DatasetUpload.jsx:63 | a string `Number` accepts holds no comma or blank |
| NumberSyntax.AcceptsDecimal | frontend/src/components/DatasetUpload.jsx:63 | "42", "-3.5" and ".5" count as numbers |
| NumberSyntax.AcceptsOthers | frontend/src/components/DatasetUpload.jsx:63 | "1e10", "0x1F" and "Infinity" count as numbers |
| NumberSyntax.RejectsExamples | frontend/src/components/DatasetUpload.jsx:63 | "abc", "1,5" and "." are NaN |
| NumberSyntax.RejectsSignedHexAndBareExponent | frontend/src/components/DatasetUpload.jsx:63 | "-0x10" and "1e" are NaN |
| NumberSyntax.NotNumericWithComma | frontend/src/components/DatasetUpload.jsx:63 | a value holding a comma is never numeric |
| DatasetUpload.FieldAt | frontend/src/components/DatasetUpload.jsx:61 | `row[idx]?.trim()` is undefined past the row's end, otherwise the trimmed field |
| DatasetUpload.ColumnInfoMeaning | frontend/src/components/DatasetUpload.jsx:56-72 | missing is at most the sample size; a column is Numeric iff every present sampled value is numeric |
| DatasetUpload.AnalyzeColumn | frontend/src/components/DatasetUpload.jsx:57-72 | the forEach computes the column's statistics |
| DatasetUpload.ColumnInfos | frontend/src/components/DatasetUpload.jsx:56 | one column stat per header field, in header order: stat `i` is the stat of header field `i` over column `i` of the sample |
| DatasetUpload.AnalyzeColumns | frontend/src/components/DatasetUpload.jsx:56-73 | the header map computes all column statistics |
| DatasetUpload.SampleRows | frontend/src/components/DatasetUpload.jsx:54 | the sample is at most the first 100 data rows, row `i` being data line `i` split on "," |
| DatasetUpload.AnalyzeShape | frontend/src/components/DatasetUpload.jsx:44-79 | rows = lines - 1, cols = header fields, preview = header + at most 5 trimmed rows, missing within sample and rows |
| DatasetUpload.ShortTextRefused | frontend/src/components/DatasetUpload.jsx:37-42 | fewer than two non-blank lines is the "too short" error, and only then |
| DatasetUpload.DatasetUploadView.constructor | frontend/src/components/DatasetUpload.jsx:9-14 | no file, zero stats, empty preview and columns, no error |
| DatasetUpload.DatasetUploadView.ResetState | frontend/src/components/DatasetUpload.jsx:17-23 | clears the file, zeroes the stats, empties preview and columns, clears the error |
| DatasetUpload.DatasetUploadView.AnalyzeFile | frontend/src/components/DatasetUpload.jsx:25-86 | no file does nothing; a non-.csv name sets the type error only; a short text sets the short error only; else all stats are set |
| DatasetUpload.DatasetUploadView.UploadToServer | frontend/src/components/DatasetUpload.jsx:95-113 | without a file nothing happens; with one the file name is completed and uploading ends false |
| UploadPage.Preview | frontend/src/pages/UploadPage.jsx:56-63 | the first at most 21 non-blank lines, each split on "," and trimmed |
| UploadPage.PreviewExtendsPanelPreview | frontend/src/pages/UploadPage.jsx:56-63 | the page's preview and the import panel's preview agree on their common rows |
| UploadPage.UploadView.constructor | frontend/src/pages/UploadPage.jsx:7-12 | the stored file name, or "" when none is stored |
| UploadPage.UploadView.ValidateAndSetFile | frontend/src/pages/UploadPage.jsx:19-33 | no file does nothing; a non-.csv name clears file and preview and warns; a .csv file is stored with its preview and no message |
| UploadPage.UploadView.UploadToServer | frontend/src/pages/UploadPage.jsx:71-96 | no file only warns; a reply with a filename stores it; one without leaves the stored name; a failure only sets a message |
| Benchmark.RequestBody | frontend/src/pages/BenchmarkPage.jsx:22-25 | a missing dataset or tool query parameter is sent as "*" |
| Benchmark.Rows | frontend/src/pages/BenchmarkPage.jsx:43 | rows are the selected record followed by the others, in order |
| Benchmark.Cell | frontend/src/pages/BenchmarkPage.jsx:65-71 | `r.group?.key` is defined iff the group is an object holding the key |
| Benchmark.Truncated | frontend/src/pages/BenchmarkPage.jsx:47-52 | no cut for a number string without "."; otherwise the prefix ending four characters after the point, or the whole string when it is shorter |
| Benchmark.ExponentFormLosesExponent | frontend/src/pages/BenchmarkPage.jsx:49-51 | the cut ignores an exponent: "1.23456789e-7" is cut to "1.2345" |
| Benchmark.TruncatedKeepsIntegerPart | frontend/src/pages/BenchmarkPage.jsx:51 | truncation keeps the integer part and cuts, not rounds, the fraction |
| Benchmark.Numbers | frontend/src/pages/BenchmarkPage.jsx:55-57 | exactly the numeric cells are kept |
| Benchmark.MaxOf | frontend/src/pages/BenchmarkPage.jsx:60-61 | `Math.max` is a member and bounds every value from above |
| Benchmark.MinOf | frontend/src/pages/BenchmarkPage.jsx:60-61 | `Math.min` is a member and bounds every value from below |
| Benchmark.ExtremaSpec | frontend/src/pages/BenchmarkPage.jsx:54-63 | no extrema iff no numeric cell; otherwise best and worst are cells, best the max (min when lower is better) and worst the opposite |
| Benchmark.Render | frontend/src/pages/BenchmarkPage.jsx:73-79 | ▲ iff the cell equals best, ▼ iff it equals worst; with no numbers in the column, a missing cell gets both |
| Benchmark.EqualValuesMarkedTwice | frontend/src/pages/BenchmarkPage.jsx:76-77 | when all numbers of a column are equal a cell gets both markers |
| Benchmark.EmptyCellMarkedWithoutNumbers | frontend/src/pages/BenchmarkPage.jsx:58-77 | as written, in a column without numbers an empty cell is marked both best and worst |
| Benchmark.RenderCorrected | frontend/src/pages/BenchmarkPage.jsx:73-79 | no markers without extrema, otherwise as written |
| Benchmark.RenderCorrectedSpec | frontend/src/pages/BenchmarkPage.jsx:54-79 | corrected, a marker appears only on a number that is the column's best or worst |
| Benchmark.FindRow | frontend/src/pages/BenchmarkPage.jsx:202 | `find` returns the first satisfying row, or none when no row satisfies |
| Benchmark.BestToolCreditsOtherColumn | frontend/src/pages/BenchmarkPage.jsx:201-210 | as written, a row whose precision equals the best accuracy is credited with it |
| Benchmark.BestToolForSpec | frontend/src/pages/BenchmarkPage.jsx:201-210 | corrected, "N/A" without numbers, else the tool of the first row holding the column's best |
| ComparePage.Selection | frontend/src/pages/ComparePage.jsx:12-23 | no ids means a redirect; otherwise exactly the stored experiments whose id is a primitive (or absent) that `includes` finds among the ids; an object or array id, parsed afresh, matches none |
| ComparePage.SelectionInOrder | frontend/src/pages/ComparePage.jsx:12-20 | the selection keeps stored order |
| ComparePage.ObjectIdsSelectNothing | frontend/src/pages/ComparePage.jsx:18-23 | when every stored id is an object or array, the selection is empty whatever ids arrive, so the page renders nothing |
| ComparePage.MetricValue | frontend/src/pages/ComparePage.jsx:119 | `metrics?.[key] \|\| 0` is truthy or 0 |
| ComparePage.ParseValue | frontend/src/pages/ComparePage.jsx:27 | `parseFloat` keeps a number, reads a `toFixed(d)` string back as its number rounded to `d` places, and parses anything else through the string JavaScript converts it to (an array as its comma-joined elements, an object as "[object Object]") |
| ComparePage.GeneratedFiguresReadBack | frontend/src/utils/MockData.js:132-139 | the generated metrics (at most three decimals, shown to four) and peaks (whole numbers, shown to one or two) read back unchanged |
| ComparePage.Extreme | frontend/src/pages/ComparePage.jsx:27-28 | `Math.min`/`Math.max`: NaN if any value is NaN, else an attained min or max |
| ComparePage.Values | frontend/src/pages/ComparePage.jsx:27 | one parsed value per experiment, in order |
| ComparePage.BestValueSpec | frontend/src/pages/ComparePage.jsx:26-30 | the best value is the min for lower-is-better metrics and the max for the others, and some experiment attains it |
| ComparePage.SomeCellIsBest | frontend/src/pages/ComparePage.jsx:32-35 | some cell is marked best, and every cell marked best beats or ties all others |
| Seqs.FirstIndex | frontend/src/pages/ComparePage.jsx:38 | the first index satisfying a test, with none before it, or none when no element satisfies it; `find` on the benchmark page uses the same search |
| ComparePage.BestToolNameSpec | frontend/src/pages/ComparePage.jsx:37-41 | the model of the first experiment achieving the best value, or "N/A" when none does |
| ComparePage.RenderDeltaSpec | frontend/src/pages/ComparePage.jsx:43-60 | nothing at index 0 or when the difference is below 0.0001; improved iff diff > 0 (diff < 0 for lower-is-better) |
| ComparePage.NoDeltaAgainstEqual | frontend/src/pages/ComparePage.jsx:49 | an experiment equal to the baseline shows no delta |
| ExperimentsPage.Toggle | frontend/src/pages/Experiments.jsx:18-24 | membership of the id flips and no other id changes; an absent id is appended, a present one removed; ids are compared as `includes` and `!==` compare them |
| ExperimentsPage.CountDropsMatch | frontend/src/pages/Experiments.jsx:20 | removing a present id shortens the selection |
| ExperimentsPage.ToggleKeepsNoDuplicates | frontend/src/pages/Experiments.jsx:18-24 | a duplicate-free selection stays duplicate-free |
| ExperimentsPage.ToggleTwice | frontend/src/pages/Experiments.jsx:18-24 | toggling an absent id twice restores the selection; a present id moves to the end |
| ExperimentsPage.TickTwoRows | frontend/src/pages/Experiments.jsx:18-24 | ticking two different rows selects both ids, unless the ids are `===`, when the second tick unticks the first; two object ids are never `===` |
| ExperimentsPage.KeepSpec | frontend/src/pages/Experiments.jsx:26-29 | kept iff the lowercased name contains the lowercased search, or a truthy project does |
| ExperimentsPage.FilteredSpec | frontend/src/pages/Experiments.jsx:26-29 | the filter succeeds iff every test succeeds, and then keeps exactly the matching experiments |
| ExperimentsPage.FilteredInOrder | frontend/src/pages/Experiments.jsx:26-29 | the filtered list is a subsequence of the experiments |
| ExperimentsPage.EmptySearchKeepsAll | frontend/src/pages/Experiments.jsx:26-29 | an empty search keeps every experiment |
| ExperimentsPage.Actions | frontend/src/pages/Experiments.jsx:31-98 | Compare iff at least two selected, Run iff fewer, the empty-state action iff no experiments |
| ExperimentsPage.CompareShowsSelected | frontend/src/pages/Experiments.jsx:58-66 | Compare hands over a non-empty selection, so the comparison page shows exactly the stored experiments whose ticked id is a primitive |
| ExperimentsPage.ExperimentsView.constructor | frontend/src/pages/Experiments.jsx:14-16 | the stored experiments, nothing selected, no search |
| ExperimentsPage.ExperimentsView.HandleSelect | frontend/src/pages/Experiments.jsx:18-24 | a click on a row's box toggles that row's id, so the box flips; nothing else changes |
| ExperimentsPage.ExperimentsView.SetSearch | frontend/src/pages/Experiments.jsx:26-29 | only the search text changes |
| RunExperiment.FindTool | frontend/src/pages/RunExperiment.jsx:108-113 | the tool with the id, or none |
| RunExperiment.ScheduleSpec | frontend/src/pages/RunExperiment.jsx:63-86 | times and percentages strictly increase, and only the last entry (100) finishes |
| RunExperiment.SubmittedRecordSpec | frontend/src/pages/RunExperiment.jsx:90-100 | the stored experiment has status "Completed", project = dataset and model = the tool's name |
| RunExperiment.SubmittedFields | frontend/src/pages/RunExperiment.jsx:93-100 | the fields of the submitted record survive the merge with the generated results |
| RunExperiment.ToolAccuracies | frontend/src/pages/RunExperiment.jsx:108-113 | the four tools' names, and the accuracy the mock store gives each tool's experiment: 0.87, 0.96, 0.91 and 0.92 |
| RunExperiment.StepGuards | frontend/src/pages/RunExperiment.jsx:284-325 | Back only after step 1 and by one; Next only with name and dataset; Start only with a tool |
| RunExperiment.Wizard.constructor | frontend/src/pages/RunExperiment.jsx:10-31 | step 1, not running, and the stored drafts (or "") for name and dataset |
| RunExperiment.Wizard.HandleNameChange | frontend/src/pages/RunExperiment.jsx:39-43 | on step 1, every name edit is also written as the draft name and nothing else changes |
| RunExperiment.Wizard.SelectTool | frontend/src/pages/RunExperiment.jsx:261 | on step 2, only the selected tool changes |
| RunExperiment.Wizard.Press | frontend/src/pages/RunExperiment.jsx:55-87 | the step follows the guards; Start sets step 3, running, progress 0, one initial log and the schedule's timers |
| RunExperiment.Wizard.Tick | frontend/src/pages/RunExperiment.jsx:79-87 | a timer sets the progress and appends its log; the 100% timer schedules the finish |
| RunExperiment.Wizard.Finish | frontend/src/pages/RunExperiment.jsx:90-106 | the store becomes exactly the finished store (experiment filed, drafts cleared, other keys kept) and running ends; the other wizard fields are unchanged |
| RunExperiment.FileExperiment | frontend/src/pages/RunExperiment.jsx:90-103 | the whole store after finishing is the finished store computed from the old one |
| RunExperiment.SubmittedReads | frontend/src/pages/RunExperiment.jsx:93-99 | `addExperiment` reads the tool name as the model and the dataset as the project |
| RunExperiment.FinishedItemsSpec | frontend/src/pages/RunExperiment.jsx:90-103 | in the finished store the experiment list is the record prepended to the old one, the project list is bumped or extended for the dataset, both drafts are gone and every other key is unchanged |
| Chat.FirstGroup | frontend/src/pages/Chat.jsx:32-45 | the first keyword group that matches, every earlier one failing |
| Chat.ReplyByPriority | frontend/src/pages/Chat.jsx:32-45 | the reply is that of the first matching group, in the order accuracy, win, failure, help, greeting, default |
| Chat.ReplyIgnoresCase | frontend/src/pages/Chat.jsx:33 | the reply does not depend on case |
| Chat.ChatView.constructor | frontend/src/pages/Chat.jsx:6-8 | the transcript starts with exactly one jarvis greeting |
| Chat.ChatView.SetInput | frontend/src/pages/Chat.jsx:21 | only the input changes |
| Chat.ChatView.HandleSend | frontend/src/pages/Chat.jsx:21-29 | blank input changes nothing; otherwise one user message is appended, the input cleared and a reply scheduled |
| Chat.ChatView.ReplyFires | frontend/src/pages/Chat.jsx:31-50 | the reply timer appends exactly one jarvis message with the chosen reply |
| Chat.SendThenReply | frontend/src/pages/Chat.jsx:21-50 | after a send and its reply the transcript ends with the user message then the jarvis reply |
| Auth.UserName | frontend/src/pages/Auth.jsx:80 | the part of the email before the first "@", or the whole email without one |
| Auth.LoginWritesSpec | frontend/src/pages/Auth.jsx:78-85 | login writes token and user iff email and password are non-empty; the token is "mock-token-123" |
| Auth.NameWithoutAt | frontend/src/pages/Auth.jsx:123-128 | signup with an email without "@" stores it whole as the name |
| Auth.LoginForm.constructor | frontend/src/pages/Auth.jsx:73-87 | empty fields, not loading, no timer scheduled |
| Auth.LoginForm.SetFields | frontend/src/pages/Auth.jsx:73-87 | only the fields change; loading and scheduled timers are kept |
| Auth.LoginForm.Submit | frontend/src/pages/Auth.jsx:73-87 | submitting starts loading, writes nothing yet and schedules a timer that captures the current email and password |
| Auth.LoginForm.TimerFires | frontend/src/pages/Auth.jsx:77-86 | the oldest timer performs the login writes from the pair it captured, not the current fields, and stops loading |
| Auth.LoginAfterEdit | frontend/src/pages/Auth.jsx:73-87 | clearing the fields after submitting does not change what the timer writes |
| Auth.SignupForm.constructor | frontend/src/pages/Auth.jsx:120-129 | empty fields, not loading, no timer scheduled |
| Auth.SignupForm.SetFields | frontend/src/pages/Auth.jsx:120-129 | only the fields change; loading and scheduled timers are kept |
| Auth.SignupForm.Submit | frontend/src/pages/Auth.jsx:120-129 | submitting starts loading, writes nothing yet and schedules a timer that captures the current email |
| Auth.SignupForm.TimerFires | frontend/src/pages/Auth.jsx:123-128 | the oldest timer writes token and user for the email it captured, unconditionally, and stops loading |
| JarvisPage.StoredUser | frontend/src/pages/JarvisPage.jsx:21 | no stored user gives {name: "User"}; a stored object is returned |
| JarvisPage.FirstNameSpec | frontend/src/pages/JarvisPage.jsx:21-22 | the first space-separated token of a non-empty name (followed by a space in the name when it has one), "User" otherwise |
| JarvisPage.GreetsSignedUpUser | frontend/src/pages/JarvisPage.jsx:21-22 | after signup the page's first name is the email's user part up to its first space |
| JarvisPage.ReplyByPriority | frontend/src/pages/JarvisPage.jsx:63-72 | accuracy, then help, then greeting with the first name, then the default |
| JarvisPage.AccuracyFirstOnBothPages | frontend/src/pages/JarvisPage.jsx:63-64 | a message mentioning accuracy gets the accuracy reply on both assistants |
| JarvisPage.SentText | frontend/src/pages/JarvisPage.jsx:41 | a truthy override wins, otherwise the input |
| JarvisPage.JarvisView.constructor | frontend/src/pages/JarvisPage.jsx:21-29 | empty transcript, not started, the derived first name |
| JarvisPage.JarvisView.SetInput | frontend/src/pages/JarvisPage.jsx:40 | only the input changes |
| JarvisPage.JarvisView.HandleSend | frontend/src/pages/JarvisPage.jsx:40-48 | blank text does nothing; otherwise one user message is appended, the input cleared, a reply scheduled |
| JarvisPage.JarvisView.ReplyArrives | frontend/src/pages/JarvisPage.jsx:74-76 | one jarvis message with the chosen reply is appended; the chat has started |
| JarvisPage.JarvisView.ClearChat | frontend/src/pages/JarvisPage.jsx:154 | the transcript is emptied and the chat is not started |
| Reports.InitialConfig | frontend/src/pages/Reports.jsx:6-12 | five keys, three on and confusionMatrix and systemLogs off |
| Reports.Toggle | frontend/src/pages/Reports.jsx:14 | toggling keeps the configuration well formed |
| Reports.ToggleSpec | frontend/src/pages/Reports.jsx:14 | exactly the named key flips, all others unchanged; an existing key does not change the key set |
| Reports.ToggleTwice | frontend/src/pages/Reports.jsx:14 | toggling a key twice restores the configuration |
| Reports.Sections | frontend/src/pages/Reports.jsx:73-104 | a section is shown iff its flag is on |
| Reports.SystemLogsShowsNothing | frontend/src/pages/Reports.jsx:73-104 | the systemLogs flag controls no section |
| Reports.InitialSections | frontend/src/pages/Reports.jsx:6-12 | at first the performance, importance and hyperparameter sections show |
| Reports.Spaced | frontend/src/pages/Reports.jsx:44 | the spaced key is exactly one character longer per capital letter of the key |
| Reports.SpacedPositions | frontend/src/pages/Reports.jsx:44 | every letter moves right by the number of capitals before it, and each capital follows its own space |
| Reports.SpacedKeepsLetters | frontend/src/pages/Reports.jsx:44 | removing the inserted spaces gives back the key |
| Reports.ReportsView.constructor | frontend/src/pages/Reports.jsx:6-12 | the initial configuration |
| Reports.ReportsView.OnToggle | frontend/src/pages/Reports.jsx:14 | the configuration becomes its toggle and stays well formed |
| ResultsPage.Rows | frontend/src/pages/ResultsPage.jsx:53-61 | one row per leaderboard entry, and a null entry is a TypeError |
| ResultsPage.MissingDataOnly | frontend/src/pages/ResultsPage.jsx:4-6 | only missing data renders the missing-data view |
| ResultsPage.DefaultsForBareRun | frontend/src/pages/ResultsPage.jsx:8-24 | without leaderboard and metrics: no rows, accuracy "N/A", time "N/A" |
| ResultsPage.BestAccuracyChain | frontend/src/pages/ResultsPage.jsx:16-19 | metrics.accuracy if non-nullish, else the first entry's accuracy if non-nullish, else "N/A" |
| ResultsPage.TrainingTimeOnlyForNumbers | frontend/src/pages/ResultsPage.jsx:21-24 | the training time shows only for a number |
| ResultsPage.RowFallbacks | frontend/src/pages/ResultsPage.jsx:56-59 | a nullish accuracy or loss shows "N/A"; a falsy latency shows "N/A" |
| ResultsPage.ZeroLatencyIsNA | frontend/src/pages/ResultsPage.jsx:59 | a latency of 0 shows "N/A" while a loss of 0 shows 0 |
| Badge.StylesSpec | frontend/src/components/Badge.jsx:4-21 | active/running green, completed/success blue, failed/error red, anything else gray |
| Badge.StylesIgnoreCase | frontend/src/components/Badge.jsx:5 | the style does not depend on the status's case |
| Badge.PlanningLooksUnknown | frontend/src/components/Badge.jsx:15-19 | planning, pending and any unknown status share the gray style |
| Badge.Render | frontend/src/components/Badge.jsx:23-27 | the text shown is the status exactly as given |

## Left out

- Network, sockets and server processes are outside the model:
  - the `axios` posts are modelled only by the response they yield;
  - the benchmark `fetch` is not modelled;
  - the `send_json` call is modelled only by the payload it would send;
  - the FastAPI endpoints, the WebSocket pages and the backend runner wrappers around the ML libraries are left out.
- The `threading.Lock` of the registry is left out: saves are modelled sequentially.
- The `logging.Formatter` and stream handler are reduced to a handler count.
- `JSON.stringify`/`JSON.parse` through `localStorage` and `json.dump`/`json.load` through the results file are modelled as the identity. Key order and the `indent` formatting are not modelled.
- MockData.DeterministicResults: a `toFixed` result is kept as `Fixed(value, digits)` and its digits are not spelled out. The `Math.random` draws are parameters, so each loss value is bounded by `MockData.LossCurveShape` rather than fixed.
- `Date.now()`, `toLocaleDateString`, `toISOString` and the log timestamps are parameters. Id uniqueness is not claimed.
- `parseFloat` on the compare page is a parameter of type `string -> Option<real>`. Numbers are exact rationals, so NaN arises only from that parser and Infinity does not occur.
- Benchmark.Truncated: works on the decimal string a number prints as, given as a parameter. `Number.prototype.toString` itself is not modelled. The cut is applied to exponent forms too, so a value below 1e-6 is shown without its exponent (Benchmark.ExponentFormLosesExponent).
- Case mapping covers ASCII letters only; `toLowerCase`, `toUpperCase` and `str.lower` on other scripts are not modelled.
- A `toFixed` string stored as an experiment's name or project is treated as a non-string. The model then reports a TypeError where JavaScript would search its digits.
- Badge.Styles: a `toFixed` string given as the status is treated as a non-string (a TypeError), where JavaScript would lower-case its digits.
- JarvisPage.FirstName: a `toFixed` string stored as the user's name is treated as a non-string, where JavaScript would split its digits.
- ResultsPage.Render: a `toFixed` string stored as the experiment's model is treated as a non-string in the tool cell, where JavaScript would show its digits.
- ComparePage.ParseValue: an array holding a number, such as `[5]`, gives NaN, where `parseFloat` reads the number its printed form starts with.
- MockData.IncrementCount: a count that is a `toFixed` string, or an array holding a number, is concatenated with "1" by JavaScript; the model does not spell out those digits and stores `null` instead.
- MockData.AddExperiment: an object model with its own `length` field is read as having no length, where JavaScript would seed the generator with that field. The printed form of a number or `toFixed` model is the parameter `shown`.
- MockData.FindByName: a `toFixed` name and a string name holding the same digits are `===` in JavaScript but differ in the model, whose `toFixed` digits are not spelled out; two `toFixed` names that print alike but come from different numbers differ too.
- MockData.FindById: the same holds for a `toFixed` id against a string id.
- MockData.MetricsFromLength: `.length` counts UTF-16 code units; the model counts Unicode scalar values, so the seed of a name with characters outside the Basic Multilingual Plane differs. The same holds for the generated leaderboard.
- The `log.info` and `log.warning` calls of backend/splitter.py:19 and 23 and backend/metrics.py:20 are left out; they only write to the log.
- JarvisPage.StoredUser: a plain string stored under the user key is a `SyntaxError`, even where that string is valid JSON.
- The file size shown by the import panel (`toFixed(2)` of megabytes) is not modelled, and neither are the `FileReader` delay or a non-string file name.
- `console.log`/`console.error` calls, navigation, React rendering, CSS classes and the 1.5 s demo retry after a failed upload are left out.
- The `catch` branch of the Jarvis send handler cannot be reached in the model, because the reply is a pure function.
- Service.Greater: Python's `1 == True` equality, and ordered comparison between lists, are not modelled. Only numbers and strings compare; every other mix is a TypeError. A `toFixed` string, whose digits the model does not spell out, is a TypeError against anything, where Python would compare it as a string.
- pandas is reduced to named columns of cells. dtypes are object, numeric or other. Duplicate column names and `train_test_split` itself are not modelled: `Splitter.SplitData` stops at what is passed to it.
- The orchestrator calls `detect_task` and `split_data` with arities their definitions do not accept, and it only dispatches to the runners. It is not modelled.

## Findings

| source | as written | input that shows it | evidently intended | confidence | as-written member | corrected member |
|---|---|---|---|---|---|---|
| backend/splitter.py:21-26 | the target column goes through the leakage drop, so a target with one distinct value per row is removed and `df.drop(columns=[target])` raises KeyError | a frame with a "price" column of three different values, target "price", task "regression" | the leakage rule applies to the features only, and the target is always separated | not executed | Splitter.RegressionTargetDropped | Splitter.SplitDataCorrectedSeparates |
| frontend/src/pages/BenchmarkPage.jsx:201-210 | the "Best Tool" row for a metric takes the first row in which ANY of the seven fields equals that metric's best value | rows a = {accuracy 0.8, precision 0.9, tool "a"}, b = {accuracy 0.9, tool "b"}: best accuracy 0.9 is credited to "a" | the first row whose own column holds the best value | not executed | Benchmark.BestToolCreditsOtherColumn | Benchmark.BestToolForSpec |
| frontend/src/pages/BenchmarkPage.jsx:54-63, 73-79 | a column with no numeric cell gives `{}`, so `ex.best` and `ex.worst` are undefined and every undefined cell is marked both ▲ and ▼ | two rows with no `metrics` object: each accuracy cell shows both markers | no markers in a column without numbers | not executed | Benchmark.EmptyCellMarkedWithoutNumbers | Benchmark.RenderCorrectedSpec |
