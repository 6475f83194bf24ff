# pVACcompare orchestration, modelled in Dafny

pVACcompare compares two pVACtools/immuno result folders. This project
models the part of it that decides what gets compared:

- `find_file` globs `folder/subfolder/pattern` and keeps the first match.
- `prepare_results_folder` creates a timestamped results folder and one
  sub-folder per MHC class.
- `run_comparison` walks the five artifact kinds in a fixed order: input
  YML, metrics JSON, aggregated TSV, unaggregated TSV and reference
  matches. For each kind it looks the file up in both result folders. It
  runs the comparator when both files are there. Otherwise it logs which
  folder lacks the file, then "skipped". It always ends with a banner
  naming the prefix.
- `main` validates the three column selections, picks the classes,
  prepares the results folder and runs the router once per class.
- The comma-separated column options, the column catalogues, the
  defaults and the `--mhc_class` choices of `run.py`.

Everything observable is one event trace, kept in the class
`Events.EventLog`:

- glob lookups
- log lines, carrying their rendered text (the logging format is the
  bare message)
- comparator calls, with their two files, column selection, output
  folder and class
- validator calls
- directory creations

Each operation is a method that appends to the log. Its `ensures`
equates the new trace with the old one followed by a specification
function of the inputs (`KindTrace`, `RunTrace`, `PrepareTrace`,
`MainTrace`). The lemmas in `router_properties.dfy` and
`run_properties.dfy` prove what those traces promise.

The filesystem is a map from a search path to its ordered glob result.
The current time is a `Timestamp` input, and so is the per-class prefix
(`prefixFor`). Python truthiness of `find_file`'s result is modelled
explicitly (`Truthy`): `None` and `""` both count as missing.

`prepare_results_folder` appears twice in the source, identically, in
`compare_tools/comparison_router.py:20-31` and in `run.py:156-167`. It is
modelled once, as `ComparisonRouter.PrepareResultsFolder`.

Three points about the source shape the model:

- The source derives no per-class prefix and detects no release layout,
  and `main` passes no prefix to `run_comparison` (see "Findings"). The
  prefix of each class is therefore an input.
- The input YML is skipped when the prefix contains `"pVACseq"`
  (`comparison_router.py:53`).
- No comparator call is guarded, so a comparator exception ends the run
  (see "Left out").

## Model

| member | source | states |
|---|---|---|
| ComparisonRouter.FindFile | pvaccompare/compare_tools/comparison_router.py:9-17 | the result is None exactly when the glob of the joined search path is empty; otherwise it is the first match, unsorted |
| ComparisonRouter.Classify | pvaccompare/compare_tools/comparison_router.py:56-75 | the four outcomes, each if and only if its truthiness case: both found, only side 1 (missing in folder 2), only side 2 (missing in folder 1), neither |
| ComparisonRouter.ReportLine | pvaccompare/compare_tools/comparison_router.py:200 | the "Successfully generated … comparison report." line reads back as exactly the prefix it names |
| ComparisonRouter.Locate | pvaccompare/compare_tools/comparison_router.py:15-17 | returns `FindFile`'s answer and logs exactly one lookup, of the joined search path |
| ComparisonRouter.CompareKind | pvaccompare/compare_tools/comparison_router.py:82-108 | one kind's block appends exactly its two lookups followed by the four-way verdict: comparator call between "Running" and "completed", or one missing-file error then "skipped" |
| ComparisonRouter.LogBanner | pvaccompare/compare_tools/comparison_router.py:199-201 | appends the rule, the report line naming the prefix, and the rule |
| ComparisonRouter.RunComparison | pvaccompare/compare_tools/comparison_router.py:34-201 | appends exactly the YML block, the four other kind blocks in order, and the banner |
| ComparisonRouter.PrepareResultsFolder | pvaccompare/compare_tools/comparison_router.py:20-31 | returns `base/results_<YYYYmmdd_HHMMSS>` and creates it, then `mhc_class_i` if "1" is among the classes, then `mhc_class_ii` if "2" is |
| PathLib.PathJoinShape | pvaccompare/compare_tools/comparison_router.py:15 | `os.path.join` ends with its last component; an absolute component replaces everything before it; otherwise the first component is kept as a prefix with at most one '/' between |
| PathLib.Contains | pvaccompare/compare_tools/comparison_router.py:53 | Python's substring test: true exactly when the needle occurs at some position |
| Timestamps.Strftime | pvaccompare/compare_tools/comparison_router.py:21 | the `%Y%m%d_%H%M%S` rendering is 15 characters with `_` at index 8 |
| Timestamps.StrftimeInjective | pvaccompare/compare_tools/comparison_router.py:21 | two different moments, to the second, never render alike |
| RouterProperties.KindDecision | pvaccompare/compare_tools/comparison_router.py:88-108 | the comparator runs if and only if both lookups returned a path; otherwise there is no comparator call, exactly one error naming the side that lacks the file, and "skipped"; with both found there is no error and "completed" |
| RouterProperties.MissingMessagesDistinct | pvaccompare/compare_tools/comparison_router.py:61-75 | the "results folder 2", "results folder 1" and "either results folder" diagnostics are pairwise distinct for every prefix |
| RouterProperties.OutputPathByClass | pvaccompare/compare_tools/comparison_router.py:49-51 | the output folder is `output_dir/mhc_class_i` for class "1" and `output_dir/mhc_class_ii` for every other value; two classes share a folder exactly when both or neither are "1" |
| RouterProperties.PlansOfActiveKinds | pvaccompare/compare_tools/comparison_router.py:53-198 | the lookup plan is the YML paths (unless the prefix contains "pVACseq") followed by the JSON, aggregated, unaggregated and reference-match paths; the kinds compared are those of that list whose files were found |
| RouterProperties.RunTraceLookups | pvaccompare/compare_tools/comparison_router.py:53-198 | every attempted kind is looked up on both sides, in the fixed order, whatever the earlier outcomes |
| RouterProperties.RunTraceComparators | pvaccompare/compare_tools/comparison_router.py:53-198 | the comparators that run are exactly the attempted kinds found on both sides, in kind order |
| RouterProperties.ComparatorsRunWhenFound | pvaccompare/compare_tools/comparison_router.py:53-198 | a kind is compared if and only if it is attempted and found on both sides, and comparisons happen in strictly ascending kind order |
| RouterProperties.RunTraceOutcomes | pvaccompare/compare_tools/comparison_router.py:53-198 | exactly five closing lines per call, one per kind in order: "completed" when its comparator ran, "skipped" otherwise |
| RouterProperties.KindTraceCompares | pvaccompare/compare_tools/comparison_router.py:116-121 | a block's comparator gets the two files found, the class's output folder, the class and the column selection passed to the block |
| RouterProperties.RunTraceRouting | pvaccompare/compare_tools/comparison_router.py:110-180 | over a whole call, aggregated columns go only to the aggregated comparator, unaggregated to the unaggregated one, reference-match to the reference-match one, none to YML and JSON; each gets the found files and the class's folder |
| RouterProperties.RunTraceEvents | pvaccompare/compare_tools/comparison_router.py:34-201 | the router validates nothing and creates no directory |
| RouterProperties.PreparedFolders | pvaccompare/compare_tools/comparison_router.py:24-29 | the root is created first; `mhc_class_i` is created if and only if "1" is in the classes, `mhc_class_ii` if and only if "2" is; nothing else is created |
| RouterProperties.DistinctTimesDistinctRoots | pvaccompare/compare_tools/comparison_router.py:21-22 | runs started at different seconds get different results folders |
| RouterProperties.PVacSeqSkipsInputYml | pvaccompare/compare_tools/comparison_router.py:53-80 | with a "pVACseq" prefix the call opens with the "not included" note and "skipped", never compares the YML and looks up no `inputs.yml` path |
| RouterProperties.InputYmlLookedUpFirst | pvaccompare/compare_tools/comparison_router.py:53-55 | otherwise the first two lookups are `folder1/prefix/log/inputs.yml` and `folder2/prefix/log/inputs.yml` |
| RouterProperties.RunTraceEndsWithBanner | pvaccompare/compare_tools/comparison_router.py:199-201 | whatever the outcomes, the call ends with the three banner lines, and the banner is its only report line, naming the prefix |
| Run.DefaultsWhitelisted | pvaccompare/run.py:16-119 | each default column list is contained in its catalogue |
| Run.SplitOnComma | pvaccompare/run.py:136 | the option splits into one more piece than it has commas, and no piece holds a comma |
| Run.JoinSplit | pvaccompare/run.py:134-151 | joining the parsed pieces with "," gives back the option string exactly (no trimming) |
| Run.SplitJoin | pvaccompare/run.py:134-151 | parsing a comma-joined list of comma-free columns gives back that list |
| Run.ClassListChoices | pvaccompare/run.py:183 | an accepted `--mhc_class` runs exactly that class; no class runs "1" then "2"; every class run is one of the choices, none twice |
| Run.DefaultArgs | pvaccompare/run.py:124-151 | the defaults keep the two folders, leave `--mhc_class` unset, set `--output_dir` to "output" and each column option to its default list |
| Run.BindPositional | pvaccompare/compare_tools/comparison_router.py:34-43 | Python's positional binding succeeds if and only if the argument count equals the parameter count, and then pairs parameters and arguments in order |
| Run.MainCallAsWrittenFails | pvaccompare/run.py:187-195 | the call as written passes one argument too few to `run_comparison`, its binding fails, and the first results folder lands in `prefix` |
| Run.MainCallBinds | pvaccompare/run.py:186-195 | the corrected call, with the class's prefix second, binds every parameter to its intended value |
| Run.CompareEachClass | pvaccompare/run.py:186-195 | the loop appends one router run per class, in class order |
| Run.RunMain | pvaccompare/run.py:170-195 | `main` validates the three selections in order, stopping at the first refused one; otherwise it prepares the folder and runs every class; the outcome is the refused kind or the results root |
| RunProperties.ClassTracesRouting | pvaccompare/run.py:186-195 | every comparator run by the loop belongs to a class of the list, writes to that class's folder under the root, and gets its kind's selection from the command line |
| RunProperties.ValidationComesFirst | pvaccompare/run.py:179-184 | the validator calls are exactly the first events of the run, so no validation follows a directory creation |
| RunProperties.RejectedRun | pvaccompare/run.py:179-181 | a refused selection ends the run at its validator call: no folder, no lookup, no comparator |
| RunProperties.AcceptedRun | pvaccompare/run.py:179-184 | an accepted run validates the three selections, creates the results root as its fourth event, and creates exactly the folders `prepare_results_folder` does |
| RunProperties.ReportsOncePerClass | pvaccompare/run.py:186-195 | the run's banners name the classes' prefixes once each, in class order; a refused run has none |
| RunProperties.OutcomeLinesPerClass | pvaccompare/run.py:186-195 | an accepted run logs five closing lines per class |
| RunProperties.ComparisonsInsideCreatedFolders | pvaccompare/run.py:183-195 | with an accepted `--mhc_class`, every comparator writes into a class folder the same run created before it, for a class asked for, with its kind's selection |
| RunProperties.DefaultArgsAccepted | pvaccompare/run.py:100-119 | with only the two folders given, every default selection passes and both classes run, "1" then "2" |

## Findings

| source | as written | input that shows it | evidently intended | confidence | as-written member | corrected member |
|---|---|---|---|---|---|---|
| pvaccompare/run.py:187-195 | `main` calls `run_comparison` with seven positional arguments; the function takes eight (`class_type, prefix, results_folder1, …`) | any run, e.g. `run.py A B`: the call for class "1" raises `TypeError` (missing `reference_match_columns`), and `A` would bind to `prefix` | pass the class's result prefix as the second argument, then the folders, the results root and the three selections | not executed | Run.MainCallAsWrittenFails | Run.MainCallBinds |

`Run.RunMain` and `Run.MainTrace` use the corrected call. The prefix of a
class comes from the `prefixFor` parameter, because the source has no
code that derives it.

## Left out

- Glob semantics (recursive `**`, wildcards, enumeration order): a search path maps directly to its ordered list of matches.
- `datetime.now()`: the time is a `Timestamp` input, with the year limited to 1000–9999 so that `%Y` has four digits.
- `os.makedirs` failures, including `FileExistsError` for two runs in the same second: creation is recorded as an event and always succeeds.
- Created directories are not added to the filesystem map that later lookups read.
- The `logging` module: each call is an event carrying the rendered message.
- The five comparators from `runners` are not part of this model. Each call is recorded with its arguments. Their exceptions, which would end the run, are not modelled.
- The `validate_*_columns` functions are not part of this model. Each is a recorded call plus a check that every selected column is in `run.py`'s catalogue for that kind. A refusal stops `main` there.
- argparse mechanics: help text, error exits, positional parsing. `--mhc_class`'s choices are the predicate `Run.MhcClassAccepted`. Lemmas that depend on an accepted class require it; `main` itself does not check it, because `parse_args()` rejects bad values at `run.py:177`, before the validations at `run.py:179`.
- Release-layout detection and prefix derivation are not in the source. The prefix of each class is an input.
- The unused `shutil` import.
