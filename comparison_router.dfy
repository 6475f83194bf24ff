/** The comparison router: locating each artifact in the two results
    folders, the four-way decision per artifact kind, and the per-class
    run of all five comparisons (compare_tools/comparison_router.py). */
module ComparisonRouter {
  import opened Wrappers
  import opened PathLib
  import opened Events
  import opened Timestamps

  // ---------------------------------------------------------------------
  // Locating files

  /** The filesystem as glob sees it: the matches `glob.glob` returns for a
      search path, in enumeration order. A search path outside the map has
      no match. */
  type FileSystem = map<string, seq<string>>

  function Matches(fs: FileSystem, searchPath: string): seq<string>
  {
    if searchPath in fs then fs[searchPath] else []
  }

  /** `os.path.join(results_folder, subfolder, pattern)`. */
  function SearchPath(folder: string, subfolder: string, pattern: string): string
  {
    PathJoin(PathJoin(folder, subfolder), pattern)
  }

  /** `find_file`: the first match, unsorted, or None when there is none. */
  function FindFile(fs: FileSystem, folder: string, subfolder: string, pattern: string): (r: Option<string>)
    ensures r.None? <==> Matches(fs, SearchPath(folder, subfolder, pattern)) == []
    ensures r.Some? ==> r.value == Matches(fs, SearchPath(folder, subfolder, pattern))[0]
  {
    var files := Matches(fs, SearchPath(folder, subfolder, pattern));
    if files != [] then Some(files[0]) else None
  }

  /** Python truthiness of `find_file`'s result: None and "" are false. */
  predicate Truthy(p: Option<string>)
  {
    p.Some? && p.value != ""
  }

  // ---------------------------------------------------------------------
  // The per-kind decision

  /** The four outcomes of looking an artifact up on both sides. */
  datatype Outcome = BothFound | MissingIn2 | MissingIn1 | MissingInEither

  function Classify(p1: Option<string>, p2: Option<string>): (o: Outcome)
    ensures o == BothFound <==> Truthy(p1) && Truthy(p2)
    ensures o == MissingIn2 <==> Truthy(p1) && !Truthy(p2)
    ensures o == MissingIn1 <==> !Truthy(p1) && Truthy(p2)
    ensures o == MissingInEither <==> !Truthy(p1) && !Truthy(p2)
  {
    if Truthy(p1) && Truthy(p2) then BothFound
    else if Truthy(p1) then MissingIn2
    else if Truthy(p2) then MissingIn1
    else MissingInEither
  }

  /** The artifact's name as the log messages spell it. */
  function Label(k: Kind): string
  {
    match k
    case InputYml => "input YML"
    case MetricsJson => "metrics JSON"
    case AggregatedTsv => "aggregated TSV"
    case UnaggregatedTsv => "unaggregated TSV"
    case ReferenceMatches => "reference match TSV"
  }

  function Subfolder(k: Kind, prefix: string): string
  {
    if k == InputYml then prefix + "/log" else prefix + "/"
  }

  function Pattern(k: Kind): string
  {
    match k
    case InputYml => "inputs.yml"
    case MetricsJson => "*all_epitopes.aggregated.metrics.json"
    case AggregatedTsv => "*all_epitopes.aggregated.tsv"
    case UnaggregatedTsv => "*all_epitopes.tsv"
    case ReferenceMatches => "*.reference_matches"
  }

  /** Logged before a comparator runs; only the YML one has no leading newline. */
  function RunningMessage(k: Kind): string
  {
    (if k == InputYml then "" else "\n") + "Running the " + Label(k) + " comparison tool..."
  }

  const Completed: string := "\U{2713} Comparison completed successfully."
  const Skipped: string := "\U{2716} Comparison skipped."
  /** Written as two literals: the verifier does not look inside a string
      literal this long, and the proofs need its first character. */
  const YmlNotIncluded: string := "Input YML files are not " + "included in immuno pipeline results"
  /** `"\u2500" * 55`: a horizontal rule of 55 box-drawing characters. */
  const Rule: string := "\U{2500}\U{2500}\U{2500}\U{2500}\U{2500}\U{2500}\U{2500}\U{2500}\U{2500}\U{2500}\U{2500}" + "\U{2500}\U{2500}\U{2500}\U{2500}\U{2500}\U{2500}\U{2500}\U{2500}\U{2500}\U{2500}\U{2500}" + "\U{2500}\U{2500}\U{2500}\U{2500}\U{2500}\U{2500}\U{2500}\U{2500}\U{2500}\U{2500}\U{2500}" + "\U{2500}\U{2500}\U{2500}\U{2500}\U{2500}\U{2500}\U{2500}\U{2500}\U{2500}\U{2500}\U{2500}" + "\U{2500}\U{2500}\U{2500}\U{2500}\U{2500}\U{2500}\U{2500}\U{2500}\U{2500}\U{2500}\U{2500}"

  /** The folder a missing-file diagnostic blames. */
  function MissingSide(o: Outcome): string
    requires o != BothFound
  {
    match o
    case MissingIn2 => "results folder 2"
    case MissingIn1 => "results folder 1"
    case MissingInEither => "either results folder"
  }

  function MissingLead(k: Kind): string
  {
    "ERROR: Could not locate the " + Label(k) + " file in "
  }

  function MissingMessage(k: Kind, o: Outcome, prefix: string): string
    requires o != BothFound
  {
    MissingLead(k) + MissingSide(o) + " for " + prefix + "."
  }

  const ReportHead: string := "Successfully generated "
  const ReportTail: string := " comparison report."

  /** The prefix named by a closing-banner line, if `m` is one. */
  function ReportedPrefix(m: string): Option<string>
  {
    if |m| >= |ReportHead| + |ReportTail| && m[..|ReportHead|] == ReportHead
       && m[|m| - |ReportTail|..] == ReportTail
    then Some(m[|ReportHead|..|m| - |ReportTail|])
    else None
  }

  /** The middle line of the closing banner. */
  function ReportLine(prefix: string): (m: string)
    ensures ReportedPrefix(m) == Some(prefix)
  {
    var m := ReportHead + prefix + ReportTail;
    assert m[..|ReportHead|] == ReportHead;
    assert m[|m| - |ReportTail|..] == ReportTail;
    assert m[|ReportHead|..|m| - |ReportTail|] == prefix;
    m
  }

  function Banner(prefix: string): seq<Event>
  {
    [Info("\n" + Rule), Info(ReportLine(prefix)), Info(Rule)]
  }

  /** The per-class output folder handed to every comparator. */
  function OutputPath(outputDir: string, classType: string): string
  {
    outputDir + "/" + (if classType == "1" then "mhc_class_i" else "mhc_class_ii")
  }

  /** The column selection each comparator receives. */
  function ColumnsFor(k: Kind, aggregated: seq<string>, unaggregated: seq<string>,
                      referenceMatch: seq<string>): Option<seq<string>>
  {
    match k
    case InputYml => None
    case MetricsJson => None
    case AggregatedTsv => Some(aggregated)
    case UnaggregatedTsv => Some(unaggregated)
    case ReferenceMatches => Some(referenceMatch)
  }

  // ---------------------------------------------------------------------
  // The traces the operations produce

  /** Both files of kind `k` were found, so its comparator runs. */
  predicate Found(fs: FileSystem, k: Kind, prefix: string, folder1: string, folder2: string)
  {
    Classify(FindFile(fs, folder1, Subfolder(k, prefix), Pattern(k)),
             FindFile(fs, folder2, Subfolder(k, prefix), Pattern(k))) == BothFound
  }

  /** What follows the two lookups of kind `k`: the comparator between its
      two log lines, or the diagnostic and the "skipped" line. */
  function Verdict(k: Kind, p1: Option<string>, p2: Option<string>, prefix: string,
                   outputPath: string, classType: string, columns: Option<seq<string>>): seq<Event>
  {
    var outcome := Classify(p1, p2);
    if outcome == BothFound then
      [Info(RunningMessage(k)), Compare(k, p1.value, p2.value, columns, outputPath, classType), Info(Completed)]
    else
      [Error(MissingMessage(k, outcome, prefix)), Info(Skipped)]
  }

  /** One kind: two lookups, then the verdict on what they found. */
  function KindTrace(fs: FileSystem, k: Kind, prefix: string, folder1: string, folder2: string,
                     outputPath: string, classType: string, columns: Option<seq<string>>): seq<Event>
  {
    var sub := Subfolder(k, prefix);
    [Lookup(SearchPath(folder1, sub, Pattern(k))), Lookup(SearchPath(folder2, sub, Pattern(k)))] +
    Verdict(k, FindFile(fs, folder1, sub, Pattern(k)), FindFile(fs, folder2, sub, Pattern(k)),
            prefix, outputPath, classType, columns)
  }

  /** The pVACseq layout has no input YML: nothing is looked up for it. */
  function YmlTrace(fs: FileSystem, prefix: string, folder1: string, folder2: string,
                    outputPath: string, classType: string): seq<Event>
  {
    if !Contains(prefix, "pVACseq") then
      KindTrace(fs, InputYml, prefix, folder1, folder2, outputPath, classType, None)
    else
      [Info(YmlNotIncluded), Info(Skipped)]
  }

  /** `run_comparison` for one class. */
  function RunTrace(fs: FileSystem, classType: string, prefix: string, folder1: string, folder2: string,
                    outputDir: string, aggregated: seq<string>, unaggregated: seq<string>,
                    referenceMatch: seq<string>): seq<Event>
  {
    var out := OutputPath(outputDir, classType);
    YmlTrace(fs, prefix, folder1, folder2, out, classType) +
    KindTrace(fs, MetricsJson, prefix, folder1, folder2, out, classType, None) +
    KindTrace(fs, AggregatedTsv, prefix, folder1, folder2, out, classType, Some(aggregated)) +
    KindTrace(fs, UnaggregatedTsv, prefix, folder1, folder2, out, classType, Some(unaggregated)) +
    KindTrace(fs, ReferenceMatches, prefix, folder1, folder2, out, classType, Some(referenceMatch)) +
    Banner(prefix)
  }

  // ---------------------------------------------------------------------
  // The operations

  /** `find_file`, performing the glob. */
  method Locate(log: EventLog, fs: FileSystem, folder: string, subfolder: string, pattern: string)
    returns (r: Option<string>)
    modifies log
    ensures r == FindFile(fs, folder, subfolder, pattern)
    ensures log.events == old(log.events) + [Lookup(SearchPath(folder, subfolder, pattern))]
  {
    var searchPath := PathJoin(PathJoin(folder, subfolder), pattern);
    log.Record(Lookup(searchPath));
    var files := Matches(fs, searchPath);
    r := if files != [] then Some(files[0]) else None;
  }

  /** One artifact block of `run_comparison`. */
  method CompareKind(log: EventLog, fs: FileSystem, k: Kind, prefix: string, folder1: string, folder2: string,
                     outputPath: string, classType: string, columns: Option<seq<string>>)
    modifies log
    ensures log.events == old(log.events) + KindTrace(fs, k, prefix, folder1, folder2, outputPath, classType, columns)
  {
    var path1 := Locate(log, fs, folder1, Subfolder(k, prefix), Pattern(k));
    var path2 := Locate(log, fs, folder2, Subfolder(k, prefix), Pattern(k));
    ghost var looked := log.events;
    ghost var lookups := [Lookup(SearchPath(folder1, Subfolder(k, prefix), Pattern(k))),
                          Lookup(SearchPath(folder2, Subfolder(k, prefix), Pattern(k)))];
    assert looked == old(log.events) + lookups;
    if Truthy(path1) && Truthy(path2) {
      log.Record(Info(RunningMessage(k)));
      log.Record(Compare(k, path1.value, path2.value, columns, outputPath, classType));
      log.Record(Info(Completed));
    } else {
      var side: Outcome;
      if Truthy(path1) {
        side := MissingIn2;
      } else if Truthy(path2) {
        side := MissingIn1;
      } else {
        side := MissingInEither;
      }
      log.Record(Error(MissingMessage(k, side, prefix)));
      log.Record(Info(Skipped));
    }
    ghost var verdict := Verdict(k, path1, path2, prefix, outputPath, classType, columns);
    assert log.events == looked + verdict;
    AppendAssoc(old(log.events), lookups, verdict);
  }

  /** The closing banner of `run_comparison`. */
  method LogBanner(log: EventLog, prefix: string)
    modifies log
    ensures log.events == old(log.events) + Banner(prefix)
  {
    log.Record(Info("\n" + Rule));
    log.Record(Info(ReportLine(prefix)));
    log.Record(Info(Rule));
  }

  /** `run_comparison`: all five kinds for one MHC class, then the banner. */
  method RunComparison(log: EventLog, fs: FileSystem, classType: string, prefix: string,
                       folder1: string, folder2: string, outputDir: string,
                       aggregated: seq<string>, unaggregated: seq<string>, referenceMatch: seq<string>)
    modifies log
    ensures log.events == old(log.events) +
              RunTrace(fs, classType, prefix, folder1, folder2, outputDir, aggregated, unaggregated, referenceMatch)
  {
    ghost var start := log.events;
    var outputPath := OutputPath(outputDir, classType);
    if !Contains(prefix, "pVACseq") {
      CompareKind(log, fs, InputYml, prefix, folder1, folder2, outputPath, classType, None);
    } else {
      log.Record(Info(YmlNotIncluded));
      log.Record(Info(Skipped));
    }
    ghost var done := YmlTrace(fs, prefix, folder1, folder2, outputPath, classType);
    assert log.events == start + done;
    CompareKind(log, fs, MetricsJson, prefix, folder1, folder2, outputPath, classType, None);
    ghost var jsonBlock := KindTrace(fs, MetricsJson, prefix, folder1, folder2, outputPath, classType, None);
    AppendAssoc(start, done, jsonBlock);
    done := done + jsonBlock;
    assert log.events == start + done;
    CompareKind(log, fs, AggregatedTsv, prefix, folder1, folder2, outputPath, classType, Some(aggregated));
    ghost var aggregatedBlock := KindTrace(fs, AggregatedTsv, prefix, folder1, folder2, outputPath, classType, Some(aggregated));
    AppendAssoc(start, done, aggregatedBlock);
    done := done + aggregatedBlock;
    assert log.events == start + done;
    CompareKind(log, fs, UnaggregatedTsv, prefix, folder1, folder2, outputPath, classType, Some(unaggregated));
    ghost var unaggregatedBlock := KindTrace(fs, UnaggregatedTsv, prefix, folder1, folder2, outputPath, classType, Some(unaggregated));
    AppendAssoc(start, done, unaggregatedBlock);
    done := done + unaggregatedBlock;
    assert log.events == start + done;
    CompareKind(log, fs, ReferenceMatches, prefix, folder1, folder2, outputPath, classType, Some(referenceMatch));
    ghost var referenceBlock := KindTrace(fs, ReferenceMatches, prefix, folder1, folder2, outputPath, classType, Some(referenceMatch));
    AppendAssoc(start, done, referenceBlock);
    done := done + referenceBlock;
    assert log.events == start + done;
    LogBanner(log, prefix);
    AppendAssoc(start, done, Banner(prefix));
    done := done + Banner(prefix);
    assert log.events == start + done;
  }

  // ---------------------------------------------------------------------
  // The output folder

  function ResultsRoot(baseOutputDir: string, now: Timestamp): string
    requires ValidTimestamp(now)
  {
    baseOutputDir + "/results_" + Strftime(now)
  }

  /** The `os.makedirs` calls of `prepare_results_folder`. */
  function PrepareTrace(classes: seq<string>, root: string): seq<Event>
  {
    [MakeDir(root)] +
    (if "1" in classes then [MakeDir(root + "/mhc_class_i")] else []) +
    (if "2" in classes then [MakeDir(root + "/mhc_class_ii")] else [])
  }

  /** `prepare_results_folder`: the timestamped root, then one folder per class asked for. */
  method PrepareResultsFolder(log: EventLog, classes: seq<string>, baseOutputDir: string, now: Timestamp)
    returns (root: string)
    requires ValidTimestamp(now)
    modifies log
    ensures root == ResultsRoot(baseOutputDir, now)
    ensures log.events == old(log.events) + PrepareTrace(classes, root)
  {
    var timestamp := Strftime(now);
    root := baseOutputDir + "/results_" + timestamp;
    log.Record(MakeDir(root));
    if "1" in classes {
      log.Record(MakeDir(root + "/mhc_class_i"));
    }
    if "2" in classes {
      log.Record(MakeDir(root + "/mhc_class_ii"));
    }
  }
}
