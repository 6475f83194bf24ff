/** What `main` promises about the whole run: validation first and
    fail-fast, one router run per class in order, every comparison
    writing into a folder that was created for it. */
module RunProperties {
  import opened Wrappers
  import opened Events
  import opened Timestamps
  import opened ComparisonRouter
  import opened RouterProperties
  import opened Run

  /** The column selection `main` hands to the validator of kind `k`. */
  function SelectionOf(args: Args, k: Kind): seq<string>
  {
    match k
    case AggregatedTsv => args.aggregatedColumns
    case UnaggregatedTsv => args.unaggregatedColumns
    case ReferenceMatches => args.referenceMatchColumns
    case _ => []
  }

  /** The banner prefix of each class, in class order. */
  function Prefixes(prefixFor: string -> string, classes: seq<string>): seq<string>
  {
    seq(|classes|, i requires 0 <= i < |classes| => prefixFor(classes[i]))
  }

  lemma PrefixesSnoc(prefixFor: string -> string, classes: seq<string>)
    requires classes != []
    ensures Prefixes(prefixFor, classes) ==
            Prefixes(prefixFor, classes[..|classes| - 1]) + [prefixFor(classes[|classes| - 1])]
  {
  }

  lemma {:induction false} SelectNothing<T>(t: seq<Event>, f: Event -> Option<T>)
    requires forall e :: e in t ==> f(e).None?
    ensures Select(t, f) == []
    decreases |t|
  {
    if t != [] {
      assert t[0] in t;
      assert forall e :: e in t[1..] ==> e in t;
      SelectNothing(t[1..], f);
    }
  }

  // ---------------------------------------------------------------------
  // The pieces of `main`'s trace

  /** The validator is called for the aggregated, unaggregated and
      reference-match selections in that order, stopping after the first
      it refuses; nothing but validator calls happen in this phase. */
  lemma ValidationTraceShape(args: Args)
    ensures var v := ValidationTrace(args);
      1 <= |v| <= 3 &&
      (forall e :: e in v ==> e.Validate? && e.selection == SelectionOf(args, e.table)) &&
      (FirstInvalid(args).Some? ==> v[|v| - 1] == Validate(FirstInvalid(args).value, SelectionOf(args, FirstInvalid(args).value))) &&
      (FirstInvalid(args).None? ==>
        v == [Validate(AggregatedTsv, args.aggregatedColumns), Validate(UnaggregatedTsv, args.unaggregatedColumns),
              Validate(ReferenceMatches, args.referenceMatchColumns)])
  {
  }

  lemma {:induction false} ClassTracesEvents(fs: FileSystem, args: Args, classes: seq<string>, root: string,
                                             prefixFor: string -> string)
    ensures forall e :: e in ClassTraces(fs, args, classes, root, prefixFor) ==> RouterEvent(e)
    decreases |classes|
  {
    if classes != [] {
      var c := classes[|classes| - 1];
      ClassTracesEvents(fs, args, classes[..|classes| - 1], root, prefixFor);
      RunTraceEvents(fs, c, prefixFor(c), args.resultsFolder1, args.resultsFolder2, root,
                     args.aggregatedColumns, args.unaggregatedColumns, args.referenceMatchColumns);
    }
  }

  /** Every comparator run by the class loop belongs to one of the classes,
      writes to that class's output folder under `root`, and gets the
      column selection of its kind from the command line. */
  lemma {:induction false} ClassTracesRouting(fs: FileSystem, args: Args, classes: seq<string>, root: string,
                                              prefixFor: string -> string)
    ensures forall e :: e in ClassTraces(fs, args, classes, root, prefixFor) && e.Compare? ==>
      e.classType in classes && e.outputPath == OutputPath(root, e.classType) &&
      e.columns == ColumnsFor(e.kind, args.aggregatedColumns, args.unaggregatedColumns, args.referenceMatchColumns)
    decreases |classes|
  {
    if classes != [] {
      var c := classes[|classes| - 1];
      var init := classes[..|classes| - 1];
      ClassTracesRouting(fs, args, init, root, prefixFor);
      RunTraceRouting(fs, c, prefixFor(c), args.resultsFolder1, args.resultsFolder2, root,
                      args.aggregatedColumns, args.unaggregatedColumns, args.referenceMatchColumns);
      assert forall x :: x in init ==> x in classes;
    }
  }

  /** The class loop closes one banner per class, naming that class's
      prefix, in class order. */
  lemma {:induction false} ClassTracesReports(fs: FileSystem, args: Args, classes: seq<string>, root: string,
                                              prefixFor: string -> string)
    ensures Reports(ClassTraces(fs, args, classes, root, prefixFor)) == Prefixes(prefixFor, classes)
    decreases |classes|
  {
    if classes != [] {
      var c := classes[|classes| - 1];
      var init := classes[..|classes| - 1];
      var run := RunTrace(fs, c, prefixFor(c), args.resultsFolder1, args.resultsFolder2, root,
                          args.aggregatedColumns, args.unaggregatedColumns, args.referenceMatchColumns);
      ClassTracesReports(fs, args, init, root, prefixFor);
      SelectAppend(ClassTraces(fs, args, init, root, prefixFor), run, ReportOf);
      RunTraceEndsWithBanner(fs, c, prefixFor(c), args.resultsFolder1, args.resultsFolder2, root,
                             args.aggregatedColumns, args.unaggregatedColumns, args.referenceMatchColumns);
      PrefixesSnoc(prefixFor, classes);
    }
  }

  /** The class loop logs five outcome lines per class. */
  lemma {:induction false} ClassTracesOutcomes(fs: FileSystem, args: Args, classes: seq<string>, root: string,
                                               prefixFor: string -> string)
    ensures |OutcomeLines(ClassTraces(fs, args, classes, root, prefixFor))| == 5 * |classes|
    decreases |classes|
  {
    if classes != [] {
      var c := classes[|classes| - 1];
      var init := classes[..|classes| - 1];
      var run := RunTrace(fs, c, prefixFor(c), args.resultsFolder1, args.resultsFolder2, root,
                          args.aggregatedColumns, args.unaggregatedColumns, args.referenceMatchColumns);
      ClassTracesOutcomes(fs, args, init, root, prefixFor);
      SelectAppend(ClassTraces(fs, args, init, root, prefixFor), run, OutcomeLineOf);
      RunTraceOutcomes(fs, c, prefixFor(c), args.resultsFolder1, args.resultsFolder2, root,
                       args.aggregatedColumns, args.unaggregatedColumns, args.referenceMatchColumns);
    }
  }

  lemma SelectThreeParts<T>(a: seq<Event>, b: seq<Event>, c: seq<Event>, f: Event -> Option<T>)
    ensures Select(a + (b + c), f) == Select(a, f) + (Select(b, f) + Select(c, f))
  {
    SelectAppend(a, b + c, f);
    SelectAppend(b, c, f);
  }

  lemma SelectOnlyLast<T>(a: seq<Event>, b: seq<Event>, c: seq<Event>, f: Event -> Option<T>)
    requires Select(a, f) == [] && Select(b, f) == []
    ensures Select(a + (b + c), f) == Select(c, f)
  {
    SelectThreeParts(a, b, c, f);
  }

  /** A trace made of validator calls followed by anything but validator
      calls: the validator calls are exactly its first events. */
  lemma ValidatedPrefix(t: seq<Event>, v: seq<Event>, w: seq<Event>)
    requires t == v + w
    requires forall e :: e in v ==> e.Validate?
    requires forall e :: e in w ==> !e.Validate?
    ensures |v| <= |t| && t[..|v|] == v
    ensures forall i :: 0 <= i < |t| ==> (t[i].Validate? <==> i < |v|)
    ensures forall i, j :: 0 <= i < j < |t| && t[i].MakeDir? ==> !t[j].Validate?
  {
    forall i | 0 <= i < |t| ensures t[i].Validate? <==> i < |v| {
      if i < |v| {
        assert t[i] == v[i] && v[i] in v;
      } else {
        assert t[i] == w[i - |v|] && w[i - |v|] in w;
      }
    }
  }

  /** `prepare_results_folder` only creates directories. */
  lemma PrepareTraceDirs(classes: seq<string>, root: string)
    ensures forall e :: e in PrepareTrace(classes, root) ==> e.MakeDir?
  {
    var i: seq<Event> := if "1" in classes then [MakeDir(root + "/mhc_class_i")] else [];
    var ii: seq<Event> := if "2" in classes then [MakeDir(root + "/mhc_class_ii")] else [];
    assert PrepareTrace(classes, root) == [MakeDir(root)] + i + ii;
  }

  /** The folder of an accepted class is among those prepared. */
  lemma ClassFolderPrepared(classes: seq<string>, root: string, c: string)
    requires c in classes && c in MhcClassChoices
    ensures MakeDir(OutputPath(root, c)) in PrepareTrace(classes, root)
  {
    if c == "1" {
      assert OutputPath(root, c) == root + "/mhc_class_i";
    } else {
      assert OutputPath(root, c) == root + "/mhc_class_ii";
    }
  }

  // ---------------------------------------------------------------------
  // The whole run

  /** An accepted run is its validations, the folder preparation and the
      class loop, in that order. */
  lemma MainTraceAccepted(fs: FileSystem, args: Args, now: Timestamp, prefixFor: string -> string)
    requires ValidTimestamp(now)
    requires FirstInvalid(args).None?
    ensures var classes := ClassList(args.mhcClass);
      var root := ResultsRoot(args.outputDir, now);
      MainTrace(fs, args, now, prefixFor) ==
        ValidationTrace(args) + (PrepareTrace(classes, root) + ClassTraces(fs, args, classes, root, prefixFor))
  {
  }

  /** The validator calls are exactly the first events of the run, so all
      three validations happen before any folder is created. */
  lemma ValidationComesFirst(fs: FileSystem, args: Args, now: Timestamp, prefixFor: string -> string)
    requires ValidTimestamp(now)
    ensures var t := MainTrace(fs, args, now, prefixFor);
      var v := ValidationTrace(args);
      |v| <= |t| && t[..|v|] == v &&
      (forall i :: 0 <= i < |t| ==> (t[i].Validate? <==> i < |v|)) &&
      (forall i, j :: 0 <= i < j < |t| && t[i].MakeDir? ==> !t[j].Validate?)
  {
    var t := MainTrace(fs, args, now, prefixFor);
    var v := ValidationTrace(args);
    assert forall e :: e in v ==> e.Validate? by { ValidationTraceShape(args); }
    if FirstInvalid(args).Some? {
      assert t == v + [];
      ValidatedPrefix(t, v, []);
    } else {
      var classes := ClassList(args.mhcClass);
      var root := ResultsRoot(args.outputDir, now);
      var w := PrepareTrace(classes, root) + ClassTraces(fs, args, classes, root, prefixFor);
      assert t == v + w by { MainTraceAccepted(fs, args, now, prefixFor); }
      assert forall e :: e in w ==> !e.Validate? by {
        ClassTracesEvents(fs, args, classes, root, prefixFor);
        PrepareTraceDirs(classes, root);
      }
      ValidatedPrefix(t, v, w);
    }
  }

  /** A refused column selection ends the run at once: the outcome names
      the refused kind, the last event is its validator call, and no folder
      is created, no file looked up and no comparator run. */
  lemma RejectedRun(fs: FileSystem, args: Args, now: Timestamp, prefixFor: string -> string)
    requires ValidTimestamp(now)
    requires FirstInvalid(args).Some?
    ensures var t := MainTrace(fs, args, now, prefixFor);
      var k := FirstInvalid(args).value;
      MainOutcome(args, now) == Rejected(k) &&
      |t| >= 1 && t[|t| - 1] == Validate(k, SelectionOf(args, k)) &&
      CreatedDirs(t) == [] && Lookups(t) == [] && ComparedKinds(t) == []
  {
    var t := MainTrace(fs, args, now, prefixFor);
    ValidationTraceShape(args);
    assert t == ValidationTrace(args);
    SelectNothing(t, CreatedDirOf);
    SelectNothing(t, LookupOf);
    SelectNothing(t, ComparedKindOf);
  }

  /** When every selection passes, the run validates all three, creates
      the results folder next, and creates no other folders than
      `prepare_results_folder` does. */
  lemma AcceptedRun(fs: FileSystem, args: Args, now: Timestamp, prefixFor: string -> string)
    requires ValidTimestamp(now)
    requires FirstInvalid(args).None?
    ensures var t := MainTrace(fs, args, now, prefixFor);
      var root := ResultsRoot(args.outputDir, now);
      MainOutcome(args, now) == Finished(root) &&
      |t| >= 4 && t[3] == MakeDir(root) &&
      t[..3] == [Validate(AggregatedTsv, args.aggregatedColumns), Validate(UnaggregatedTsv, args.unaggregatedColumns),
                 Validate(ReferenceMatches, args.referenceMatchColumns)] &&
      CreatedDirs(t) == CreatedDirs(PrepareTrace(ClassList(args.mhcClass), root))
  {
    var t := MainTrace(fs, args, now, prefixFor);
    var classes := ClassList(args.mhcClass);
    var root := ResultsRoot(args.outputDir, now);
    var v := ValidationTrace(args);
    var p := PrepareTrace(classes, root);
    var c := ClassTraces(fs, args, classes, root, prefixFor);
    assert t == v + (p + c) by { MainTraceAccepted(fs, args, now, prefixFor); }
    assert v == [Validate(AggregatedTsv, args.aggregatedColumns), Validate(UnaggregatedTsv, args.unaggregatedColumns),
                 Validate(ReferenceMatches, args.referenceMatchColumns)] by { ValidationTraceShape(args); }
    assert forall e :: e in c ==> RouterEvent(e) by { ClassTracesEvents(fs, args, classes, root, prefixFor); }
    AcceptedLayout(v, p, c, root);
  }

  /** The layout of an accepted run over plain sequences: three validator
      calls, then a preparation starting with the root, then router events. */
  lemma AcceptedLayout(v: seq<Event>, p: seq<Event>, c: seq<Event>, root: string)
    requires |v| == 3 && forall e :: e in v ==> e.Validate?
    requires |p| >= 1 && p[0] == MakeDir(root)
    requires forall e :: e in c ==> RouterEvent(e)
    ensures var t := v + (p + c);
      |t| >= 4 && t[3] == MakeDir(root) && t[..3] == v && CreatedDirs(t) == CreatedDirs(p)
  {
    SelectNothing(v, CreatedDirOf);
    SelectNothing(c, CreatedDirOf);
    SelectAppend(v, p + c, CreatedDirOf);
    SelectAppend(p, c, CreatedDirOf);
  }

  lemma AcceptedReports(fs: FileSystem, args: Args, classes: seq<string>, root: string, prefixFor: string -> string)
    ensures Reports(ValidationTrace(args) + (PrepareTrace(classes, root) + ClassTraces(fs, args, classes, root, prefixFor)))
            == Prefixes(prefixFor, classes)
  {
    var v := ValidationTrace(args);
    var p := PrepareTrace(classes, root);
    var c := ClassTraces(fs, args, classes, root, prefixFor);
    assert Reports(v) == [] by {
      ValidationTraceShape(args);
      SelectNothing(v, ReportOf);
    }
    assert Reports(p) == [] by {
      PrepareTraceDirs(classes, root);
      SelectNothing(p, ReportOf);
    }
    assert Reports(c) == Prefixes(prefixFor, classes) by { ClassTracesReports(fs, args, classes, root, prefixFor); }
    SelectOnlyLast(v, p, c, ReportOf);
  }

  lemma AcceptedRouting(fs: FileSystem, args: Args, classes: seq<string>, root: string, prefixFor: string -> string)
    requires forall c :: c in classes ==> c in MhcClassChoices
    ensures var t := ValidationTrace(args) + (PrepareTrace(classes, root) + ClassTraces(fs, args, classes, root, prefixFor));
      forall e :: e in t && e.Compare? ==>
        MakeDir(e.outputPath) in t && e.classType in classes &&
        e.columns == ColumnsFor(e.kind, args.aggregatedColumns, args.unaggregatedColumns, args.referenceMatchColumns)
  {
    var v := ValidationTrace(args);
    var p := PrepareTrace(classes, root);
    var c := ClassTraces(fs, args, classes, root, prefixFor);
    var t := v + (p + c);
    assert forall e :: e in v ==> e.Validate? by { ValidationTraceShape(args); }
    assert forall e :: e in p ==> e.MakeDir? by { PrepareTraceDirs(classes, root); }
    assert forall e :: e in c && e.Compare? ==>
      e.classType in classes && e.outputPath == OutputPath(root, e.classType) &&
      e.columns == ColumnsFor(e.kind, args.aggregatedColumns, args.unaggregatedColumns, args.referenceMatchColumns) by {
      ClassTracesRouting(fs, args, classes, root, prefixFor);
    }
    forall e | e in t && e.Compare?
      ensures MakeDir(e.outputPath) in t && e.classType in classes &&
        e.columns == ColumnsFor(e.kind, args.aggregatedColumns, args.unaggregatedColumns, args.referenceMatchColumns)
    {
      assert e in c;
      ClassFolderPrepared(classes, root, e.classType);
      assert MakeDir(e.outputPath) in p;
    }
  }

  /** `run_comparison` runs once per class, in class order: the run's
      banners name the classes' prefixes in that order. A refused run has
      none. */
  lemma ReportsOncePerClass(fs: FileSystem, args: Args, now: Timestamp, prefixFor: string -> string)
    requires ValidTimestamp(now)
    ensures var t := MainTrace(fs, args, now, prefixFor);
      Reports(t) == if FirstInvalid(args).Some? then [] else Prefixes(prefixFor, ClassList(args.mhcClass))
  {
    if FirstInvalid(args).None? {
      MainTraceAccepted(fs, args, now, prefixFor);
      AcceptedReports(fs, args, ClassList(args.mhcClass), ResultsRoot(args.outputDir, now), prefixFor);
    } else {
      var v := ValidationTrace(args);
      assert MainTrace(fs, args, now, prefixFor) == v;
      ValidationTraceShape(args);
      SelectNothing(v, ReportOf);
    }
  }

  lemma AcceptedOutcomeLines(fs: FileSystem, args: Args, classes: seq<string>, root: string, prefixFor: string -> string)
    ensures |OutcomeLines(ValidationTrace(args) + (PrepareTrace(classes, root) + ClassTraces(fs, args, classes, root, prefixFor)))|
            == 5 * |classes|
  {
    var v := ValidationTrace(args);
    var p := PrepareTrace(classes, root);
    var c := ClassTraces(fs, args, classes, root, prefixFor);
    assert OutcomeLines(v) == [] by {
      ValidationTraceShape(args);
      SelectNothing(v, OutcomeLineOf);
    }
    assert OutcomeLines(p) == [] by {
      PrepareTraceDirs(classes, root);
      SelectNothing(p, OutcomeLineOf);
    }
    assert |OutcomeLines(c)| == 5 * |classes| by { ClassTracesOutcomes(fs, args, classes, root, prefixFor); }
    SelectOnlyLast(v, p, c, OutcomeLineOf);
  }

  /** Every class logs its five outcome lines: five per class in all. */
  lemma OutcomeLinesPerClass(fs: FileSystem, args: Args, now: Timestamp, prefixFor: string -> string)
    requires ValidTimestamp(now)
    requires FirstInvalid(args).None?
    ensures |OutcomeLines(MainTrace(fs, args, now, prefixFor))| == 5 * |ClassList(args.mhcClass)|
  {
    var classes := ClassList(args.mhcClass);
    var root := ResultsRoot(args.outputDir, now);
    MainTraceAccepted(fs, args, now, prefixFor);
    AcceptedOutcomeLines(fs, args, classes, root, prefixFor);
  }

  /** A trace made of a phase without comparisons, then a phase that
      creates folders, then one whose comparators all write into folders of
      the second phase: each comparison comes after the creation of its
      folder. */
  lemma CreatedBefore(v: seq<Event>, p: seq<Event>, c: seq<Event>)
    requires forall e :: e in v ==> !e.Compare?
    requires forall e :: e in p ==> !e.Compare?
    requires forall e :: e in c && e.Compare? ==> MakeDir(e.outputPath) in p
    ensures var t := v + (p + c);
      forall j :: 0 <= j < |t| && t[j].Compare? ==> exists i :: 0 <= i < j && t[i] == MakeDir(t[j].outputPath)
  {
    var t := v + (p + c);
    forall i | 0 <= i < |v| + |p|
      ensures !t[i].Compare?
    {
      if i < |v| {
        assert t[i] == v[i] && v[i] in v;
      } else {
        assert t[i] == p[i - |v|] && p[i - |v|] in p;
      }
    }
    forall j | 0 <= j < |t| && t[j].Compare?
      ensures exists i :: 0 <= i < j && t[i] == MakeDir(t[j].outputPath)
    {
      assert |v| + |p| <= j;
      assert t[j] == c[j - |v| - |p|] && c[j - |v| - |p|] in c;
      var m :| 0 <= m < |p| && p[m] == MakeDir(t[j].outputPath);
      assert t[|v| + m] == p[m];
    }
  }

  /** In an accepted run every comparison follows the creation of its
      output folder. */
  lemma AcceptedFoldersFirst(fs: FileSystem, args: Args, classes: seq<string>, root: string, prefixFor: string -> string)
    requires forall c :: c in classes ==> c in MhcClassChoices
    ensures var t := ValidationTrace(args) + (PrepareTrace(classes, root) + ClassTraces(fs, args, classes, root, prefixFor));
      forall j :: 0 <= j < |t| && t[j].Compare? ==> exists i :: 0 <= i < j && t[i] == MakeDir(t[j].outputPath)
  {
    var v := ValidationTrace(args);
    var p := PrepareTrace(classes, root);
    var c := ClassTraces(fs, args, classes, root, prefixFor);
    assert forall e :: e in v ==> e.Validate? by { ValidationTraceShape(args); }
    assert forall e :: e in p ==> e.MakeDir? by { PrepareTraceDirs(classes, root); }
    assert forall e :: e in c && e.Compare? ==> e.classType in classes && e.outputPath == OutputPath(root, e.classType) by {
      ClassTracesRouting(fs, args, classes, root, prefixFor);
    }
    forall e | e in c && e.Compare?
      ensures MakeDir(e.outputPath) in p
    {
      ClassFolderPrepared(classes, root, e.classType);
    }
    CreatedBefore(v, p, c);
  }

  /** Every comparison of a run follows the creation of its output
      folder; a refused run compares nothing. */
  lemma FoldersBeforeComparisons(fs: FileSystem, args: Args, now: Timestamp, prefixFor: string -> string)
    requires ValidTimestamp(now)
    requires MhcClassAccepted(args.mhcClass)
    ensures var t := MainTrace(fs, args, now, prefixFor);
      forall j :: 0 <= j < |t| && t[j].Compare? ==> exists i :: 0 <= i < j && t[i] == MakeDir(t[j].outputPath)
  {
    if FirstInvalid(args).None? {
      ClassListChoices(args.mhcClass);
      MainTraceAccepted(fs, args, now, prefixFor);
      AcceptedFoldersFirst(fs, args, ClassList(args.mhcClass), ResultsRoot(args.outputDir, now), prefixFor);
    } else {
      var v := ValidationTrace(args);
      assert MainTrace(fs, args, now, prefixFor) == v + ([] + []);
      ValidationTraceShape(args);
      CreatedBefore(v, [], []);
    }
  }

  /** With an accepted `--mhc_class`, every comparator writes into a class
      folder that the same run created beforehand, for one of the classes
      asked for, with the selection of its own kind. */
  lemma ComparisonsInsideCreatedFolders(fs: FileSystem, args: Args, now: Timestamp, prefixFor: string -> string)
    requires ValidTimestamp(now)
    requires MhcClassAccepted(args.mhcClass)
    ensures var t := MainTrace(fs, args, now, prefixFor);
      forall e :: e in t && e.Compare? ==>
        MakeDir(e.outputPath) in t && e.classType in ClassList(args.mhcClass) &&
        e.columns == ColumnsFor(e.kind, args.aggregatedColumns, args.unaggregatedColumns, args.referenceMatchColumns)
    ensures var t := MainTrace(fs, args, now, prefixFor);
      forall j :: 0 <= j < |t| && t[j].Compare? ==> exists i :: 0 <= i < j && t[i] == MakeDir(t[j].outputPath)
  {
    if FirstInvalid(args).None? {
      ClassListChoices(args.mhcClass);
      MainTraceAccepted(fs, args, now, prefixFor);
      AcceptedRouting(fs, args, ClassList(args.mhcClass), ResultsRoot(args.outputDir, now), prefixFor);
    } else {
      var v := ValidationTrace(args);
      assert MainTrace(fs, args, now, prefixFor) == v;
      ValidationTraceShape(args);
    }
    FoldersBeforeComparisons(fs, args, now, prefixFor);
  }

  /** Run with only the two folders, `main` accepts the default column
      selections and runs class I, then class II. */
  lemma DefaultArgsAccepted(folder1: string, folder2: string)
    ensures FirstInvalid(DefaultArgs(folder1, folder2)) == None
    ensures ClassList(DefaultArgs(folder1, folder2).mhcClass) == ["1", "2"]
  {
    DefaultsWhitelisted();
  }
}
