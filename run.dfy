/** The command-line entry point of pVACcompare (`pvaccompare/run.py`):
    the column catalogues and defaults, the comma-separated column options,
    the choice of MHC classes, and `main`, which validates the three column
    selections, prepares the results folder and runs the router once per
    class. */
module Run {
  import opened Wrappers
  import opened Events
  import opened Timestamps
  import opened ComparisonRouter

  // ---------------------------------------------------------------------
  // Column catalogues

  /** Columns the aggregated-TSV comparison may be asked to compare. */
  const ValidAggregatedColumns: seq<string> := [
    "Gene", "AA Change", "Num Passing Transcripts", "Best Peptide", "Best Transcript",
    "Num Passing Peptides", "IC50 MT", "IC50 WT", "%%ile MT", "%%ile WT",
    "RNA Expr", "RNA VAF", "DNA VAF", "Tier"
  ]

  /** Columns the unaggregated-TSV comparison may be asked to compare:
      the general ones, then the scores of each binding-prediction
      algorithm. (Written as three displays: the verifier does not index
      into one display of this many strings.) */
  const ValidUnaggregatedColumns: seq<string> := [
    "Biotype", "Median MT IC50 Score", "Median WT IC50 Score", "Median MT Percentile",
    "Median WT Percentile", "WT Epitope Seq", "Tumor DNA VAF", "Tumor RNA Depth",
    "Tumor RNA VAF", "Gene Expression"
  ] + [
    "BigMHC_EL WT Score", "BigMHC_EL MT Score", "BigMHC_IM WT Score", "BigMHC_IM MT Score",
    "MHCflurryEL Processing WT Score", "MHCflurryEL Processing MT Score",
    "MHCflurryEL Presentation WT Score", "MHCflurryEL Presentation MT Score",
    "MHCflurryEL Presentation WT Percentile", "MHCflurryEL Presentation MT Percentile",
    "MHCflurry WT IC50 Score", "MHCflurry MT IC50 Score", "MHCflurry WT Percentile", "MHCflurry MT Percentile",
    "MHCnuggetsI WT IC50 Score", "MHCnuggetsI MT IC50 Score", "MHCnuggetsI WT Percentile", "MHCnuggetsI MT Percentile",
    "NetMHC WT IC50 Score", "NetMHC MT IC50 Score", "NetMHC WT Percentile", "NetMHC MT Percentile"
  ] + [
    "NetMHCcons WT IC50 Score", "NetMHCcons MT IC50 Score", "NetMHCcons WT Percentile", "NetMHCcons MT Percentile",
    "NetMHCpan WT IC50 Score", "NetMHCpan MT IC50 Score", "NetMHCpan WT Percentile", "NetMHCpan MT Percentile",
    "NetMHCpanEL WT Score", "NetMHCpanEL MT Score", "NetMHCpanEL WT Percentile", "NetMHCpanEL MT Percentile",
    "PickPocket WT IC50 Score", "PickPocket MT IC50 Score", "PickPocket WT Percentile", "PickPocket MT Percentile",
    "SMM WT IC50 Score", "SMM MT IC50 Score", "SMM WT Percentile", "SMM MT Percentile",
    "SMMPMBEC WT IC50 Score", "SMMPMBEC MT IC50 Score", "SMMPMBEC WT Percentile", "SMMPMBEC MT Percentile",
    "DeepImmuno WT Score", "DeepImmuno MT Score", "Problematic Positions"
  ]

  /** Columns the reference-match comparison may be asked to compare. */
  const ValidReferenceMatchColumns: seq<string> := ["Peptide", "Hit Definition", "Match Window", "Match Sequence"]

  const DefaultAggregatedColumns: seq<string> :=
    ["Num Passing Transcripts", "Best Peptide", "Best Transcript", "Num Passing Peptides", "Tier"]

  const DefaultUnaggregatedColumns: seq<string> := [
    "Biotype", "Median MT IC50 Score", "Median WT IC50 Score", "Median MT Percentile",
    "Median WT Percentile", "WT Epitope Seq", "Tumor DNA VAF", "Tumor RNA Depth",
    "Tumor RNA VAF", "Gene Expression"
  ]

  const DefaultReferenceMatchColumns: seq<string> := ["Peptide", "Match Window"]

  /** The default of `--output_dir`. */
  const DefaultOutputDir: string := "output"

  /** The values `--mhc_class` accepts. */
  const MhcClassChoices: seq<string> := ["1", "2"]

  /** Every column of `columns` is in `whitelist`. */
  predicate Whitelisted(columns: seq<string>, whitelist: seq<string>)
  {
    forall c :: c in columns ==> c in whitelist
  }

  /** Each default selection passes the check against its own catalogue. */
  lemma DefaultsWhitelisted()
    ensures Whitelisted(DefaultAggregatedColumns, ValidAggregatedColumns)
    ensures Whitelisted(DefaultUnaggregatedColumns, ValidUnaggregatedColumns)
    ensures Whitelisted(DefaultReferenceMatchColumns, ValidReferenceMatchColumns)
  {
    var agg := ValidAggregatedColumns;
    assert agg[2] == "Num Passing Transcripts" && agg[3] == "Best Peptide" && agg[4] == "Best Transcript";
    assert agg[5] == "Num Passing Peptides" && agg[13] == "Tier";
    assert DefaultUnaggregatedColumns == ValidUnaggregatedColumns[..10];
    var refs := ValidReferenceMatchColumns;
    assert DefaultReferenceMatchColumns == [refs[0], refs[2]];
  }

  // ---------------------------------------------------------------------
  // The comma-separated column options

  /** The number of occurrences of `c` in `s`. */
  function Occurrences(s: string, c: char): nat
    decreases |s|
  {
    if s == [] then 0 else (if s[0] == c then 1 else 0) + Occurrences(s[1..], c)
  }

  /** `s.split(",")`: the pieces between commas, in order, untrimmed;
      the empty string gives one empty piece. */
  function SplitOnComma(s: string): (pieces: seq<string>)
    ensures |pieces| == Occurrences(s, ',') + 1
    ensures forall p :: p in pieces ==> ',' !in p
    decreases |s|
  {
    if s == [] then [[]]
    else
      var rest := SplitOnComma(s[1..]);
      if s[0] == ',' then [[]] + rest
      else [[s[0]] + rest[0]] + rest[1..]
  }

  /** `",".join(pieces)`. */
  function JoinWithComma(pieces: seq<string>): string
    decreases |pieces|
  {
    if pieces == [] then []
    else if |pieces| == 1 then pieces[0]
    else pieces[0] + "," + JoinWithComma(pieces[1..])
  }

  /** Joining the parsed pieces with "," gives back the option's text. */
  lemma {:induction false} JoinSplit(s: string)
    ensures JoinWithComma(SplitOnComma(s)) == s
    decreases |s|
  {
    if s != [] {
      var rest := SplitOnComma(s[1..]);
      JoinSplit(s[1..]);
      if s[0] == ',' {
        assert ([[]] + rest)[1..] == rest;
      } else {
        var pieces := [[s[0]] + rest[0]] + rest[1..];
        if |rest| == 1 {
          assert JoinWithComma(pieces) == [s[0]] + rest[0];
        } else {
          assert pieces[1..] == rest[1..];
          assert JoinWithComma(pieces) == [s[0]] + (rest[0] + "," + JoinWithComma(rest[1..]));
        }
        assert s == [s[0]] + s[1..];
      }
    }
  }

  /** Splitting a comma-free word followed by more text glues the word to
      the first piece of the rest. */
  lemma {:induction false} SplitAfterWord(w: string, s: string)
    requires ',' !in w
    ensures SplitOnComma(w + s) == [w + SplitOnComma(s)[0]] + SplitOnComma(s)[1..]
    decreases |w|
  {
    var r := SplitOnComma(s);
    if w == [] {
      assert w + s == s;
      assert w + r[0] == r[0];
      assert r == [r[0]] + r[1..];
    } else {
      assert (w + s)[1..] == w[1..] + s;
      SplitAfterWord(w[1..], s);
      assert [w[0]] + (w[1..] + SplitOnComma(s)[0]) == w + SplitOnComma(s)[0];
    }
  }

  /** Parsing a ","-join of comma-free pieces gives back the pieces. */
  lemma {:induction false} SplitJoin(pieces: seq<string>)
    requires |pieces| >= 1
    requires forall p :: p in pieces ==> ',' !in p
    ensures SplitOnComma(JoinWithComma(pieces)) == pieces
    decreases |pieces|
  {
    var w := pieces[0];
    if |pieces| == 1 {
      SplitAfterWord(w, []);
      assert w + [] == w;
    } else {
      var tail := JoinWithComma(pieces[1..]);
      SplitJoin(pieces[1..]);
      assert w + "," + tail == w + ("," + tail);
      SplitAfterWord(w, "," + tail);
      assert ("," + tail)[1..] == tail;
      assert SplitOnComma("," + tail) == [[]] + pieces[1..];
      assert w + [] == w;
    }
  }

  // ---------------------------------------------------------------------
  // Arguments and classes

  /** The parsed command line that `main` reads. */
  datatype Args = Args(
    resultsFolder1: string,
    resultsFolder2: string,
    outputDir: string,
    mhcClass: Option<string>,
    aggregatedColumns: seq<string>,
    unaggregatedColumns: seq<string>,
    referenceMatchColumns: seq<string>)

  /** The `--mhc_class` value passes the parser's `choices` check. */
  predicate MhcClassAccepted(mhcClass: Option<string>)
  {
    mhcClass.None? || mhcClass.value in MhcClassChoices
  }

  /** The classes `main` runs: the one asked for, or both. */
  function ClassList(mhcClass: Option<string>): seq<string>
  {
    if Truthy(mhcClass) then [mhcClass.value] else ["1", "2"]
  }

  /** An accepted `--mhc_class` runs exactly that class; none runs class
      I then class II; either way every class is a valid choice, once. */
  lemma ClassListChoices(mhcClass: Option<string>)
    requires MhcClassAccepted(mhcClass)
    ensures var classes := ClassList(mhcClass);
      (mhcClass.Some? ==> classes == [mhcClass.value]) &&
      (mhcClass.None? ==> classes == MhcClassChoices) &&
      (forall c :: c in classes ==> c in MhcClassChoices) &&
      (forall i, j :: 0 <= i < j < |classes| ==> classes[i] != classes[j])
  {
  }

  /** The arguments `main` sees when only the two folders are given. */
  function DefaultArgs(folder1: string, folder2: string): (args: Args)
    ensures args.resultsFolder1 == folder1 && args.resultsFolder2 == folder2
    ensures args.mhcClass.None? && args.outputDir == DefaultOutputDir
    ensures args.aggregatedColumns == DefaultAggregatedColumns
    ensures args.unaggregatedColumns == DefaultUnaggregatedColumns
    ensures args.referenceMatchColumns == DefaultReferenceMatchColumns
  {
    Args(folder1, folder2, DefaultOutputDir, None,
         DefaultAggregatedColumns, DefaultUnaggregatedColumns, DefaultReferenceMatchColumns)
  }

  // ---------------------------------------------------------------------
  // `main`

  /** How a run of `main` ends: after all classes, naming the results
      folder, or at the first column selection the validator refuses. */
  datatype RunOutcome = Finished(root: string) | Rejected(table: Kind)

  /** The first tabular kind whose column selection is not whitelisted,
      in the order `main` validates them. */
  function FirstInvalid(args: Args): Option<Kind>
  {
    if !Whitelisted(args.aggregatedColumns, ValidAggregatedColumns) then Some(AggregatedTsv)
    else if !Whitelisted(args.unaggregatedColumns, ValidUnaggregatedColumns) then Some(UnaggregatedTsv)
    else if !Whitelisted(args.referenceMatchColumns, ValidReferenceMatchColumns) then Some(ReferenceMatches)
    else None
  }

  /** The validator calls, up to and including the first refusal. */
  function ValidationTrace(args: Args): seq<Event>
  {
    [Validate(AggregatedTsv, args.aggregatedColumns)] +
    if !Whitelisted(args.aggregatedColumns, ValidAggregatedColumns) then []
    else
      [Validate(UnaggregatedTsv, args.unaggregatedColumns)] +
      if !Whitelisted(args.unaggregatedColumns, ValidUnaggregatedColumns) then []
      else [Validate(ReferenceMatches, args.referenceMatchColumns)]
  }

  /** One `run_comparison` per class of `classes`, in order. */
  function ClassTraces(fs: FileSystem, args: Args, classes: seq<string>, root: string,
                       prefixFor: string -> string): seq<Event>
    decreases |classes|
  {
    if classes == [] then []
    else
      var c := classes[|classes| - 1];
      ClassTraces(fs, args, classes[..|classes| - 1], root, prefixFor) +
      RunTrace(fs, c, prefixFor(c), args.resultsFolder1, args.resultsFolder2, root,
               args.aggregatedColumns, args.unaggregatedColumns, args.referenceMatchColumns)
  }

  /** Everything `main` does, in order. */
  function MainTrace(fs: FileSystem, args: Args, now: Timestamp, prefixFor: string -> string): seq<Event>
    requires ValidTimestamp(now)
  {
    ValidationTrace(args) +
    if FirstInvalid(args).Some? then []
    else
      var classes := ClassList(args.mhcClass);
      var root := ResultsRoot(args.outputDir, now);
      PrepareTrace(classes, root) + ClassTraces(fs, args, classes, root, prefixFor)
  }

  function MainOutcome(args: Args, now: Timestamp): RunOutcome
    requires ValidTimestamp(now)
  {
    match FirstInvalid(args)
    case Some(k) => Rejected(k)
    case None => Finished(ResultsRoot(args.outputDir, now))
  }

  // ---------------------------------------------------------------------
  // The call of `run_comparison` in `main`

  /** An argument value of that call. */
  datatype Value = Text(text: string) | Columns(columns: seq<string>)

  /** The parameters of `run_comparison`, in declaration order. */
  const RunComparisonParameters: seq<string> := [
    "class_type", "prefix", "results_folder1", "results_folder2",
    "output_dir", "aggregated_columns", "unaggregated_columns", "reference_match_columns"
  ]

  /** Python's binding of positional arguments to parameters that have no
      defaults and no `*args`: each parameter takes the argument at its
      position, and any other count of arguments raises TypeError (None). */
  function BindPositional(parameters: seq<string>, actuals: seq<Value>): (r: Option<seq<(string, Value)>>)
    ensures r.Some? <==> |actuals| == |parameters|
    ensures r.Some? ==>
      (|r.value| == |parameters| && forall i :: 0 <= i < |parameters| ==> r.value[i] == (parameters[i], actuals[i]))
  {
    if |actuals| != |parameters| then None
    else Some(seq(|parameters|, i requires 0 <= i < |parameters| => (parameters[i], actuals[i])))
  }

  /** The arguments `main` passes for one class, as written: no prefix. */
  function MainCallAsWritten(classType: string, args: Args, root: string): seq<Value>
  {
    [Text(classType), Text(args.resultsFolder1), Text(args.resultsFolder2), Text(root),
     Columns(args.aggregatedColumns), Columns(args.unaggregatedColumns), Columns(args.referenceMatchColumns)]
  }

  /** As written the call cannot bind: seven arguments for eight
      parameters raise TypeError before any comparison runs, and position
      by position the first results folder would sit where `prefix` is
      expected. */
  lemma MainCallAsWrittenFails(classType: string, args: Args, root: string)
    ensures BindPositional(RunComparisonParameters, MainCallAsWritten(classType, args, root)).None?
    ensures |MainCallAsWritten(classType, args, root)| + 1 == |RunComparisonParameters|
    ensures RunComparisonParameters[1] == "prefix" && MainCallAsWritten(classType, args, root)[1] == Text(args.resultsFolder1)
  {
  }

  /** The arguments of the intended call: the class's prefix second. */
  function MainCall(classType: string, prefix: string, args: Args, root: string): seq<Value>
  {
    [Text(classType), Text(prefix), Text(args.resultsFolder1), Text(args.resultsFolder2), Text(root),
     Columns(args.aggregatedColumns), Columns(args.unaggregatedColumns), Columns(args.referenceMatchColumns)]
  }

  /** Each parameter of `run_comparison` paired with the value of the same name. */
  function Bound(classType: string, prefix: string, args: Args, root: string): seq<(string, Value)>
  {
    [("class_type", Text(classType)), ("prefix", Text(prefix)),
     ("results_folder1", Text(args.resultsFolder1)), ("results_folder2", Text(args.resultsFolder2)),
     ("output_dir", Text(root)), ("aggregated_columns", Columns(args.aggregatedColumns)),
     ("unaggregated_columns", Columns(args.unaggregatedColumns)),
     ("reference_match_columns", Columns(args.referenceMatchColumns))]
  }

  /** The intended call binds, and every parameter receives the value of
      the same name: this is the call `CompareEachClass` makes. */
  lemma MainCallBinds(classType: string, prefix: string, args: Args, root: string)
    ensures BindPositional(RunComparisonParameters, MainCall(classType, prefix, args, root)) == Some(Bound(classType, prefix, args, root))
  {
    var b := BindPositional(RunComparisonParameters, MainCall(classType, prefix, args, root));
    var expected := Bound(classType, prefix, args, root);
    assert |MainCall(classType, prefix, args, root)| == |RunComparisonParameters| == |expected|;
    forall i | 0 <= i < |expected| ensures b.value[i] == expected[i] {
    }
    assert b.value == expected;
  }

  /** The class traces of a prefix of `classes` grow by one run per class. */
  lemma ClassTracesStep(fs: FileSystem, args: Args, classes: seq<string>, i: nat, root: string,
                        prefixFor: string -> string)
    requires i < |classes|
    ensures ClassTraces(fs, args, classes[..i + 1], root, prefixFor) ==
            ClassTraces(fs, args, classes[..i], root, prefixFor) +
            RunTrace(fs, classes[i], prefixFor(classes[i]), args.resultsFolder1, args.resultsFolder2, root,
                     args.aggregatedColumns, args.unaggregatedColumns, args.referenceMatchColumns)
  {
    assert classes[..i + 1][..i] == classes[..i];
  }

  /** The loop of `main`: `run_comparison` for each class, in order, all
      writing under the same results folder. */
  method CompareEachClass(log: EventLog, fs: FileSystem, args: Args, classes: seq<string>, root: string,
                          prefixFor: string -> string)
    modifies log
    ensures log.events == old(log.events) + ClassTraces(fs, args, classes, root, prefixFor)
  {
    ghost var start := log.events;
    for i := 0 to |classes|
      invariant log.events == start + ClassTraces(fs, args, classes[..i], root, prefixFor)
    {
      var c := classes[i];
      RunComparison(log, fs, c, prefixFor(c), args.resultsFolder1, args.resultsFolder2, root,
                    args.aggregatedColumns, args.unaggregatedColumns, args.referenceMatchColumns);
      ClassTracesStep(fs, args, classes, i, root, prefixFor);
      ghost var before := ClassTraces(fs, args, classes[..i], root, prefixFor);
      ghost var run := RunTrace(fs, c, prefixFor(c), args.resultsFolder1, args.resultsFolder2, root,
                                args.aggregatedColumns, args.unaggregatedColumns, args.referenceMatchColumns);
      AppendAssoc(start, before, run);
    }
    assert classes[..|classes|] == classes;
  }

  /** `main`: validate the three selections, prepare the results folder,
      then compare once per class. The prefix of each class's results is
      supplied by `prefixFor`. */
  method RunMain(log: EventLog, fs: FileSystem, args: Args, now: Timestamp, prefixFor: string -> string)
    returns (outcome: RunOutcome)
    requires ValidTimestamp(now)
    modifies log
    ensures outcome == MainOutcome(args, now)
    ensures log.events == old(log.events) + MainTrace(fs, args, now, prefixFor)
  {
    ghost var start := log.events;
    log.Record(Validate(AggregatedTsv, args.aggregatedColumns));
    if !Whitelisted(args.aggregatedColumns, ValidAggregatedColumns) {
      return Rejected(AggregatedTsv);
    }
    log.Record(Validate(UnaggregatedTsv, args.unaggregatedColumns));
    if !Whitelisted(args.unaggregatedColumns, ValidUnaggregatedColumns) {
      return Rejected(UnaggregatedTsv);
    }
    log.Record(Validate(ReferenceMatches, args.referenceMatchColumns));
    if !Whitelisted(args.referenceMatchColumns, ValidReferenceMatchColumns) {
      return Rejected(ReferenceMatches);
    }
    ghost var validated := ValidationTrace(args);
    assert log.events == start + validated;

    var classes := ClassList(args.mhcClass);
    var root := PrepareResultsFolder(log, classes, args.outputDir, now);
    ghost var prepared := PrepareTrace(classes, root);
    CompareEachClass(log, fs, args, classes, root, prefixFor);
    ghost var compared := ClassTraces(fs, args, classes, root, prefixFor);
    assert log.events == start + validated + prepared + compared;
    AppendAssoc(start + validated, prepared, compared);
    AppendAssoc(start, validated, prepared + compared);
    assert FirstInvalid(args).None?;
    assert MainTrace(fs, args, now, prefixFor) == validated + (prepared + compared);
    return Finished(root);
  }
}
