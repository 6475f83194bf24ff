/** What `run_comparison` guarantees, stated over the trace it produces:
    which comparators run, which diagnostics appear, in what order, and
    that every kind is still looked up after earlier ones went missing. */
module RouterProperties {
  import opened Wrappers
  import opened PathLib
  import opened Events
  import opened Timestamps
  import opened ComparisonRouter

  // ---------------------------------------------------------------------
  // Views of a trace

  /** The line that closes each kind's block: completed or skipped. */
  function OutcomeLineOf(e: Event): Option<string>
  {
    if e.Info? && (e.message == Completed || e.message == Skipped) then Some(e.message) else None
  }

  /** The prefix named by each closing banner. */
  function ReportOf(e: Event): Option<string>
  {
    if e.Info? then ReportedPrefix(e.message) else None
  }

  function OutcomeLines(t: seq<Event>): seq<string> { Select(t, OutcomeLineOf) }
  function Reports(t: seq<Event>): seq<string> { Select(t, ReportOf) }

  predicate EndsWith(s: string, suffix: string)
  {
    |s| >= |suffix| && s[|s| - |suffix|..] == suffix
  }

  // ---------------------------------------------------------------------
  // What the trace should contain, stated without the trace

  /** The kinds `run_comparison` attempts for `prefix`, in order. */
  function ActiveKinds(prefix: string): seq<Kind>
  {
    (if Contains(prefix, "pVACseq") then [] else [InputYml]) +
    [MetricsJson, AggregatedTsv, UnaggregatedTsv, ReferenceMatches]
  }

  /** The two search paths of kind `k`, side 1 first. */
  function Paths(k: Kind, prefix: string, folder1: string, folder2: string): seq<string>
  {
    [SearchPath(folder1, Subfolder(k, prefix), Pattern(k)), SearchPath(folder2, Subfolder(k, prefix), Pattern(k))]
  }

  /** The search paths of every kind in `ks`, in order. */
  function LookupPlan(ks: seq<Kind>, prefix: string, folder1: string, folder2: string): seq<string>
  {
    if ks == [] then [] else Paths(ks[0], prefix, folder1, folder2) + LookupPlan(ks[1..], prefix, folder1, folder2)
  }

  /** The kinds of `ks` that `keep` holds of, in order. */
  function Filter(ks: seq<Kind>, keep: Kind -> bool): seq<Kind>
    decreases |ks|
  {
    if ks == [] then []
    else (if keep(ks[0]) then [ks[0]] else []) + Filter(ks[1..], keep)
  }

  /** Whether both files of a kind were found, as a predicate on kinds. */
  function FoundIn(fs: FileSystem, prefix: string, folder1: string, folder2: string): Kind -> bool
  {
    k => Found(fs, k, prefix, folder1, folder2)
  }

  /** The kinds of `ks` whose file was found on both sides. */
  function FoundKinds(ks: seq<Kind>, fs: FileSystem, prefix: string, folder1: string, folder2: string): seq<Kind>
  {
    Filter(ks, FoundIn(fs, prefix, folder1, folder2))
  }

  /** The closing line of one kind's block. */
  function OutcomeLine(fs: FileSystem, k: Kind, prefix: string, folder1: string, folder2: string): string
  {
    if k in ActiveKinds(prefix) && Found(fs, k, prefix, folder1, folder2) then Completed else Skipped
  }

  // ---------------------------------------------------------------------
  // Selecting from the pieces of a trace

  lemma SelectTwo<T>(a: Event, b: Event, f: Event -> Option<T>)
    ensures Select([a, b], f) == Keep(f(a)) + Keep(f(b))
  {
    assert [a, b] == [a] + [b];
    SelectAppend([a], [b], f);
    SelectOne(a, f);
    SelectOne(b, f);
  }

  lemma SelectThree<T>(a: Event, b: Event, c: Event, f: Event -> Option<T>)
    ensures Select([a, b, c], f) == Keep(f(a)) + Keep(f(b)) + Keep(f(c))
  {
    assert [a, b, c] == [a, b] + [c];
    SelectAppend([a, b], [c], f);
    SelectTwo(a, b, f);
    SelectOne(c, f);
  }

  /** The views of one kind's block, event by event. */
  lemma KindTraceSelect<T>(fs: FileSystem, k: Kind, prefix: string, folder1: string, folder2: string,
                           outputPath: string, classType: string, columns: Option<seq<string>>,
                           f: Event -> Option<T>)
    ensures
      var sub := Subfolder(k, prefix);
      var p1 := FindFile(fs, folder1, sub, Pattern(k));
      var p2 := FindFile(fs, folder2, sub, Pattern(k));
      var o := Classify(p1, p2);
      Select(KindTrace(fs, k, prefix, folder1, folder2, outputPath, classType, columns), f) ==
        Keep(f(Lookup(SearchPath(folder1, sub, Pattern(k))))) +
        Keep(f(Lookup(SearchPath(folder2, sub, Pattern(k))))) +
        if o == BothFound then
          Keep(f(Info(RunningMessage(k)))) +
          Keep(f(Compare(k, p1.value, p2.value, columns, outputPath, classType))) +
          Keep(f(Info(Completed)))
        else
          Keep(f(Error(MissingMessage(k, o, prefix)))) + Keep(f(Info(Skipped)))
  {
    var sub := Subfolder(k, prefix);
    var p1 := FindFile(fs, folder1, sub, Pattern(k));
    var p2 := FindFile(fs, folder2, sub, Pattern(k));
    var o := Classify(p1, p2);
    var head := [Lookup(SearchPath(folder1, sub, Pattern(k))), Lookup(SearchPath(folder2, sub, Pattern(k)))];
    SelectTwo(head[0], head[1], f);
    if o == BothFound {
      var tail := [Info(RunningMessage(k)), Compare(k, p1.value, p2.value, columns, outputPath, classType), Info(Completed)];
      SelectAppend(head, tail, f);
      SelectThree(tail[0], tail[1], tail[2], f);
    } else {
      var tail := [Error(MissingMessage(k, o, prefix)), Info(Skipped)];
      SelectAppend(head, tail, f);
      SelectTwo(tail[0], tail[1], f);
    }
  }

  /** The views of a whole `run_comparison` trace, block by block. */
  lemma RunTraceSelect<T>(fs: FileSystem, classType: string, prefix: string, folder1: string, folder2: string,
                          outputDir: string, aggregated: seq<string>, unaggregated: seq<string>,
                          referenceMatch: seq<string>, f: Event -> Option<T>)
    ensures
      var out := OutputPath(outputDir, classType);
      Select(RunTrace(fs, classType, prefix, folder1, folder2, outputDir, aggregated, unaggregated, referenceMatch), f) ==
        Select(YmlTrace(fs, prefix, folder1, folder2, out, classType), f) +
        Select(KindTrace(fs, MetricsJson, prefix, folder1, folder2, out, classType, None), f) +
        Select(KindTrace(fs, AggregatedTsv, prefix, folder1, folder2, out, classType, Some(aggregated)), f) +
        Select(KindTrace(fs, UnaggregatedTsv, prefix, folder1, folder2, out, classType, Some(unaggregated)), f) +
        Select(KindTrace(fs, ReferenceMatches, prefix, folder1, folder2, out, classType, Some(referenceMatch)), f) +
        Select(Banner(prefix), f)
  {
    var out := OutputPath(outputDir, classType);
    var y := YmlTrace(fs, prefix, folder1, folder2, out, classType);
    var j := KindTrace(fs, MetricsJson, prefix, folder1, folder2, out, classType, None);
    var a := KindTrace(fs, AggregatedTsv, prefix, folder1, folder2, out, classType, Some(aggregated));
    var u := KindTrace(fs, UnaggregatedTsv, prefix, folder1, folder2, out, classType, Some(unaggregated));
    var r := KindTrace(fs, ReferenceMatches, prefix, folder1, folder2, out, classType, Some(referenceMatch));
    var b := Banner(prefix);
    SelectAppend(y, j, f);
    SelectAppend(y + j, a, f);
    SelectAppend(y + j + a, u, f);
    SelectAppend(y + j + a + u, r, f);
    SelectAppend(y + j + a + u + r, b, f);
  }

  /** A log line that does not start with 'S' is no banner report line. */
  lemma NotAReport(m: string)
    requires |m| > 0 && m[0] != 'S'
    ensures ReportedPrefix(m) == None
  {
    if |m| >= |ReportHead| {
      assert m[..|ReportHead|][0] == m[0];
    }
  }

  /** None of the fixed log lines of a kind's block is a report or, apart
      from the closing lines, an outcome line. */
  lemma FixedLines(k: Kind)
    ensures ReportedPrefix(RunningMessage(k)) == None
    ensures ReportedPrefix(Completed) == None && ReportedPrefix(Skipped) == None
    ensures ReportedPrefix(YmlNotIncluded) == None
    ensures ReportedPrefix("\n" + Rule) == None && ReportedPrefix(Rule) == None
    ensures RunningMessage(k) != Completed && RunningMessage(k) != Skipped
    ensures YmlNotIncluded != Completed && YmlNotIncluded != Skipped
    ensures "\n" + Rule != Completed && "\n" + Rule != Skipped
    ensures Rule != Completed && Rule != Skipped && Completed != Skipped
  {
    var m := RunningMessage(k);
    assert m[0] == (if k == InputYml then 'R' else '\n');
    assert Completed[0] == '\U{2713}' && Skipped[0] == '\U{2716}';
    assert ("\n" + Rule)[0] == '\n' && Rule[0] == '\U{2500}' && YmlNotIncluded[0] == 'I';
    NotAReport(m);
    NotAReport(Completed);
    NotAReport(Skipped);
    NotAReport(YmlNotIncluded);
    NotAReport("\n" + Rule);
    NotAReport(Rule);
  }

  // ---------------------------------------------------------------------
  // One kind

  lemma KindDecisionCompared(fs: FileSystem, k: Kind, prefix: string, folder1: string, folder2: string,
                     outputPath: string, classType: string, columns: Option<seq<string>>)
    ensures
      var t := KindTrace(fs, k, prefix, folder1, folder2, outputPath, classType, columns);
      var p1 := FindFile(fs, folder1, Subfolder(k, prefix), Pattern(k));
      var p2 := FindFile(fs, folder2, Subfolder(k, prefix), Pattern(k));
      (ComparedKinds(t) == [k] <==> Truthy(p1) && Truthy(p2)) &&
      (ComparedKinds(t) == [] <==> !(Truthy(p1) && Truthy(p2)))
  {
    KindTraceSelect(fs, k, prefix, folder1, folder2, outputPath, classType, columns, ComparedKindOf);
  }

  lemma KindDecisionErrors(fs: FileSystem, k: Kind, prefix: string, folder1: string, folder2: string,
                     outputPath: string, classType: string, columns: Option<seq<string>>)
    ensures
      var t := KindTrace(fs, k, prefix, folder1, folder2, outputPath, classType, columns);
      var p1 := FindFile(fs, folder1, Subfolder(k, prefix), Pattern(k));
      var p2 := FindFile(fs, folder2, Subfolder(k, prefix), Pattern(k));
      (Truthy(p1) && Truthy(p2) ==> Errors(t) == []) &&
      (Truthy(p1) && !Truthy(p2) ==> Errors(t) == [MissingMessage(k, MissingIn2, prefix)]) &&
      (!Truthy(p1) && Truthy(p2) ==> Errors(t) == [MissingMessage(k, MissingIn1, prefix)]) &&
      (!Truthy(p1) && !Truthy(p2) ==> Errors(t) == [MissingMessage(k, MissingInEither, prefix)])
  {
    KindTraceSelect(fs, k, prefix, folder1, folder2, outputPath, classType, columns, ErrorOf);
  }

  lemma KindDecisionLines(fs: FileSystem, k: Kind, prefix: string, folder1: string, folder2: string,
                     outputPath: string, classType: string, columns: Option<seq<string>>)
    ensures
      var t := KindTrace(fs, k, prefix, folder1, folder2, outputPath, classType, columns);
      var p1 := FindFile(fs, folder1, Subfolder(k, prefix), Pattern(k));
      var p2 := FindFile(fs, folder2, Subfolder(k, prefix), Pattern(k));
      OutcomeLines(t) == if Truthy(p1) && Truthy(p2) then [Completed] else [Skipped]
  {
    KindTraceSelect(fs, k, prefix, folder1, folder2, outputPath, classType, columns, OutcomeLineOf);
    FixedLines(k);
  }

  /** The four-way decision for one kind: the comparator runs exactly when
      both lookups returned a path; otherwise there is exactly one error,
      naming the side that lacks the file, and the block closes "skipped". */
  lemma KindDecision(fs: FileSystem, k: Kind, prefix: string, folder1: string, folder2: string,
                     outputPath: string, classType: string, columns: Option<seq<string>>)
    ensures
      var t := KindTrace(fs, k, prefix, folder1, folder2, outputPath, classType, columns);
      var p1 := FindFile(fs, folder1, Subfolder(k, prefix), Pattern(k));
      var p2 := FindFile(fs, folder2, Subfolder(k, prefix), Pattern(k));
      (ComparedKinds(t) == [k] <==> Truthy(p1) && Truthy(p2)) &&
      (ComparedKinds(t) == [] <==> !(Truthy(p1) && Truthy(p2))) &&
      (Truthy(p1) && Truthy(p2) ==> Errors(t) == [] && OutcomeLines(t) == [Completed]) &&
      (Truthy(p1) && !Truthy(p2) ==> Errors(t) == [MissingMessage(k, MissingIn2, prefix)] && OutcomeLines(t) == [Skipped]) &&
      (!Truthy(p1) && Truthy(p2) ==> Errors(t) == [MissingMessage(k, MissingIn1, prefix)] && OutcomeLines(t) == [Skipped]) &&
      (!Truthy(p1) && !Truthy(p2) ==> Errors(t) == [MissingMessage(k, MissingInEither, prefix)] && OutcomeLines(t) == [Skipped])
  {
    KindDecisionCompared(fs, k, prefix, folder1, folder2, outputPath, classType, columns);
    KindDecisionErrors(fs, k, prefix, folder1, folder2, outputPath, classType, columns);
    KindDecisionLines(fs, k, prefix, folder1, folder2, outputPath, classType, columns);
  }

  /** The three missing-file diagnostics are pairwise distinct, whatever
      the prefix. */
  lemma MissingMessagesDistinct(k: Kind, prefix: string)
    ensures MissingMessage(k, MissingIn2, prefix) != MissingMessage(k, MissingIn1, prefix)
    ensures MissingMessage(k, MissingIn2, prefix) != MissingMessage(k, MissingInEither, prefix)
    ensures MissingMessage(k, MissingIn1, prefix) != MissingMessage(k, MissingInEither, prefix)
  {
    var n := |MissingLead(k)|;
    var m2, m1, me := MissingMessage(k, MissingIn2, prefix), MissingMessage(k, MissingIn1, prefix),
                      MissingMessage(k, MissingInEither, prefix);
    assert m2[n + 15] == '2' && m1[n + 15] == '1';
    assert m2[n] == 'r' && m1[n] == 'r' && me[n] == 'e';
  }

  /** The comparator's output folder is `mhc_class_i` under the output
      root for class "1" and `mhc_class_ii` for every other value. */
  lemma OutputPathByClass(outputDir: string, c1: string, c2: string)
    ensures |OutputPath(outputDir, c1)| > |outputDir| && OutputPath(outputDir, c1)[..|outputDir|] == outputDir
    ensures c1 == "1" ==> OutputPath(outputDir, c1) == outputDir + "/mhc_class_i"
    ensures c1 != "1" ==> OutputPath(outputDir, c1) == outputDir + "/mhc_class_ii"
    ensures OutputPath(outputDir, c1) == OutputPath(outputDir, c2) <==> (c1 == "1" <==> c2 == "1")
  {
    var p1, p2 := OutputPath(outputDir, c1), OutputPath(outputDir, c2);
    assert p1[..|outputDir|] == outputDir;
    if (c1 == "1") != (c2 == "1") {
      assert |p1| != |p2|;
    }
  }

  // ---------------------------------------------------------------------
  // Facts about the plans

  lemma {:induction false} LookupPlanAppend(a: seq<Kind>, b: seq<Kind>, prefix: string, folder1: string, folder2: string)
    ensures LookupPlan(a + b, prefix, folder1, folder2) == LookupPlan(a, prefix, folder1, folder2) + LookupPlan(b, prefix, folder1, folder2)
    decreases |a|
  {
    if a == [] {
      assert a + b == b;
    } else {
      assert (a + b)[1..] == a[1..] + b;
      LookupPlanAppend(a[1..], b, prefix, folder1, folder2);
    }
  }

  lemma {:induction false} FilterAppend(a: seq<Kind>, b: seq<Kind>, keep: Kind -> bool)
    ensures Filter(a + b, keep) == Filter(a, keep) + Filter(b, keep)
    decreases |a|
  {
    if a == [] {
      assert a + b == b;
    } else {
      var head := if keep(a[0]) then [a[0]] else [];
      assert a + b != [] && (a + b)[0] == a[0] && (a + b)[1..] == a[1..] + b;
      calc {
        Filter(a + b, keep);
        head + Filter(a[1..] + b, keep);
        { FilterAppend(a[1..], b, keep); }
        head + (Filter(a[1..], keep) + Filter(b, keep));
        (head + Filter(a[1..], keep)) + Filter(b, keep);
        Filter(a, keep) + Filter(b, keep);
      }
    }
  }

  lemma FilterOne(k: Kind, keep: Kind -> bool)
    ensures Filter([k], keep) == if keep(k) then [k] else []
  {
    assert [k][1..] == [];
  }

  lemma PlanOfOne(k: Kind, prefix: string, folder1: string, folder2: string)
    ensures LookupPlan([k], prefix, folder1, folder2) == Paths(k, prefix, folder1, folder2)
  {
    assert [k][1..] == [];
  }

  lemma FoundKindsOfOne(k: Kind, fs: FileSystem, prefix: string, folder1: string, folder2: string)
    ensures FoundKinds([k], fs, prefix, folder1, folder2) == if Found(fs, k, prefix, folder1, folder2) then [k] else []
  {
    assert FoundIn(fs, prefix, folder1, folder2)(k) == Found(fs, k, prefix, folder1, folder2);
    FilterOne(k, FoundIn(fs, prefix, folder1, folder2));
  }

  /** The four kinds every run attempts after the optional YML. */
  function Tail(): seq<Kind>
  {
    [MetricsJson, AggregatedTsv, UnaggregatedTsv, ReferenceMatches]
  }

  lemma PlanOfTail(y: seq<Kind>, prefix: string, folder1: string, folder2: string)
    ensures LookupPlan(y + Tail(), prefix, folder1, folder2) ==
      LookupPlan(y, prefix, folder1, folder2) + LookupPlan([MetricsJson], prefix, folder1, folder2) +
      LookupPlan([AggregatedTsv], prefix, folder1, folder2) + LookupPlan([UnaggregatedTsv], prefix, folder1, folder2) +
      LookupPlan([ReferenceMatches], prefix, folder1, folder2)
  {
    assert y + Tail() == y + [MetricsJson] + [AggregatedTsv] + [UnaggregatedTsv] + [ReferenceMatches];
    LookupPlanAppend(y, [MetricsJson], prefix, folder1, folder2);
    LookupPlanAppend(y + [MetricsJson], [AggregatedTsv], prefix, folder1, folder2);
    LookupPlanAppend(y + [MetricsJson] + [AggregatedTsv], [UnaggregatedTsv], prefix, folder1, folder2);
    LookupPlanAppend(y + [MetricsJson] + [AggregatedTsv] + [UnaggregatedTsv], [ReferenceMatches], prefix, folder1, folder2);
  }

  lemma FilterOfTail(y: seq<Kind>, keep: Kind -> bool)
    ensures Filter(y + Tail(), keep) ==
      Filter(y, keep) + Filter([MetricsJson], keep) + Filter([AggregatedTsv], keep) +
      Filter([UnaggregatedTsv], keep) + Filter([ReferenceMatches], keep)
  {
    assert y + Tail() == y + [MetricsJson] + [AggregatedTsv] + [UnaggregatedTsv] + [ReferenceMatches];
    FilterAppend(y, [MetricsJson], keep);
    FilterAppend(y + [MetricsJson], [AggregatedTsv], keep);
    FilterAppend(y + [MetricsJson] + [AggregatedTsv], [UnaggregatedTsv], keep);
    FilterAppend(y + [MetricsJson] + [AggregatedTsv] + [UnaggregatedTsv], [ReferenceMatches], keep);
  }

  lemma LookupPlanOfActiveKinds(prefix: string, folder1: string, folder2: string)
    ensures LookupPlan(ActiveKinds(prefix), prefix, folder1, folder2) ==
      (if Contains(prefix, "pVACseq") then [] else Paths(InputYml, prefix, folder1, folder2)) +
      Paths(MetricsJson, prefix, folder1, folder2) + Paths(AggregatedTsv, prefix, folder1, folder2) +
      Paths(UnaggregatedTsv, prefix, folder1, folder2) + Paths(ReferenceMatches, prefix, folder1, folder2)
  {
    var y: seq<Kind> := if Contains(prefix, "pVACseq") then [] else [InputYml];
    assert ActiveKinds(prefix) == y + Tail();
    PlanOfTail(y, prefix, folder1, folder2);
    if !Contains(prefix, "pVACseq") {
      PlanOfOne(InputYml, prefix, folder1, folder2);
    }
    PlanOfOne(MetricsJson, prefix, folder1, folder2);
    PlanOfOne(AggregatedTsv, prefix, folder1, folder2);
    PlanOfOne(UnaggregatedTsv, prefix, folder1, folder2);
    PlanOfOne(ReferenceMatches, prefix, folder1, folder2);
  }

  lemma FoundKindsOfActiveKinds(fs: FileSystem, prefix: string, folder1: string, folder2: string)
    ensures FoundKinds(ActiveKinds(prefix), fs, prefix, folder1, folder2) ==
      (if !Contains(prefix, "pVACseq") && Found(fs, InputYml, prefix, folder1, folder2) then [InputYml] else []) +
      (if Found(fs, MetricsJson, prefix, folder1, folder2) then [MetricsJson] else []) +
      (if Found(fs, AggregatedTsv, prefix, folder1, folder2) then [AggregatedTsv] else []) +
      (if Found(fs, UnaggregatedTsv, prefix, folder1, folder2) then [UnaggregatedTsv] else []) +
      (if Found(fs, ReferenceMatches, prefix, folder1, folder2) then [ReferenceMatches] else [])
  {
    var y: seq<Kind> := if Contains(prefix, "pVACseq") then [] else [InputYml];
    var found := FoundIn(fs, prefix, folder1, folder2);
    assert ActiveKinds(prefix) == y + Tail();
    FilterOfTail(y, found);
    if !Contains(prefix, "pVACseq") {
      FoundKindsOfOne(InputYml, fs, prefix, folder1, folder2);
    }
    FoundKindsOfOne(MetricsJson, fs, prefix, folder1, folder2);
    FoundKindsOfOne(AggregatedTsv, fs, prefix, folder1, folder2);
    FoundKindsOfOne(UnaggregatedTsv, fs, prefix, folder1, folder2);
    FoundKindsOfOne(ReferenceMatches, fs, prefix, folder1, folder2);
  }

  /** The plans over the attempted kinds, kind by kind. */
  lemma PlansOfActiveKinds(fs: FileSystem, prefix: string, folder1: string, folder2: string)
    ensures LookupPlan(ActiveKinds(prefix), prefix, folder1, folder2) ==
      (if Contains(prefix, "pVACseq") then [] else Paths(InputYml, prefix, folder1, folder2)) +
      Paths(MetricsJson, prefix, folder1, folder2) + Paths(AggregatedTsv, prefix, folder1, folder2) +
      Paths(UnaggregatedTsv, prefix, folder1, folder2) + Paths(ReferenceMatches, prefix, folder1, folder2)
    ensures FoundKinds(ActiveKinds(prefix), fs, prefix, folder1, folder2) ==
      (if !Contains(prefix, "pVACseq") && Found(fs, InputYml, prefix, folder1, folder2) then [InputYml] else []) +
      (if Found(fs, MetricsJson, prefix, folder1, folder2) then [MetricsJson] else []) +
      (if Found(fs, AggregatedTsv, prefix, folder1, folder2) then [AggregatedTsv] else []) +
      (if Found(fs, UnaggregatedTsv, prefix, folder1, folder2) then [UnaggregatedTsv] else []) +
      (if Found(fs, ReferenceMatches, prefix, folder1, folder2) then [ReferenceMatches] else [])
  {
    LookupPlanOfActiveKinds(prefix, folder1, folder2);
    FoundKindsOfActiveKinds(fs, prefix, folder1, folder2);
  }

  lemma {:induction false} FilterMembers(ks: seq<Kind>, keep: Kind -> bool)
    ensures forall k :: k in Filter(ks, keep) <==> k in ks && keep(k)
    decreases |ks|
  {
    if ks != [] {
      FilterMembers(ks[1..], keep);
      assert forall k :: k in ks <==> k == ks[0] || k in ks[1..];
    }
  }

  predicate Ascending(ks: seq<Kind>)
  {
    forall i, j :: 0 <= i < j < |ks| ==> Rank(ks[i]) < Rank(ks[j])
  }

  lemma {:induction false} FilterAscending(ks: seq<Kind>, keep: Kind -> bool)
    requires Ascending(ks)
    ensures Ascending(Filter(ks, keep))
    decreases |ks|
  {
    if ks != [] {
      var rest := Filter(ks[1..], keep);
      FilterAscending(ks[1..], keep);
      FilterMembers(ks[1..], keep);
      if keep(ks[0]) {
        var r := [ks[0]] + rest;
        forall i, j | 0 <= i < j < |r| ensures Rank(r[i]) < Rank(r[j]) {
          if i == 0 {
            assert r[j] in ks[1..];
            var m :| 0 <= m < |ks[1..]| && ks[1..][m] == r[j];
            assert ks[m + 1] == r[j];
          } else {
            assert r[i] == rest[i - 1] && r[j] == rest[j - 1];
          }
        }
      }
    }
  }

  // ---------------------------------------------------------------------
  // Views of each block

  lemma KindLookups(fs: FileSystem, k: Kind, prefix: string, folder1: string, folder2: string,
                  outputPath: string, classType: string, columns: Option<seq<string>>)
    ensures Lookups(KindTrace(fs, k, prefix, folder1, folder2, outputPath, classType, columns)) == Paths(k, prefix, folder1, folder2)
  {
    KindTraceSelect(fs, k, prefix, folder1, folder2, outputPath, classType, columns, LookupOf);
  }

  lemma KindCompared(fs: FileSystem, k: Kind, prefix: string, folder1: string, folder2: string,
                  outputPath: string, classType: string, columns: Option<seq<string>>)
    ensures ComparedKinds(KindTrace(fs, k, prefix, folder1, folder2, outputPath, classType, columns)) == (if Found(fs, k, prefix, folder1, folder2) then [k] else [])
  {
    KindTraceSelect(fs, k, prefix, folder1, folder2, outputPath, classType, columns, ComparedKindOf);
  }

  lemma KindClosingLine(fs: FileSystem, k: Kind, prefix: string, folder1: string, folder2: string,
                  outputPath: string, classType: string, columns: Option<seq<string>>)
    ensures OutcomeLines(KindTrace(fs, k, prefix, folder1, folder2, outputPath, classType, columns)) == [if Found(fs, k, prefix, folder1, folder2) then Completed else Skipped]
  {
    KindTraceSelect(fs, k, prefix, folder1, folder2, outputPath, classType, columns, OutcomeLineOf);
    FixedLines(k);
  }

  lemma KindReports(fs: FileSystem, k: Kind, prefix: string, folder1: string, folder2: string,
                  outputPath: string, classType: string, columns: Option<seq<string>>)
    ensures Reports(KindTrace(fs, k, prefix, folder1, folder2, outputPath, classType, columns)) == []
  {
    KindTraceSelect(fs, k, prefix, folder1, folder2, outputPath, classType, columns, ReportOf);
    FixedLines(k);
  }

  lemma KindViews(fs: FileSystem, k: Kind, prefix: string, folder1: string, folder2: string,
                  outputPath: string, classType: string, columns: Option<seq<string>>)
    ensures var t := KindTrace(fs, k, prefix, folder1, folder2, outputPath, classType, columns);
      Lookups(t) == Paths(k, prefix, folder1, folder2) &&
      ComparedKinds(t) == (if Found(fs, k, prefix, folder1, folder2) then [k] else []) &&
      OutcomeLines(t) == [if Found(fs, k, prefix, folder1, folder2) then Completed else Skipped] &&
      Reports(t) == []
  {
    KindLookups(fs, k, prefix, folder1, folder2, outputPath, classType, columns);
    KindCompared(fs, k, prefix, folder1, folder2, outputPath, classType, columns);
    KindClosingLine(fs, k, prefix, folder1, folder2, outputPath, classType, columns);
    KindReports(fs, k, prefix, folder1, folder2, outputPath, classType, columns);
  }

  /** The closing line of a kind other than the YML one, which is always attempted. */
  lemma KindOutcome(fs: FileSystem, k: Kind, prefix: string, folder1: string, folder2: string,
                    outputPath: string, classType: string, columns: Option<seq<string>>)
    requires k != InputYml
    ensures OutcomeLines(KindTrace(fs, k, prefix, folder1, folder2, outputPath, classType, columns)) ==
            [OutcomeLine(fs, k, prefix, folder1, folder2)]
  {
    KindTraceSelect(fs, k, prefix, folder1, folder2, outputPath, classType, columns, OutcomeLineOf);
    FixedLines(k);
    assert k in ActiveKinds(prefix);
  }

  lemma YmlViews(fs: FileSystem, prefix: string, folder1: string, folder2: string, outputPath: string, classType: string)
    ensures var t := YmlTrace(fs, prefix, folder1, folder2, outputPath, classType);
      Lookups(t) == (if Contains(prefix, "pVACseq") then [] else Paths(InputYml, prefix, folder1, folder2)) &&
      ComparedKinds(t) == (if !Contains(prefix, "pVACseq") && Found(fs, InputYml, prefix, folder1, folder2) then [InputYml] else []) &&
      OutcomeLines(t) == [OutcomeLine(fs, InputYml, prefix, folder1, folder2)] &&
      Reports(t) == []
  {
    if Contains(prefix, "pVACseq") {
      FixedLines(InputYml);
      SelectTwo(Info(YmlNotIncluded), Info(Skipped), LookupOf);
      SelectTwo(Info(YmlNotIncluded), Info(Skipped), ComparedKindOf);
      SelectTwo(Info(YmlNotIncluded), Info(Skipped), OutcomeLineOf);
      SelectTwo(Info(YmlNotIncluded), Info(Skipped), ReportOf);
      assert InputYml !in ActiveKinds(prefix);
    } else {
      KindViews(fs, InputYml, prefix, folder1, folder2, outputPath, classType, None);
      assert InputYml in ActiveKinds(prefix);
    }
  }

  lemma BannerViews(prefix: string)
    ensures Lookups(Banner(prefix)) == [] && ComparedKinds(Banner(prefix)) == [] &&
            OutcomeLines(Banner(prefix)) == [] && Reports(Banner(prefix)) == [prefix]
  {
    FixedLines(InputYml);
    SelectThree(Info("\n" + Rule), Info(ReportLine(prefix)), Info(Rule), LookupOf);
    SelectThree(Info("\n" + Rule), Info(ReportLine(prefix)), Info(Rule), ComparedKindOf);
    SelectThree(Info("\n" + Rule), Info(ReportLine(prefix)), Info(Rule), OutcomeLineOf);
    SelectThree(Info("\n" + Rule), Info(ReportLine(prefix)), Info(Rule), ReportOf);
  }

  /** The views of all six blocks of a `run_comparison` trace. */
  lemma RunViews(fs: FileSystem, classType: string, prefix: string, folder1: string, folder2: string,
                    outputDir: string, aggregated: seq<string>, unaggregated: seq<string>, referenceMatch: seq<string>)
    ensures var out := OutputPath(outputDir, classType);
      var y := YmlTrace(fs, prefix, folder1, folder2, out, classType);
      var j := KindTrace(fs, MetricsJson, prefix, folder1, folder2, out, classType, None);
      var a := KindTrace(fs, AggregatedTsv, prefix, folder1, folder2, out, classType, Some(aggregated));
      var u := KindTrace(fs, UnaggregatedTsv, prefix, folder1, folder2, out, classType, Some(unaggregated));
      var r := KindTrace(fs, ReferenceMatches, prefix, folder1, folder2, out, classType, Some(referenceMatch));
      var t := RunTrace(fs, classType, prefix, folder1, folder2, outputDir, aggregated, unaggregated, referenceMatch);
      Lookups(t) == Lookups(y) + Lookups(j) + Lookups(a) + Lookups(u) + Lookups(r) + Lookups(Banner(prefix)) &&
      ComparedKinds(t) == ComparedKinds(y) + ComparedKinds(j) + ComparedKinds(a) + ComparedKinds(u) + ComparedKinds(r) + ComparedKinds(Banner(prefix)) &&
      OutcomeLines(t) == OutcomeLines(y) + OutcomeLines(j) + OutcomeLines(a) + OutcomeLines(u) + OutcomeLines(r) + OutcomeLines(Banner(prefix)) &&
      Reports(t) == Reports(y) + Reports(j) + Reports(a) + Reports(u) + Reports(r) + Reports(Banner(prefix))
  {
    RunTraceSelect(fs, classType, prefix, folder1, folder2, outputDir, aggregated, unaggregated, referenceMatch, LookupOf);
    RunTraceSelect(fs, classType, prefix, folder1, folder2, outputDir, aggregated, unaggregated, referenceMatch, ComparedKindOf);
    RunTraceSelect(fs, classType, prefix, folder1, folder2, outputDir, aggregated, unaggregated, referenceMatch, OutcomeLineOf);
    RunTraceSelect(fs, classType, prefix, folder1, folder2, outputDir, aggregated, unaggregated, referenceMatch, ReportOf);
  }

  // ---------------------------------------------------------------------
  // The whole `run_comparison` trace

  /** Every attempted kind is looked up on both sides, in the fixed order,
      whatever was or was not found for earlier kinds: the lookups depend
      on the prefix and the folders only, not on the filesystem. */
  lemma RunTraceLookups(fs: FileSystem, classType: string, prefix: string, folder1: string, folder2: string,
                        outputDir: string, aggregated: seq<string>, unaggregated: seq<string>, referenceMatch: seq<string>)
    ensures Lookups(RunTrace(fs, classType, prefix, folder1, folder2, outputDir, aggregated, unaggregated, referenceMatch)) ==
            LookupPlan(ActiveKinds(prefix), prefix, folder1, folder2)
  {
    var out := OutputPath(outputDir, classType);
    RunViews(fs, classType, prefix, folder1, folder2, outputDir, aggregated, unaggregated, referenceMatch);
    YmlViews(fs, prefix, folder1, folder2, out, classType);
    KindViews(fs, MetricsJson, prefix, folder1, folder2, out, classType, None);
    KindViews(fs, AggregatedTsv, prefix, folder1, folder2, out, classType, Some(aggregated));
    KindViews(fs, UnaggregatedTsv, prefix, folder1, folder2, out, classType, Some(unaggregated));
    KindViews(fs, ReferenceMatches, prefix, folder1, folder2, out, classType, Some(referenceMatch));
    BannerViews(prefix);
    PlansOfActiveKinds(fs, prefix, folder1, folder2);
  }

  /** The comparators that run are exactly those of the attempted kinds
      whose file was found on both sides, in the fixed kind order. */
  lemma RunTraceComparators(fs: FileSystem, classType: string, prefix: string, folder1: string, folder2: string,
                            outputDir: string, aggregated: seq<string>, unaggregated: seq<string>, referenceMatch: seq<string>)
    ensures ComparedKinds(RunTrace(fs, classType, prefix, folder1, folder2, outputDir, aggregated, unaggregated, referenceMatch)) ==
            FoundKinds(ActiveKinds(prefix), fs, prefix, folder1, folder2)
  {
    var out := OutputPath(outputDir, classType);
    RunViews(fs, classType, prefix, folder1, folder2, outputDir, aggregated, unaggregated, referenceMatch);
    YmlViews(fs, prefix, folder1, folder2, out, classType);
    KindViews(fs, MetricsJson, prefix, folder1, folder2, out, classType, None);
    KindViews(fs, AggregatedTsv, prefix, folder1, folder2, out, classType, Some(aggregated));
    KindViews(fs, UnaggregatedTsv, prefix, folder1, folder2, out, classType, Some(unaggregated));
    KindViews(fs, ReferenceMatches, prefix, folder1, folder2, out, classType, Some(referenceMatch));
    BannerViews(prefix);
    PlansOfActiveKinds(fs, prefix, folder1, folder2);
  }

  /** The attempted kinds are listed in strictly ascending kind order. */
  lemma ActiveKindsAscending(prefix: string)
    ensures Ascending(ActiveKinds(prefix))
  {
  }

  /** A comparator runs for kind `k` if and only if `k` is attempted and
      both of its files were found; at most once per kind, and in the
      order input YML, metrics JSON, aggregated, unaggregated, reference
      matches. */
  lemma ComparatorsRunWhenFound(fs: FileSystem, classType: string, prefix: string, folder1: string, folder2: string,
                                outputDir: string, aggregated: seq<string>, unaggregated: seq<string>, referenceMatch: seq<string>)
    ensures var ks := ComparedKinds(RunTrace(fs, classType, prefix, folder1, folder2, outputDir, aggregated, unaggregated, referenceMatch));
      (forall k :: k in ks <==> k in ActiveKinds(prefix) && Found(fs, k, prefix, folder1, folder2)) &&
      Ascending(ks)
  {
    var t := RunTrace(fs, classType, prefix, folder1, folder2, outputDir, aggregated, unaggregated, referenceMatch);
    var active := ActiveKinds(prefix);
    assert ComparedKinds(t) == FoundKinds(active, fs, prefix, folder1, folder2) by {
      RunTraceComparators(fs, classType, prefix, folder1, folder2, outputDir, aggregated, unaggregated, referenceMatch);
    }
    ActiveKindsAscending(prefix);
    FilterMembers(active, FoundIn(fs, prefix, folder1, folder2));
    FilterAscending(active, FoundIn(fs, prefix, folder1, folder2));
  }

  /** The five closing lines as one display (kept apart from the trace
      reasoning that uses it, which is costly enough on its own). */
  lemma FiveLines(l0: string, l1: string, l2: string, l3: string, l4: string)
    ensures [l0] + [l1] + [l2] + [l3] + [l4] + [] == [l0, l1, l2, l3, l4]
  {
  }

  /** Each of the five kinds closes with exactly one line, in order:
      "completed" exactly when its comparator ran, "skipped" otherwise. */
  lemma RunTraceOutcomes(fs: FileSystem, classType: string, prefix: string, folder1: string, folder2: string,
                         outputDir: string, aggregated: seq<string>, unaggregated: seq<string>, referenceMatch: seq<string>)
    ensures OutcomeLines(RunTrace(fs, classType, prefix, folder1, folder2, outputDir, aggregated, unaggregated, referenceMatch)) ==
            [OutcomeLine(fs, InputYml, prefix, folder1, folder2), OutcomeLine(fs, MetricsJson, prefix, folder1, folder2),
             OutcomeLine(fs, AggregatedTsv, prefix, folder1, folder2), OutcomeLine(fs, UnaggregatedTsv, prefix, folder1, folder2),
             OutcomeLine(fs, ReferenceMatches, prefix, folder1, folder2)]
  {
    var out := OutputPath(outputDir, classType);
    var y := YmlTrace(fs, prefix, folder1, folder2, out, classType);
    var j := KindTrace(fs, MetricsJson, prefix, folder1, folder2, out, classType, None);
    var a := KindTrace(fs, AggregatedTsv, prefix, folder1, folder2, out, classType, Some(aggregated));
    var u := KindTrace(fs, UnaggregatedTsv, prefix, folder1, folder2, out, classType, Some(unaggregated));
    var r := KindTrace(fs, ReferenceMatches, prefix, folder1, folder2, out, classType, Some(referenceMatch));
    var t := RunTrace(fs, classType, prefix, folder1, folder2, outputDir, aggregated, unaggregated, referenceMatch);
    assert OutcomeLines(t) == OutcomeLines(y) + OutcomeLines(j) + OutcomeLines(a) + OutcomeLines(u) +
                              OutcomeLines(r) + OutcomeLines(Banner(prefix)) by {
      RunTraceSelect(fs, classType, prefix, folder1, folder2, outputDir, aggregated, unaggregated, referenceMatch, OutcomeLineOf);
    }
    var l0 := OutcomeLine(fs, InputYml, prefix, folder1, folder2);
    var l1 := OutcomeLine(fs, MetricsJson, prefix, folder1, folder2);
    var l2 := OutcomeLine(fs, AggregatedTsv, prefix, folder1, folder2);
    var l3 := OutcomeLine(fs, UnaggregatedTsv, prefix, folder1, folder2);
    var l4 := OutcomeLine(fs, ReferenceMatches, prefix, folder1, folder2);
    assert OutcomeLines(y) == [l0] by { YmlViews(fs, prefix, folder1, folder2, out, classType); }
    assert OutcomeLines(j) == [l1] by { KindOutcome(fs, MetricsJson, prefix, folder1, folder2, out, classType, None); }
    assert OutcomeLines(a) == [l2] by { KindOutcome(fs, AggregatedTsv, prefix, folder1, folder2, out, classType, Some(aggregated)); }
    assert OutcomeLines(u) == [l3] by { KindOutcome(fs, UnaggregatedTsv, prefix, folder1, folder2, out, classType, Some(unaggregated)); }
    assert OutcomeLines(r) == [l4] by { KindOutcome(fs, ReferenceMatches, prefix, folder1, folder2, out, classType, Some(referenceMatch)); }
    assert OutcomeLines(Banner(prefix)) == [] by { BannerViews(prefix); }
    FiveLines(l0, l1, l2, l3, l4);
  }

  /** Every comparator of kind `k` gets the two files found for `k`, the
      class's output folder, the class, and the column selection passed to
      the block; which selection each kind is passed is `RunTraceRouting`. */
  lemma KindTraceCompares(fs: FileSystem, k: Kind, prefix: string, folder1: string, folder2: string,
                          outputPath: string, classType: string, columns: Option<seq<string>>)
    ensures forall e :: e in KindTrace(fs, k, prefix, folder1, folder2, outputPath, classType, columns) && e.Compare? ==>
      e.kind == k && e.columns == columns && e.outputPath == outputPath && e.classType == classType &&
      Some(e.path1) == FindFile(fs, folder1, Subfolder(k, prefix), Pattern(k)) &&
      Some(e.path2) == FindFile(fs, folder2, Subfolder(k, prefix), Pattern(k))
  {
    var sub := Subfolder(k, prefix);
    var p1 := FindFile(fs, folder1, sub, Pattern(k));
    var p2 := FindFile(fs, folder2, sub, Pattern(k));
    var verdict := Verdict(k, p1, p2, prefix, outputPath, classType, columns);
    assert KindTrace(fs, k, prefix, folder1, folder2, outputPath, classType, columns) ==
           [Lookup(SearchPath(folder1, sub, Pattern(k))), Lookup(SearchPath(folder2, sub, Pattern(k)))] + verdict;
  }

  /** Over a whole `run_comparison`, every comparator gets the two files
      found for its kind, the class's output folder, the class, and the
      column selection of its kind. */
  lemma RunTraceRouting(fs: FileSystem, classType: string, prefix: string, folder1: string, folder2: string,
                        outputDir: string, aggregated: seq<string>, unaggregated: seq<string>, referenceMatch: seq<string>)
    ensures forall e :: e in RunTrace(fs, classType, prefix, folder1, folder2, outputDir, aggregated, unaggregated, referenceMatch) && e.Compare? ==>
      e.columns == ColumnsFor(e.kind, aggregated, unaggregated, referenceMatch) &&
      e.outputPath == OutputPath(outputDir, classType) && e.classType == classType &&
      Some(e.path1) == FindFile(fs, folder1, Subfolder(e.kind, prefix), Pattern(e.kind)) &&
      Some(e.path2) == FindFile(fs, folder2, Subfolder(e.kind, prefix), Pattern(e.kind))
  {
    var out := OutputPath(outputDir, classType);
    var y := YmlTrace(fs, prefix, folder1, folder2, out, classType);
    var j := KindTrace(fs, MetricsJson, prefix, folder1, folder2, out, classType, None);
    var a := KindTrace(fs, AggregatedTsv, prefix, folder1, folder2, out, classType, Some(aggregated));
    var u := KindTrace(fs, UnaggregatedTsv, prefix, folder1, folder2, out, classType, Some(unaggregated));
    var r := KindTrace(fs, ReferenceMatches, prefix, folder1, folder2, out, classType, Some(referenceMatch));
    var t := RunTrace(fs, classType, prefix, folder1, folder2, outputDir, aggregated, unaggregated, referenceMatch);
    assert t == y + j + a + u + r + Banner(prefix);
    forall e | e in t && e.Compare?
      ensures e.columns == ColumnsFor(e.kind, aggregated, unaggregated, referenceMatch) &&
              e.outputPath == out && e.classType == classType &&
              Some(e.path1) == FindFile(fs, folder1, Subfolder(e.kind, prefix), Pattern(e.kind)) &&
              Some(e.path2) == FindFile(fs, folder2, Subfolder(e.kind, prefix), Pattern(e.kind))
    {
      if e in y {
        KindTraceCompares(fs, InputYml, prefix, folder1, folder2, out, classType, None);
      } else if e in j {
        KindTraceCompares(fs, MetricsJson, prefix, folder1, folder2, out, classType, None);
      } else if e in a {
        KindTraceCompares(fs, AggregatedTsv, prefix, folder1, folder2, out, classType, Some(aggregated));
      } else if e in u {
        KindTraceCompares(fs, UnaggregatedTsv, prefix, folder1, folder2, out, classType, Some(unaggregated));
      } else {
        assert e in r;
        KindTraceCompares(fs, ReferenceMatches, prefix, folder1, folder2, out, classType, Some(referenceMatch));
      }
    }
  }

  /** The router only globs, logs and compares: it validates no columns
      and creates no directories. */
  predicate RouterEvent(e: Event)
  {
    !e.Validate? && !e.MakeDir?
  }

  lemma KindTraceEvents(fs: FileSystem, k: Kind, prefix: string, folder1: string, folder2: string,
                        outputPath: string, classType: string, columns: Option<seq<string>>)
    ensures forall e :: e in KindTrace(fs, k, prefix, folder1, folder2, outputPath, classType, columns) ==> RouterEvent(e)
  {
  }

  lemma RunTraceEvents(fs: FileSystem, classType: string, prefix: string, folder1: string, folder2: string,
                       outputDir: string, aggregated: seq<string>, unaggregated: seq<string>, referenceMatch: seq<string>)
    ensures forall e :: e in RunTrace(fs, classType, prefix, folder1, folder2, outputDir, aggregated, unaggregated, referenceMatch) ==>
      RouterEvent(e)
  {
    var out := OutputPath(outputDir, classType);
    var y := YmlTrace(fs, prefix, folder1, folder2, out, classType);
    var j := KindTrace(fs, MetricsJson, prefix, folder1, folder2, out, classType, None);
    var a := KindTrace(fs, AggregatedTsv, prefix, folder1, folder2, out, classType, Some(aggregated));
    var u := KindTrace(fs, UnaggregatedTsv, prefix, folder1, folder2, out, classType, Some(unaggregated));
    var r := KindTrace(fs, ReferenceMatches, prefix, folder1, folder2, out, classType, Some(referenceMatch));
    var t := RunTrace(fs, classType, prefix, folder1, folder2, outputDir, aggregated, unaggregated, referenceMatch);
    assert t == y + j + a + u + r + Banner(prefix);
    assert forall e :: e in y ==> RouterEvent(e) by {
      if !Contains(prefix, "pVACseq") {
        KindTraceEvents(fs, InputYml, prefix, folder1, folder2, out, classType, None);
      }
    }
    KindTraceEvents(fs, MetricsJson, prefix, folder1, folder2, out, classType, None);
    KindTraceEvents(fs, AggregatedTsv, prefix, folder1, folder2, out, classType, Some(aggregated));
    KindTraceEvents(fs, UnaggregatedTsv, prefix, folder1, folder2, out, classType, Some(unaggregated));
    KindTraceEvents(fs, ReferenceMatches, prefix, folder1, folder2, out, classType, Some(referenceMatch));
    RouterEventsConcat(y, j, a, u, r, Banner(prefix));
  }

  lemma RouterEventsConcat(y: seq<Event>, j: seq<Event>, a: seq<Event>, u: seq<Event>, r: seq<Event>, b: seq<Event>)
    requires forall e :: e in y ==> RouterEvent(e)
    requires forall e :: e in j ==> RouterEvent(e)
    requires forall e :: e in a ==> RouterEvent(e)
    requires forall e :: e in u ==> RouterEvent(e)
    requires forall e :: e in r ==> RouterEvent(e)
    requires forall e :: e in b ==> !e.Validate? && !e.MakeDir?
    ensures forall e :: e in y + j + a + u + r + b ==> RouterEvent(e)
  {
  }

  // ---------------------------------------------------------------------
  // The results folder

  /** `prepare_results_folder` creates the root first, then `mhc_class_i`
      under it exactly when "1" is among the classes and `mhc_class_ii`
      exactly when "2" is, and nothing else. */
  lemma PreparedFolders(classes: seq<string>, root: string)
    ensures var dirs := CreatedDirs(PrepareTrace(classes, root));
      |dirs| >= 1 && dirs[0] == root &&
      (root + "/mhc_class_i" in dirs <==> "1" in classes) &&
      (root + "/mhc_class_ii" in dirs <==> "2" in classes) &&
      (forall d :: d in dirs ==> d == root || d == root + "/mhc_class_i" || d == root + "/mhc_class_ii")
  {
    var i := if "1" in classes then [MakeDir(root + "/mhc_class_i")] else [];
    var ii := if "2" in classes then [MakeDir(root + "/mhc_class_ii")] else [];
    SelectAppend([MakeDir(root)], i, CreatedDirOf);
    SelectAppend([MakeDir(root)] + i, ii, CreatedDirOf);
    SelectOne(MakeDir(root), CreatedDirOf);
    if "1" in classes { SelectOne(MakeDir(root + "/mhc_class_i"), CreatedDirOf); }
    if "2" in classes { SelectOne(MakeDir(root + "/mhc_class_ii"), CreatedDirOf); }
    assert |root + "/mhc_class_i"| != |root| && |root + "/mhc_class_ii"| != |root|;
    assert |root + "/mhc_class_i"| != |root + "/mhc_class_ii"|;
  }

  /** Runs started at different seconds write to different results folders. */
  lemma DistinctTimesDistinctRoots(baseOutputDir: string, t1: Timestamp, t2: Timestamp)
    requires ValidTimestamp(t1) && ValidTimestamp(t2)
    requires t1 != t2
    ensures ResultsRoot(baseOutputDir, t1) != ResultsRoot(baseOutputDir, t2)
  {
    var lead := baseOutputDir + "/results_";
    if ResultsRoot(baseOutputDir, t1) == ResultsRoot(baseOutputDir, t2) {
      assert ResultsRoot(baseOutputDir, t1)[|lead|..] == Strftime(t1);
      assert ResultsRoot(baseOutputDir, t2)[|lead|..] == Strftime(t2);
      StrftimeInjective(t1, t2);
    }
  }

  /** The last character of a search path is that of its pattern. */
  lemma SearchPathEnds(folder: string, subfolder: string, pattern: string)
    requires |pattern| > 0
    ensures var p := SearchPath(folder, subfolder, pattern); |p| > 0 && p[|p| - 1] == pattern[|pattern| - 1]
  {
    var p := SearchPath(folder, subfolder, pattern);
    PathJoinShape(PathJoin(folder, subfolder), pattern);
    assert p[|p| - |pattern|..][|pattern| - 1] == p[|p| - 1];
  }

  /** No search path of a kind other than the YML one ends with `inputs.yml`. */
  lemma NoYmlPath(folder: string, k: Kind, prefix: string)
    requires k != InputYml
    ensures !EndsWith(SearchPath(folder, Subfolder(k, prefix), Pattern(k)), "inputs.yml")
  {
    var p := SearchPath(folder, Subfolder(k, prefix), Pattern(k));
    SearchPathEnds(folder, Subfolder(k, prefix), Pattern(k));
  }

  /** A plan without the YML kind has no path ending in `inputs.yml`. */
  lemma {:induction false} NoYmlInPlan(ks: seq<Kind>, prefix: string, folder1: string, folder2: string)
    requires InputYml !in ks
    ensures forall p :: p in LookupPlan(ks, prefix, folder1, folder2) ==> !EndsWith(p, "inputs.yml")
    decreases |ks|
  {
    if ks != [] {
      NoYmlInPlan(ks[1..], prefix, folder1, folder2);
      NoYmlPath(folder1, ks[0], prefix);
      NoYmlPath(folder2, ks[0], prefix);
    }
  }

  lemma PVacSeqYmlBlock(fs: FileSystem, classType: string, prefix: string, folder1: string, folder2: string,
                        outputDir: string, aggregated: seq<string>, unaggregated: seq<string>, referenceMatch: seq<string>)
    requires Contains(prefix, "pVACseq")
    ensures var t := RunTrace(fs, classType, prefix, folder1, folder2, outputDir, aggregated, unaggregated, referenceMatch);
      |t| >= 2 && t[..2] == [Info(YmlNotIncluded), Info(Skipped)]
  {
    var out := OutputPath(outputDir, classType);
    var y := YmlTrace(fs, prefix, folder1, folder2, out, classType);
    assert y == [Info(YmlNotIncluded), Info(Skipped)];
    LeadingBlock(y, KindTrace(fs, MetricsJson, prefix, folder1, folder2, out, classType, None),
                 KindTrace(fs, AggregatedTsv, prefix, folder1, folder2, out, classType, Some(aggregated)),
                 KindTrace(fs, UnaggregatedTsv, prefix, folder1, folder2, out, classType, Some(unaggregated)),
                 KindTrace(fs, ReferenceMatches, prefix, folder1, folder2, out, classType, Some(referenceMatch)),
                 Banner(prefix));
  }

  lemma LeadingBlock(y: seq<Event>, j: seq<Event>, a: seq<Event>, u: seq<Event>, r: seq<Event>, b: seq<Event>)
    ensures |y + j + a + u + r + b| >= |y| && (y + j + a + u + r + b)[..|y|] == y
  {
    assert y + j + a + u + r + b == y + (j + a + u + r + b);
  }

  lemma PVacSeqNoYmlCompared(fs: FileSystem, classType: string, prefix: string, folder1: string, folder2: string,
                              outputDir: string, aggregated: seq<string>, unaggregated: seq<string>, referenceMatch: seq<string>)
    requires Contains(prefix, "pVACseq")
    ensures InputYml !in ComparedKinds(RunTrace(fs, classType, prefix, folder1, folder2, outputDir, aggregated, unaggregated, referenceMatch))
  {
    var active := ActiveKinds(prefix);
    var found := FoundIn(fs, prefix, folder1, folder2);
    assert ComparedKinds(RunTrace(fs, classType, prefix, folder1, folder2, outputDir, aggregated, unaggregated, referenceMatch)) ==
           Filter(active, found) by {
      RunTraceComparators(fs, classType, prefix, folder1, folder2, outputDir, aggregated, unaggregated, referenceMatch);
    }
    assert InputYml !in active;
    FilterMembers(active, found);
  }

  lemma PVacSeqNoYmlLookup(fs: FileSystem, classType: string, prefix: string, folder1: string, folder2: string,
                            outputDir: string, aggregated: seq<string>, unaggregated: seq<string>, referenceMatch: seq<string>)
    requires Contains(prefix, "pVACseq")
    ensures forall p :: p in Lookups(RunTrace(fs, classType, prefix, folder1, folder2, outputDir, aggregated, unaggregated, referenceMatch)) ==>
      !EndsWith(p, "inputs.yml")
  {
    var l := Lookups(RunTrace(fs, classType, prefix, folder1, folder2, outputDir, aggregated, unaggregated, referenceMatch));
    var plan := LookupPlan(ActiveKinds(prefix), prefix, folder1, folder2);
    assert l == plan by {
      RunTraceLookups(fs, classType, prefix, folder1, folder2, outputDir, aggregated, unaggregated, referenceMatch);
    }
    assert forall p :: p in plan ==> !EndsWith(p, "inputs.yml") by {
      assert InputYml !in ActiveKinds(prefix);
      NoYmlInPlan(ActiveKinds(prefix), prefix, folder1, folder2);
    }
  }

  /** With a pVACseq prefix the input YML is neither looked up nor
      compared: its block is the note and the "skipped" line. */
  lemma PVacSeqSkipsInputYml(fs: FileSystem, classType: string, prefix: string, folder1: string, folder2: string,
                             outputDir: string, aggregated: seq<string>, unaggregated: seq<string>, referenceMatch: seq<string>)
    requires Contains(prefix, "pVACseq")
    ensures var t := RunTrace(fs, classType, prefix, folder1, folder2, outputDir, aggregated, unaggregated, referenceMatch);
      |t| >= 2 && t[..2] == [Info(YmlNotIncluded), Info(Skipped)] &&
      InputYml !in ComparedKinds(t) &&
      forall p :: p in Lookups(t) ==> !EndsWith(p, "inputs.yml")
  {
    var t := RunTrace(fs, classType, prefix, folder1, folder2, outputDir, aggregated, unaggregated, referenceMatch);
    PVacSeqYmlBlock(fs, classType, prefix, folder1, folder2, outputDir, aggregated, unaggregated, referenceMatch);
    PVacSeqNoYmlCompared(fs, classType, prefix, folder1, folder2, outputDir, aggregated, unaggregated, referenceMatch);
    PVacSeqNoYmlLookup(fs, classType, prefix, folder1, folder2, outputDir, aggregated, unaggregated, referenceMatch);
  }

  /** Otherwise the first two lookups are the two `log/inputs.yml` paths. */
  lemma InputYmlLookedUpFirst(fs: FileSystem, classType: string, prefix: string, folder1: string, folder2: string,
                              outputDir: string, aggregated: seq<string>, unaggregated: seq<string>, referenceMatch: seq<string>)
    requires !Contains(prefix, "pVACseq")
    ensures var l := Lookups(RunTrace(fs, classType, prefix, folder1, folder2, outputDir, aggregated, unaggregated, referenceMatch));
      |l| >= 2 && l[..2] == [SearchPath(folder1, prefix + "/log", "inputs.yml"), SearchPath(folder2, prefix + "/log", "inputs.yml")]
  {
    var l := Lookups(RunTrace(fs, classType, prefix, folder1, folder2, outputDir, aggregated, unaggregated, referenceMatch));
    var py := Paths(InputYml, prefix, folder1, folder2);
    var rest := Paths(MetricsJson, prefix, folder1, folder2) + Paths(AggregatedTsv, prefix, folder1, folder2) +
                Paths(UnaggregatedTsv, prefix, folder1, folder2) + Paths(ReferenceMatches, prefix, folder1, folder2);
    var plan := LookupPlan(ActiveKinds(prefix), prefix, folder1, folder2);
    assert l == plan by {
      RunTraceLookups(fs, classType, prefix, folder1, folder2, outputDir, aggregated, unaggregated, referenceMatch);
    }
    assert plan == py + Paths(MetricsJson, prefix, folder1, folder2) + Paths(AggregatedTsv, prefix, folder1, folder2) +
                   Paths(UnaggregatedTsv, prefix, folder1, folder2) + Paths(ReferenceMatches, prefix, folder1, folder2) by {
      PlansOfActiveKinds(fs, prefix, folder1, folder2);
    }
    assert l[..2] == py;
  }

  /** Whatever the outcomes, the trace ends with the three banner lines,
      and the banner is the only report line: it names the prefix. */
  lemma RunTraceEndsWithBanner(fs: FileSystem, classType: string, prefix: string, folder1: string, folder2: string,
                               outputDir: string, aggregated: seq<string>, unaggregated: seq<string>, referenceMatch: seq<string>)
    ensures var t := RunTrace(fs, classType, prefix, folder1, folder2, outputDir, aggregated, unaggregated, referenceMatch);
      |t| >= 3 && t[|t| - 3..] == Banner(prefix) && Reports(t) == [prefix]
  {
    var out := OutputPath(outputDir, classType);
    RunViews(fs, classType, prefix, folder1, folder2, outputDir, aggregated, unaggregated, referenceMatch);
    YmlViews(fs, prefix, folder1, folder2, out, classType);
    KindViews(fs, MetricsJson, prefix, folder1, folder2, out, classType, None);
    KindViews(fs, AggregatedTsv, prefix, folder1, folder2, out, classType, Some(aggregated));
    KindViews(fs, UnaggregatedTsv, prefix, folder1, folder2, out, classType, Some(unaggregated));
    KindViews(fs, ReferenceMatches, prefix, folder1, folder2, out, classType, Some(referenceMatch));
    BannerViews(prefix);
  }
}
