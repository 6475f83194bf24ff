/** What a run of the comparison tool does that can be observed from
    outside: the globs it performs, the lines it logs, the comparator
    routines it calls, the column validations it asks for and the
    directories it creates, recorded in order as one trace. */
module Events {
  import opened Wrappers

  /** The five artifact kinds, in the order the router handles them. */
  datatype Kind = InputYml | MetricsJson | AggregatedTsv | UnaggregatedTsv | ReferenceMatches

  /** Position of a kind in the processing order. */
  function Rank(k: Kind): nat
  {
    match k
    case InputYml => 0
    case MetricsJson => 1
    case AggregatedTsv => 2
    case UnaggregatedTsv => 3
    case ReferenceMatches => 4
  }

  datatype Event =
    | Lookup(searchPath: string)
      /** a `glob.glob(searchPath, recursive=True)` call */
    | Info(message: string)
      /** a `logging.info` line, as rendered */
    | Error(message: string)
      /** a `logging.error` line, as rendered */
    | Compare(kind: Kind, path1: string, path2: string, columns: Option<seq<string>>,
              outputPath: string, classType: string)
      /** a call of the comparator routine for `kind`; `columns` is None for
          the comparators that take no column selection */
    | Validate(table: Kind, selection: seq<string>)
      /** a call of the column validator for one tabular kind */
    | MakeDir(path: string)
      /** an `os.makedirs(path)` call */

  /** The process-wide log that every operation appends to. */
  class EventLog {
    var events: seq<Event>

    constructor ()
      ensures events == []
    {
      events := [];
    }

    method Record(e: Event)
      modifies this
      ensures events == old(events) + [e]
    {
      events := events + [e];
    }
  }

  /** Regrouping of appended traces, called where a long trace is built
      step by step so that the step stays cheap to check. */
  lemma AppendAssoc(a: seq<Event>, b: seq<Event>, c: seq<Event>)
    ensures (a + b) + c == a + (b + c)
  {
  }

  function Keep<T>(o: Option<T>): seq<T>
  {
    if o.Some? then [o.value] else []
  }

  /** The events of `t` that `f` picks out, mapped through `f`, in order. */
  function Select<T>(t: seq<Event>, f: Event -> Option<T>): seq<T>
    decreases |t|
  {
    if t == [] then [] else Keep(f(t[0])) + Select(t[1..], f)
  }

  lemma {:induction false} SelectAppend<T>(a: seq<Event>, b: seq<Event>, f: Event -> Option<T>)
    ensures Select(a + b, f) == Select(a, f) + Select(b, f)
    decreases |a|
  {
    if a == [] {
      assert a + b == b;
    } else {
      assert (a + b)[1..] == a[1..] + b;
      SelectAppend(a[1..], b, f);
    }
  }

  lemma SelectOne<T>(e: Event, f: Event -> Option<T>)
    ensures Select([e], f) == Keep(f(e))
  {
    assert [e][1..] == [];
  }

  /** Projections used to state properties of traces. */
  function LookupOf(e: Event): Option<string>
  {
    if e.Lookup? then Some(e.searchPath) else None
  }

  function ComparedKindOf(e: Event): Option<Kind>
  {
    if e.Compare? then Some(e.kind) else None
  }

  function ErrorOf(e: Event): Option<string>
  {
    if e.Error? then Some(e.message) else None
  }

  function CreatedDirOf(e: Event): Option<string>
  {
    if e.MakeDir? then Some(e.path) else None
  }

  function ValidatedOf(e: Event): Option<Kind>
  {
    if e.Validate? then Some(e.table) else None
  }

  function Lookups(t: seq<Event>): seq<string> { Select(t, LookupOf) }
  function ComparedKinds(t: seq<Event>): seq<Kind> { Select(t, ComparedKindOf) }
  function Errors(t: seq<Event>): seq<string> { Select(t, ErrorOf) }
  function CreatedDirs(t: seq<Event>): seq<string> { Select(t, CreatedDirOf) }
  function Validations(t: seq<Event>): seq<Kind> { Select(t, ValidatedOf) }
}
