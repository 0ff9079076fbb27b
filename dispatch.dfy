/** The tool dispatcher of the data-analyst node: each tool the intent names is
    turned into one analyzer call, its column parameters bound to table columns,
    and its result stored in an insertion-ordered bundle under a key derived from
    the call. */
module Dispatch {
  import opened Wrappers
  import opened Text
  import opened Seqs
  import opened Bundles
  import opened CsvTools
  import opened Messages

  /** A tool specification of the intent JSON: `tool_spec.get("tool")` and
      `tool_spec.get("parameters")`, with string-valued parameters. */
  datatype ToolSpec = ToolSpec(tool: Option<string>, parameters: Option<map<string, string>>)

  /** What `json.loads` made of the intent text: a JSON object, whose `tools` entry may be
      absent, or any other JSON value. */
  datatype IntentDoc = NotMapping | Mapping(tools: Option<seq<ToolSpec>>)

  /** One analyzer call, with its columns already bound. */
  datatype Call =
    | InfoCall
    | SummaryCall
    | SearchCall(column: string, term: string)
    | UniqueCall(column: string)
    | QueryCall(query: string)
    | GroupCall(groupCol: string, aggCol: string, aggFunc: string)

  /** A bundle value: an analyzer payload, or the text stored for a tool that raised. */
  datatype Entry = Produced(payload: Payload) | Failed(text: string)

  /** The tools the dispatcher has a branch for. */
  const KnownTools: set<string> :=
    {"get_info", "get_summary_stats", "search_text", "get_unique_values", "query_data", "group_and_aggregate"}

  /** The spec used when the intent text does not decode to a mapping. */
  const FallbackSpec := ToolSpec(Some("get_info"), Some(map[]))

  /** Python truthiness of a value that is a string or `None`. */
  predicate Truthy(o: Option<string>) { o.Some? && o.value != "" }

  /** `parameters.get(key, default)` */
  function Param(params: map<string, string>, key: string, default: string): (v: string)
    ensures key in params ==> v == params[key]
    ensures key !in params ==> v == default
  {
    if key in params then params[key] else default
  }

  /** A requested column name and a table column match case-insensitively, one
      containing the other. */
  predicate Resembles(name: string, col: string) {
    Contains(Lower(col), Lower(name)) || Contains(Lower(name), Lower(col))
  }

  /** The column a requested name binds to: itself when it is a column, otherwise the
      first resembling column in declared order, otherwise none. */
  function Binding(columns: seq<string>, name: string): (r: Option<string>)
    ensures name in columns ==> r == Some(name)
    ensures r.Some? ==> r.value in columns
  {
    if name in columns then Some(name)
    else
      match FirstIndex(columns, (c: string) => Resembles(name, c))
      case Some(i) => Some(columns[i])
      case None => None
  }

  /** The inline binding loops: exact match, else the first fuzzy match, with `break`. */
  method BindColumn(columns: seq<string>, name: string) returns (target: Option<string>)
    requires name != ""
    ensures target == Binding(columns, name)
  {
    if name in columns {
      return Some(name);
    }
    var i := 0;
    while i < |columns|
      invariant 0 <= i <= |columns|
      invariant forall j :: 0 <= j < i ==> !Resembles(name, columns[j])
    {
      if Resembles(name, columns[i]) {
        FirstIndexUnique(columns, (c: string) => Resembles(name, c), i);
        return Some(columns[i]);
      }
      i := i + 1;
    }
    FirstIndexUnique(columns, (c: string) => Resembles(name, c), |columns|);
    return None;
  }

  /** The call a tool spec asks for, or none when the tool is unknown, a required
      parameter is empty or a column does not bind (the `if`/`elif` chain of the tool loop in
      `data_analyst_node`). */
  function Plan(columns: seq<string>, tool: string, params: map<string, string>): Option<Call> {
    if tool == "get_info" then Some(InfoCall)
    else if tool == "get_summary_stats" then Some(SummaryCall)
    else if tool == "search_text" then
      var column, term := Param(params, "column", ""), Param(params, "term", "");
      if column == "" || term == "" then None
      else
        var target := Binding(columns, column);
        if Truthy(target) then Some(SearchCall(target.value, term)) else None
    else if tool == "get_unique_values" then
      var column := Param(params, "column", "");
      if column == "" then None
      else
        var target := Binding(columns, column);
        if Truthy(target) then Some(UniqueCall(target.value)) else None
    else if tool == "query_data" then
      var query := Param(params, "query", "");
      if query == "" then None else Some(QueryCall(query))
    else if tool == "group_and_aggregate" then
      var groupCol, aggCol := Param(params, "group_col", ""), Param(params, "agg_col", "");
      var aggFunc := Param(params, "function", "mean");
      if groupCol == "" || aggCol == "" then None
      else
        var g, a := Binding(columns, groupCol), Binding(columns, aggCol);
        if Truthy(g) && Truthy(a) then Some(GroupCall(g.value, a.value, aggFunc)) else None
    else None
  }

  /** The bundle key a call's result is stored under. */
  function ResultKey(c: Call): string {
    match c
    case InfoCall => "dataset_info"
    case SummaryCall => "summary_stats"
    case SearchCall(column, term) => "search_" + term + "_in_" + column
    case UniqueCall(column) => "unique_values_" + column
    case QueryCall(_) => "filter_query"
    case GroupCall(g, a, f) => f + "_" + a + "_by_" + g
  }

  /** The analyzer method a call runs. */
  function Perform(a: CSVAnalyzer, engine: QueryEngine, agg: AggFn, c: Call): Payload
    reads a
    requires a.Valid()
  {
    match c
    case InfoCall => a.GetInfo()
    case SummaryCall => a.GetSummaryStats()
    case SearchCall(column, term) => a.SearchText(column, term)
    case UniqueCall(column) => a.GetUniqueValues(column)
    case QueryCall(query) => a.QueryData(query, engine)
    case GroupCall(g, col, f) => a.GroupAndAggregate(g, col, f, agg)
  }

  /** One iteration of the tool loop. `fault` is the exception the analyzer call raised, if
      it raised one; a spec that makes no call (an unknown tool, an empty required parameter,
      a column that does not bind) runs no code that can raise. */
  function Step(a: CSVAnalyzer, engine: QueryEngine, agg: AggFn, spec: ToolSpec, fault: Option<string>,
                b: Bundle<Entry>): (r: Bundle<Entry>)
    reads a
    requires a.Valid() && a.df.Some? && UniqueKeys(b)
    ensures UniqueKeys(r)
  {
    var tool := spec.tool.GetOr("");
    match Plan(a.df.value.columns, tool, spec.parameters.GetOr(map[]))
    case None => b
    case Some(c) =>
      if fault.Some? then Put(b, "error_" + tool, Failed("Tool execution error: " + fault.value))
      else Put(b, ResultKey(c), Produced(Perform(a, engine, agg, c)))
  }

  /** The bundle after the tool loop has run over `specs`; `faults(i)` is what the
      tool of `specs[i]` raised, if anything. */
  function Run(a: CSVAnalyzer, engine: QueryEngine, agg: AggFn, specs: seq<ToolSpec>,
               faults: nat -> Option<string>): (r: Bundle<Entry>)
    reads a
    requires a.Valid() && a.df.Some?
    ensures UniqueKeys(r)
    decreases |specs|
  {
    if specs == [] then []
    else
      var n := |specs| - 1;
      Step(a, engine, agg, specs[n], faults(n), Run(a, engine, agg, specs[..n], faults))
  }

  /** After the loop: an empty bundle gets the `fallback_info` entry. */
  function Finish(a: CSVAnalyzer, b: Bundle<Entry>): (r: Bundle<Entry>)
    reads a
    requires UniqueKeys(b)
    ensures r != [] && UniqueKeys(r)
    ensures b != [] ==> r == b
  {
    if b == [] then [Item("fallback_info", Produced(a.GetInfo()))] else b
  }

  /** `intent_data.get("tools", [])`, or the `get_info` fallback when `json.loads` fails
      (`None`) or the decoded value has no `get` (a non-mapping). */
  function ToolsOf(doc: Option<IntentDoc>): seq<ToolSpec> {
    match doc
    case None => [FallbackSpec]
    case Some(NotMapping) => [FallbackSpec]
    case Some(Mapping(tools)) => tools.GetOr([])
  }

  /** One iteration of the tool loop, with the binding loops of the source. */
  method ExecuteTool(a: CSVAnalyzer, engine: QueryEngine, agg: AggFn, spec: ToolSpec, fault: Option<string>,
                     b: Bundle<Entry>) returns (r: Bundle<Entry>)
    requires a.Valid() && a.df.Some? && UniqueKeys(b)
    ensures r == Step(a, engine, agg, spec, fault, b)
  {
    var tool := spec.tool.GetOr("");
    var params := spec.parameters.GetOr(map[]);
    var columns := a.df.value.columns;
    var call: Option<Call> := None;
    if tool == "get_info" {
      call := Some(InfoCall);
    } else if tool == "get_summary_stats" {
      call := Some(SummaryCall);
    } else if tool == "search_text" {
      var column, term := Param(params, "column", ""), Param(params, "term", "");
      if column != "" && term != "" {
        var target := BindColumn(columns, column);
        if Truthy(target) {
          call := Some(SearchCall(target.value, term));
        }
      }
    } else if tool == "get_unique_values" {
      var column := Param(params, "column", "");
      if column != "" {
        var target := BindColumn(columns, column);
        if Truthy(target) {
          call := Some(UniqueCall(target.value));
        }
      }
    } else if tool == "query_data" {
      var query := Param(params, "query", "");
      if query != "" {
        call := Some(QueryCall(query));
      }
    } else if tool == "group_and_aggregate" {
      var groupCol, aggCol := Param(params, "group_col", ""), Param(params, "agg_col", "");
      var aggFunc := Param(params, "function", "mean");
      if groupCol != "" && aggCol != "" {
        var g := BindColumn(columns, groupCol);
        var c := BindColumn(columns, aggCol);
        if Truthy(g) && Truthy(c) {
          call := Some(GroupCall(g.value, c.value, aggFunc));
        }
      }
    }
    assert call == Plan(columns, tool, params);
    match call
    case None =>
      r := b;
    case Some(c) =>
      if fault.Some? {
        r := Put(b, "error_" + tool, Failed("Tool execution error: " + fault.value));
      } else {
        r := Put(b, ResultKey(c), Produced(Perform(a, engine, agg, c)));
      }
  }

  /** The analysis part of `data_analyst_node`: decode the intent, run every tool in order,
      then add the fallback. */
  method Analyze(a: CSVAnalyzer, intent: string, decode: string -> Option<IntentDoc>, engine: QueryEngine,
                 agg: AggFn, faults: nat -> Option<string>) returns (results: Bundle<Entry>)
    requires a.Valid() && a.df.Some?
    ensures results == Finish(a, Run(a, engine, agg, ToolsOf(decode(intent)), faults))
  {
    var specs := ToolsOf(decode(intent));
    results := [];
    var k := 0;
    while k < |specs|
      invariant 0 <= k <= |specs|
      invariant results == Run(a, engine, agg, specs[..k], faults)
    {
      assert specs[..k + 1][..k] == specs[..k];
      results := ExecuteTool(a, engine, agg, specs[k], faults(k), results);
      k := k + 1;
    }
    assert specs[..k] == specs;
    if results == [] {
      results := [Item("fallback_info", Produced(a.GetInfo()))];
    }
  }

  /** A bound column resembles the requested name; an exact match trivially does. */
  lemma BoundColumnResembles(columns: seq<string>, name: string)
    requires Binding(columns, name).Some?
    ensures Resembles(name, Binding(columns, name).value)
  {
    if name in columns {
      ContainsSelf(Lower(name));
    }
  }

  /** Without an exact match, a name binds to the first resembling column in declared order. */
  lemma BindingFirstResembling(columns: seq<string>, name: string, i: nat)
    requires name !in columns && i < |columns| && Resembles(name, columns[i])
    requires forall j :: 0 <= j < i ==> !Resembles(name, columns[j])
    ensures Binding(columns, name) == Some(columns[i])
  {
    FirstIndexUnique(columns, (c: string) => Resembles(name, c), i);
  }

  /** A name stays unbound exactly when it is no column and resembles none. */
  lemma BindingNone(columns: seq<string>, name: string)
    ensures Binding(columns, name).None? <==>
      name !in columns && forall j :: 0 <= j < |columns| ==> !Resembles(name, columns[j])
  {
  }

  /** Without an exact match, binding ignores the case of the requested name. */
  lemma BindingIgnoresCase(columns: seq<string>, name: string, other: string)
    requires name !in columns && other !in columns && Lower(name) == Lower(other)
    ensures Binding(columns, name) == Binding(columns, other)
  {
    var p := (c: string) => Resembles(name, c);
    var q := (c: string) => Resembles(other, c);
    match FirstIndex(columns, p)
    case Some(i) => FirstIndexUnique(columns, q, i);
    case None => FirstIndexUnique(columns, q, |columns|);
  }

  /** A spec that makes no call adds nothing, whatever the fault: an unknown tool, an empty
      required parameter or a column that does not bind. A call stores exactly one value, its
      result or its error, and leaves every other key's value alone. */
  lemma StepEffect(a: CSVAnalyzer, engine: QueryEngine, agg: AggFn, spec: ToolSpec, fault: Option<string>,
                   b: Bundle<Entry>, other: string)
    requires a.Valid() && a.df.Some? && UniqueKeys(b)
    ensures var tool := spec.tool.GetOr("");
            var plan := Plan(a.df.value.columns, tool, spec.parameters.GetOr(map[]));
            var r := Step(a, engine, agg, spec, fault, b);
            && (tool !in KnownTools ==> plan.None?)
            && (plan.None? ==> r == b)
            && (plan.Some? && fault.Some? ==>
                  Get(r, "error_" + tool) == Some(Failed("Tool execution error: " + fault.value))
                  && (other != "error_" + tool ==> Get(r, other) == Get(b, other)))
            && (plan.Some? && fault.None? ==>
                  Get(r, ResultKey(plan.value)) == Some(Produced(Perform(a, engine, agg, plan.value)))
                  && (other != ResultKey(plan.value) ==> Get(r, other) == Get(b, other)))
  {
    var tool := spec.tool.GetOr("");
    var plan := Plan(a.df.value.columns, tool, spec.parameters.GetOr(map[]));
    if plan.Some? {
      if fault.Some? {
        var k := "error_" + tool;
        if other != k {
          GetPutOther(b, k, Failed("Tool execution error: " + fault.value), other);
        }
      } else if other != ResultKey(plan.value) {
        GetPutOther(b, ResultKey(plan.value), Produced(Perform(a, engine, agg, plan.value)), other);
      }
    }
  }

  /** Running the same spec twice, with the same outcome, is running it once: a repeated
      key overwrites the earlier value with an equal one. */
  lemma StepTwice(a: CSVAnalyzer, engine: QueryEngine, agg: AggFn, spec: ToolSpec, fault: Option<string>,
                  b: Bundle<Entry>)
    requires a.Valid() && a.df.Some? && UniqueKeys(b)
    ensures Step(a, engine, agg, spec, fault, Step(a, engine, agg, spec, fault, b))
         == Step(a, engine, agg, spec, fault, b)
  {
    var tool := spec.tool.GetOr("");
    var plan := Plan(a.df.value.columns, tool, spec.parameters.GetOr(map[]));
    if plan.Some? {
      if fault.Some? {
        PutPutSame(b, "error_" + tool, Failed("Tool execution error: " + fault.value));
      } else {
        PutPutSame(b, ResultKey(plan.value), Produced(Perform(a, engine, agg, plan.value)));
      }
    }
  }

  /** `k` is a key the spec at some index of `specs` can store under: the result key of
      its call, or the error key of its tool when that call raised. */
  ghost predicate DerivedKey(columns: seq<string>, specs: seq<ToolSpec>, k: string) {
    exists i :: 0 <= i < |specs| &&
      var tool := specs[i].tool.GetOr("");
      var plan := Plan(columns, tool, specs[i].parameters.GetOr(map[]));
      plan.Some? && (k == "error_" + tool || k == ResultKey(plan.value))
  }

  /** Every key of the bundle comes from one of the specs that were run. */
  lemma {:induction false} RunKeysDerived(a: CSVAnalyzer, engine: QueryEngine, agg: AggFn, specs: seq<ToolSpec>,
                                          faults: nat -> Option<string>, k: string)
    requires a.Valid() && a.df.Some?
    requires k in Keys(Run(a, engine, agg, specs, faults))
    ensures DerivedKey(a.df.value.columns, specs, k)
    decreases |specs|
  {
    var n := |specs| - 1;
    var prev := Run(a, engine, agg, specs[..n], faults);
    var spec := specs[n];
    var tool := spec.tool.GetOr("");
    var plan := Plan(a.df.value.columns, tool, spec.parameters.GetOr(map[]));
    var columns := a.df.value.columns;
    if k in Keys(prev) {
      RunKeysDerived(a, engine, agg, specs[..n], faults, k);
      var i :| 0 <= i < n &&
        var t := specs[..n][i].tool.GetOr("");
        var pl := Plan(columns, t, specs[..n][i].parameters.GetOr(map[]));
        pl.Some? && (k == "error_" + t || k == ResultKey(pl.value));
      assert specs[..n][i] == specs[i];
    } else {
      assert plan.Some? && (k == "error_" + tool || k == ResultKey(plan.value));
    }
  }

  /** An intent text that does not decode runs `get_info` alone: the bundle is its result,
      or its error when it raised. */
  lemma UndecodableIntentRunsGetInfo(a: CSVAnalyzer, intent: string, decode: string -> Option<IntentDoc>,
                                     engine: QueryEngine, agg: AggFn, faults: nat -> Option<string>)
    requires a.Valid() && a.df.Some?
    requires decode(intent).None? || decode(intent) == Some(NotMapping)
    ensures faults(0).None? ==>
      Finish(a, Run(a, engine, agg, ToolsOf(decode(intent)), faults)) == [Item("dataset_info", Produced(a.GetInfo()))]
    ensures faults(0).Some? ==>
      Finish(a, Run(a, engine, agg, ToolsOf(decode(intent)), faults))
        == [Item("error_get_info", Failed("Tool execution error: " + faults(0).value))]
  {
    var specs := ToolsOf(decode(intent));
    assert specs == [FallbackSpec];
    assert specs[..0] == [];
    var empty: Bundle<Entry> := [];
    assert Position(empty, "error_get_info") == None;
    assert Position(empty, "dataset_info") == None;
    assert "error_" + "get_info" == "error_get_info";
    assert Run(a, engine, agg, specs, faults) == Step(a, engine, agg, FallbackSpec, faults(0), empty);
  }

  /** A mapping without a `tools` entry runs nothing, so the bundle is the fallback. */
  lemma NoToolsFallsBack(a: CSVAnalyzer, engine: QueryEngine, agg: AggFn, faults: nat -> Option<string>)
    requires a.Valid() && a.df.Some?
    ensures Finish(a, Run(a, engine, agg, ToolsOf(Some(Mapping(None))), faults))
         == [Item("fallback_info", Produced(a.GetInfo()))]
  {
  }
}
