/** The query executor of the single-agent graph: independent keyword tests on the
    lower-cased question, each of which may store one analyzer result, and a basic
    summary when none fired. */
module Agent {
  import opened Wrappers
  import opened Text
  import opened Seqs
  import opened Bundles
  import opened CsvTools
  import opened Messages

  const SummaryWords: seq<string> := ["summary", "statistics", "stats", "describe"]
  const UniqueWords: seq<string> := ["unique", "distinct", "values"]
  const FilterWords: seq<string> := ["filter", "where", "find"]
  const GroupWords: seq<string> := ["group", "average", "mean", "sum"]

  /** `any(word in text for word in words)` */
  predicate AnyIn(words: seq<string>, text: string) {
    exists w :: w in words && Contains(text, w)
  }

  /** The question the executor routes: the second-to-last message, or "" with fewer than two. */
  function ExecutorQuestion(messages: seq<Message>): string {
    if |messages| >= 2 then messages[|messages| - 2].content else ""
  }

  /** The test `col.lower() in text`. */
  function OccursIn(text: string): string -> bool {
    (c: string) => Contains(text, Lower(c))
  }

  /** The first column, in declared order, whose lower-cased name occurs in the text. */
  function MentionedColumn(columns: seq<string>, text: string): (r: Option<string>)
    ensures r.Some? ==> r.value in columns && Contains(text, Lower(r.value))
    ensures r.Some? ==>
      exists i :: 0 <= i < |columns| && columns[i] == r.value && forall j :: 0 <= j < i ==> !Contains(text, Lower(columns[j]))
    ensures r.None? ==> forall c :: c in columns ==> !Contains(text, Lower(c))
  {
    match FirstIndex(columns, OccursIn(text))
    case Some(i) => Some(columns[i])
    case None => None
  }

  predicate SummaryAsked(q: string) { AnyIn(SummaryWords, q) }
  predicate HighSalaryAsked(q: string) { AnyIn(FilterWords, q) && Contains(q, "salary") && Contains(q, "high") }
  predicate DepartmentSalaryAsked(q: string) {
    AnyIn(GroupWords, q) && Contains(q, "department") && Contains(q, "salary")
  }

  /** The keyword groups, each storing at most one result into `b`. */
  function AddSummary(a: CSVAnalyzer, q: string, b: Bundle<Payload>): (r: Bundle<Payload>)
    reads a
    requires a.Valid() && UniqueKeys(b)
    ensures UniqueKeys(r)
  {
    if SummaryAsked(q) then Put(b, "summary_stats", a.GetSummaryStats()) else b
  }

  function AddUnique(a: CSVAnalyzer, q: string, b: Bundle<Payload>): (r: Bundle<Payload>)
    reads a
    requires a.Valid() && a.df.Some? && UniqueKeys(b)
    ensures UniqueKeys(r)
  {
    if AnyIn(UniqueWords, q) then
      match MentionedColumn(a.df.value.columns, q)
      case Some(c) => Put(b, "unique_" + c, a.GetUniqueValues(c))
      case None => b
    else b
  }

  function AddHighSalary(a: CSVAnalyzer, q: string, engine: QueryEngine, b: Bundle<Payload>): (r: Bundle<Payload>)
    reads a
    requires UniqueKeys(b)
    ensures UniqueKeys(r)
  {
    if HighSalaryAsked(q) then Put(b, "high_salary", a.QueryData("salary > 100000", engine)) else b
  }

  function AddDepartmentSalary(a: CSVAnalyzer, q: string, agg: AggFn, b: Bundle<Payload>): (r: Bundle<Payload>)
    reads a
    requires a.Valid() && UniqueKeys(b)
    ensures UniqueKeys(r)
  {
    if DepartmentSalaryAsked(q) then
      Put(b, "avg_salary_by_dept", a.GroupAndAggregate("department", "salary", "mean", agg))
    else b
  }

  /** The results the keyword tests store for the lower-cased question `q`, before the
      `basic_info` fallback. */
  function Routed(a: CSVAnalyzer, q: string, engine: QueryEngine, agg: AggFn): (b: Bundle<Payload>)
    reads a
    requires a.Valid() && a.df.Some?
    ensures UniqueKeys(b)
  {
    AddDepartmentSalary(a, q, agg, AddHighSalary(a, q, engine, AddUnique(a, q, AddSummary(a, q, []))))
  }

  /** The complete results: what the tests stored, or `basic_info` alone. */
  function QueryResults(a: CSVAnalyzer, q: string, engine: QueryEngine, agg: AggFn): (b: Bundle<Payload>)
    reads a
    requires a.Valid() && a.df.Some?
  {
    var routed := Routed(a, q, engine, agg);
    if routed == [] then [Item("basic_info", a.GetInfo())] else routed
  }

  /** What `query_executor_node` returns. */
  datatype ExecutorUpdate = ExecutorUpdate(messages: seq<Message>, nextAction: string)

  /** `query_executor_node`; `a` is the analyzer the agent was created with, and `dumps`
      is `json.dumps` of the results. */
  method QueryExecutorNode(a: CSVAnalyzer, messages: seq<Message>, engine: QueryEngine, agg: AggFn,
                           dumps: Bundle<Payload> -> string) returns (u: ExecutorUpdate)
    requires a.Valid() && a.df.Some?
    ensures u.nextAction == "respond"
    ensures u.messages == [AI("Query Results: " + dumps(QueryResults(a, Lower(ExecutorQuestion(messages)), engine, agg)))]
  {
    var question := ExecutorQuestion(messages);
    var q := Lower(question);
    var results: Bundle<Payload> := [];
    if AnyIn(SummaryWords, q) {
      results := Put(results, "summary_stats", a.GetSummaryStats());
    }
    assert results == AddSummary(a, q, []);
    if AnyIn(UniqueWords, q) {
      results := UniqueScan(a, q, results);
    }
    assert results == AddUnique(a, q, AddSummary(a, q, []));
    ghost var unique := results;
    if AnyIn(FilterWords, q) {
      if Contains(q, "salary") && Contains(q, "high") {
        results := Put(results, "high_salary", a.QueryData("salary > 100000", engine));
      }
    }
    assert results == AddHighSalary(a, q, engine, unique);
    ghost var highSalary := results;
    if AnyIn(GroupWords, q) {
      if Contains(q, "department") && Contains(q, "salary") {
        results := Put(results, "avg_salary_by_dept", a.GroupAndAggregate("department", "salary", "mean", agg));
      }
    }
    assert results == AddDepartmentSalary(a, q, agg, highSalary);
    assert results == Routed(a, q, engine, agg);
    if results == [] {
      results := [Item("basic_info", a.GetInfo())];
    }
    u := ExecutorUpdate([AI("Query Results: " + dumps(results))], "respond");
  }

  /** The column loop of the unique-values group: the first mentioned column, then `break`. */
  method UniqueScan(a: CSVAnalyzer, q: string, b: Bundle<Payload>) returns (r: Bundle<Payload>)
    requires a.Valid() && a.df.Some? && UniqueKeys(b) && AnyIn(UniqueWords, q)
    ensures r == AddUnique(a, q, b)
  {
    var columns := a.df.value.columns;
    var found := ScanForward(columns, OccursIn(q));
    match found
    case Some(i) =>
      r := Put(b, "unique_" + columns[i], a.GetUniqueValues(columns[i]));
    case None =>
      r := b;
  }

  /** The keys the keyword groups call for; each group fires on its own, so several can
      appear together. */
  function RoutedKeys(columns: seq<string>, q: string): set<string> {
    var m := MentionedColumn(columns, q);
    (if SummaryAsked(q) then {"summary_stats"} else {})
    + (if AnyIn(UniqueWords, q) && m.Some? then {"unique_" + m.value} else {})
    + (if HighSalaryAsked(q) then {"high_salary"} else {})
    + (if DepartmentSalaryAsked(q) then {"avg_salary_by_dept"} else {})
  }

  lemma SummaryStepKeys(a: CSVAnalyzer, q: string)
    requires a.Valid()
    ensures KeySet(AddSummary(a, q, [])) == if SummaryAsked(q) then {"summary_stats"} else {}
  {
    if SummaryAsked(q) {
      KeySetPut([], "summary_stats", a.GetSummaryStats());
    }
  }

  lemma UniqueStepKeys(a: CSVAnalyzer, q: string, b: Bundle<Payload>)
    requires a.Valid() && a.df.Some? && UniqueKeys(b)
    ensures var m := MentionedColumn(a.df.value.columns, q);
      KeySet(AddUnique(a, q, b)) == KeySet(b) + (if AnyIn(UniqueWords, q) && m.Some? then {"unique_" + m.value} else {})
  {
    var m := MentionedColumn(a.df.value.columns, q);
    if AnyIn(UniqueWords, q) && m.Some? {
      KeySetPut(b, "unique_" + m.value, a.GetUniqueValues(m.value));
    }
  }

  lemma HighSalaryStepKeys(a: CSVAnalyzer, q: string, engine: QueryEngine, b: Bundle<Payload>)
    requires UniqueKeys(b)
    ensures KeySet(AddHighSalary(a, q, engine, b)) == KeySet(b) + (if HighSalaryAsked(q) then {"high_salary"} else {})
  {
    if HighSalaryAsked(q) {
      KeySetPut(b, "high_salary", a.QueryData("salary > 100000", engine));
    }
  }

  lemma DepartmentSalaryStepKeys(a: CSVAnalyzer, q: string, agg: AggFn, b: Bundle<Payload>)
    requires a.Valid() && UniqueKeys(b)
    ensures KeySet(AddDepartmentSalary(a, q, agg, b))
         == KeySet(b) + (if DepartmentSalaryAsked(q) then {"avg_salary_by_dept"} else {})
  {
    if DepartmentSalaryAsked(q) {
      KeySetPut(b, "avg_salary_by_dept", a.GroupAndAggregate("department", "salary", "mean", agg));
    }
  }

  /** The keyword groups store exactly the keys they call for. */
  lemma RoutedKeySet(a: CSVAnalyzer, q: string, engine: QueryEngine, agg: AggFn)
    requires a.Valid() && a.df.Some?
    ensures KeySet(Routed(a, q, engine, agg)) == RoutedKeys(a.df.value.columns, q)
  {
    var b0 := AddSummary(a, q, []);
    SummaryStepKeys(a, q);
    var b1 := AddUnique(a, q, b0);
    UniqueStepKeys(a, q, b0);
    var b2 := AddHighSalary(a, q, engine, b1);
    HighSalaryStepKeys(a, q, engine, b1);
    var b3 := AddDepartmentSalary(a, q, agg, b2);
    DepartmentSalaryStepKeys(a, q, agg, b2);
    assert b3 == Routed(a, q, engine, agg);
  }

  /** The `basic_info` fallback: an empty bundle gets that key alone, a non-empty one keeps its keys. */
  lemma FallbackKeys(routed: Bundle<Payload>, info: Payload, ks: set<string>)
    requires KeySet(routed) == ks
    ensures KeySet(if routed == [] then [Item("basic_info", info)] else routed)
         == if ks == {} then {"basic_info"} else ks
  {
    if routed == [] {
      var fallback: Bundle<Payload> := [Item("basic_info", info)];
      assert Keys(fallback) == ["basic_info"];
      assert KeySet(fallback) == {"basic_info"};
      assert Keys(routed) == [];
    } else {
      assert routed[0].key in Keys(routed);
      assert routed[0].key in ks;
    }
  }

  /** The executor's keys are the ones the keyword groups call for, or `basic_info` alone
      when none fired. */
  lemma QueryResultsKeys(a: CSVAnalyzer, q: string, engine: QueryEngine, agg: AggFn)
    requires a.Valid() && a.df.Some?
    ensures var ks := RoutedKeys(a.df.value.columns, q);
      KeySet(QueryResults(a, q, engine, agg)) == if ks == {} then {"basic_info"} else ks
  {
    var routed := Routed(a, q, engine, agg);
    RoutedKeySet(a, q, engine, agg);
    FallbackKeys(routed, a.GetInfo(), RoutedKeys(a.df.value.columns, q));
    assert QueryResults(a, q, engine, agg) == if routed == [] then [Item("basic_info", a.GetInfo())] else routed;
  }
}
