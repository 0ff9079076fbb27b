/** The tool server: `call_tool` for CSV question answering, table info, table queries
    and file listing. Column names in queries are used as given, with no binding. */
module McpServer {
  import opened Wrappers
  import opened Text
  import opened Seqs
  import opened CsvTools
  import Dispatch

  /** The arguments of a call: the string-valued entries, and the `parameters` mapping
      when the call has one. */
  datatype Arguments = Arguments(strings: map<string, string>, parameters: Option<map<string, string>>)

  /** What a call gives back: one text content, or the exception it raises. */
  datatype Reply = Text(text: string) | Raises(error: string)

  const Operations: set<string> := {"info", "summary", "filter", "group", "unique", "search"}

  /** `filter`: both `column` and `value` must be non-empty. */
  function FilterOperation(a: CSVAnalyzer, params: map<string, string>): (r: Payload)
    reads a
    requires a.Valid()
    ensures Dispatch.Param(params, "column", "") != "" && Dispatch.Param(params, "value", "") != "" ==>
      r == a.FilterData(params["column"], params["value"])
    ensures Dispatch.Param(params, "column", "") == "" || Dispatch.Param(params, "value", "") == "" ==>
      r == Error("Filter operation requires 'column' and 'value' parameters")
  {
    var column, value := Dispatch.Param(params, "column", ""), Dispatch.Param(params, "value", "");
    if column != "" && value != "" then a.FilterData(column, value)
    else Error("Filter operation requires 'column' and 'value' parameters")
  }

  /** `group`: `group_by` and `agg_column` must be non-empty; `agg_func` defaults to `mean`. */
  function GroupOperation(a: CSVAnalyzer, params: map<string, string>, agg: AggFn): (r: Payload)
    reads a
    requires a.Valid()
    ensures Dispatch.Param(params, "group_by", "") != "" && Dispatch.Param(params, "agg_column", "") != "" ==>
      r == a.GroupAndAggregate(params["group_by"], params["agg_column"], Dispatch.Param(params, "agg_func", "mean"), agg)
    ensures Dispatch.Param(params, "group_by", "") == "" || Dispatch.Param(params, "agg_column", "") == "" ==>
      r == Error("Group operation requires 'group_by' and 'agg_column' parameters")
  {
    var groupBy, aggColumn := Dispatch.Param(params, "group_by", ""), Dispatch.Param(params, "agg_column", "");
    var aggFunc := Dispatch.Param(params, "agg_func", "mean");
    if groupBy != "" && aggColumn != "" then a.GroupAndAggregate(groupBy, aggColumn, aggFunc, agg)
    else Error("Group operation requires 'group_by' and 'agg_column' parameters")
  }

  /** `unique`: `column` must be non-empty. */
  function UniqueOperation(a: CSVAnalyzer, params: map<string, string>): (r: Payload)
    reads a
    requires a.Valid()
    ensures Dispatch.Param(params, "column", "") != "" ==> r == a.GetUniqueValues(params["column"])
    ensures Dispatch.Param(params, "column", "") == "" ==> r == Error("Unique operation requires 'column' parameter")
  {
    var column := Dispatch.Param(params, "column", "");
    if column != "" then a.GetUniqueValues(column)
    else Error("Unique operation requires 'column' parameter")
  }

  /** `search`: both `column` and `search_term` must be non-empty. */
  function SearchOperation(a: CSVAnalyzer, params: map<string, string>): (r: Payload)
    reads a
    requires a.Valid()
    ensures Dispatch.Param(params, "column", "") != "" && Dispatch.Param(params, "search_term", "") != "" ==>
      r == a.SearchText(params["column"], params["search_term"])
    ensures Dispatch.Param(params, "column", "") == "" || Dispatch.Param(params, "search_term", "") == "" ==>
      r == Error("Search operation requires 'column' and 'search_term' parameters")
  {
    var column, term := Dispatch.Param(params, "column", ""), Dispatch.Param(params, "search_term", "");
    if column != "" && term != "" then a.SearchText(column, term)
    else Error("Search operation requires 'column' and 'search_term' parameters")
  }

  /** The `operation` chain of `query_csv_data`: each operation checks its required
      parameters and then calls the analyzer with the column names exactly as given. */
  function Operation(a: CSVAnalyzer, operation: string, params: map<string, string>, agg: AggFn): (r: Payload)
    reads a
    requires a.Valid()
    ensures operation !in Operations ==> r == Error("Unknown operation: " + operation)
    ensures operation == "info" ==> r == a.GetInfo()
    ensures operation == "summary" ==> r == a.GetSummaryStats()
    ensures operation == "filter" ==> r == FilterOperation(a, params)
    ensures operation == "group" ==> r == GroupOperation(a, params, agg)
    ensures operation == "unique" ==> r == UniqueOperation(a, params)
    ensures operation == "search" ==> r == SearchOperation(a, params)
  {
    if operation == "info" then a.GetInfo()
    else if operation == "summary" then a.GetSummaryStats()
    else if operation == "filter" then FilterOperation(a, params)
    else if operation == "group" then GroupOperation(a, params, agg)
    else if operation == "unique" then UniqueOperation(a, params)
    else if operation == "search" then SearchOperation(a, params)
    else Error("Unknown operation: " + operation)
  }

  predicate IsCsvName(f: string) { EndsWith(f, ".csv") }

  /** The `- <file>` lines of `list_csv_files`. */
  function Bullets(files: seq<string>): (r: seq<string>)
    ensures |r| == |files| && forall i :: 0 <= i < |files| ==> r[i] == "- " + files[i]
  {
    seq(|files|, i requires 0 <= i < |files| => "- " + files[i])
  }

  /** What the server sees of its surroundings: `os.path.exists`, `os.listdir('.')`,
      `pd.read_csv` by path, the aggregation, `json.dumps` of a payload, the outcome
      of the import and call behind `analyze_csv`, and what `create_sample_csv` makes of a
      file name: the name of the file it wrote, or the exception text. */
  datatype Environment = Environment(
    fileExists: string -> bool,
    listing: seq<string>,
    read: string -> Result<Table, string>,
    agg: AggFn,
    dumps: Payload -> string,
    importError: Option<string>,
    answer: Result<string, string>,
    createSample: string -> Result<string, string>)

  /** Every table the environment reads is well formed. */
  ghost predicate ReadsWellFormed(env: Environment) {
    forall f :: env.read(f).Success? ==> WellFormed(env.read(f).value)
  }

  /** `analyze_csv`. `importError` is what the import of the question-answering entry point
      raised; as shipped the name it imports is not defined, so every call ends there. */
  function AnalyzeCsv(args: Arguments, env: Environment): (r: string)
    ensures env.importError.Some? ==> r == "Error analyzing CSV: " + env.importError.value
    ensures env.importError.None? && Dispatch.Param(args.strings, "question", "") == "" ==>
      r == "Please provide a question to analyze"
  {
    if env.importError.Some? then "Error analyzing CSV: " + env.importError.value
    else
      var question := Dispatch.Param(args.strings, "question", "");
      if question == "" then "Please provide a question to analyze"
      else
        var given := Dispatch.Param(args.strings, "csv_file", "");
        var csvFiles := Select(env.listing, IsCsvName);
        if given == "" && csvFiles == [] then "No CSV file found. Please specify a file or create sample data."
        else
          var csvFile := if given == "" then csvFiles[0] else given;
          if !env.fileExists(csvFile) then "CSV file '" + csvFile + "' not found"
          else
            match env.answer
            case Success(answer) => "Question: " + question + "\n\nAnswer: " + answer
            case Failure(e) => "Error analyzing CSV: " + e
  }

  /** `list_csv_files` */
  function ListCsvFiles(env: Environment): (r: string)
    ensures Select(env.listing, IsCsvName) == [] ==> r == "No CSV files found in current directory"
    ensures Select(env.listing, IsCsvName) != [] ==>
      r == "Available CSV files:\n" + Join(Bullets(Select(env.listing, IsCsvName)), "\n")
  {
    var csvFiles := Select(env.listing, IsCsvName);
    if csvFiles == [] then "No CSV files found in current directory"
    else "Available CSV files:\n" + Join(Bullets(csvFiles), "\n")
  }

  /** `call_tool`; an unknown name raises. `analyzer` is the analyzer `get_csv_info` or
      `query_csv_data` built, when it built one. */
  method CallTool(name: string, args: Arguments, env: Environment) returns (r: Reply, ghost analyzer: Option<CSVAnalyzer>)
    requires ReadsWellFormed(env)
    ensures name == "analyze_csv" ==> r == Text(AnalyzeCsv(args, env))
    ensures name == "list_csv_files" ==> r == Text(ListCsvFiles(env))
    ensures name == "create_sample_csv" ==>
      match env.createSample(Dispatch.Param(args.strings, "filename", "sample_data.csv"))
      case Success(f) => r == Text("Sample CSV created: " + f)
      case Failure(e) => r == Text("Error creating sample CSV: " + e)
    ensures name == "get_csv_info" || name == "query_csv_data" ==>
      var csvFile := Dispatch.Param(args.strings, "csv_file", "");
      && (!env.fileExists(csvFile) ==> r == Text("File '" + csvFile + "' not found"))
      && (env.fileExists(csvFile) && env.read(csvFile).Failure? ==>
            r == Text((if name == "get_csv_info" then "Error getting CSV info: " else "Error querying CSV: ")
                      + ("Error loading CSV: " + env.read(csvFile).error)))
      && (env.fileExists(csvFile) && env.read(csvFile).Success? ==>
            && analyzer.Some? && analyzer.value.Valid() && analyzer.value.df == Some(env.read(csvFile).value)
            && (name == "get_csv_info" ==>
                  r == Text("CSV Info for " + csvFile + ":\n" + env.dumps(analyzer.value.GetInfo())))
            && (name == "query_csv_data" ==>
                  r == Text("Query Result:\n" + env.dumps(Operation(analyzer.value, Dispatch.Param(args.strings, "operation", ""),
                                                                     args.parameters.GetOr(map[]), env.agg)))))
    ensures name !in {"analyze_csv", "get_csv_info", "query_csv_data", "list_csv_files", "create_sample_csv"} ==>
      r == Raises("Unknown tool: " + name)
  {
    analyzer := None;
    if name == "analyze_csv" {
      return Text(AnalyzeCsv(args, env)), analyzer;
    } else if name == "get_csv_info" || name == "query_csv_data" {
      var csvFile := Dispatch.Param(args.strings, "csv_file", "");
      if !env.fileExists(csvFile) {
        return Text("File '" + csvFile + "' not found"), analyzer;
      }
      var loaded := Open(csvFile, env.read(csvFile));
      match loaded
      case Failure(e) =>
        var prefix := if name == "get_csv_info" then "Error getting CSV info: " else "Error querying CSV: ";
        r := Text(prefix + e);
      case Success(a) =>
        analyzer := Some(a);
        if name == "get_csv_info" {
          r := Text("CSV Info for " + csvFile + ":\n" + env.dumps(a.GetInfo()));
        } else {
          var operation := Dispatch.Param(args.strings, "operation", "");
          var result := Operation(a, operation, args.parameters.GetOr(map[]), env.agg);
          r := Text("Query Result:\n" + env.dumps(result));
        }
    } else if name == "list_csv_files" {
      return Text(ListCsvFiles(env)), analyzer;
    } else if name == "create_sample_csv" {
      match env.createSample(Dispatch.Param(args.strings, "filename", "sample_data.csv"))
      case Success(f) => r := Text("Sample CSV created: " + f);
      case Failure(e) => r := Text("Error creating sample CSV: " + e);
    } else {
      r := Raises("Unknown tool: " + name);
    }
  }

  /* ---------------- lemmas ---------------- */

  /** Unlike the workflow's dispatcher, the server does not bind column names: a name that
      is no column is reported as missing even where the dispatcher would bind it. */
  lemma ServerDoesNotBind(a: CSVAnalyzer, column: string, agg: AggFn)
    requires a.Valid() && a.df.Some?
    requires column != "" && column !in a.df.value.columns
    requires Dispatch.Binding(a.df.value.columns, column).Some?
    ensures Operation(a, "unique", map["column" := column], agg) == Error("Column '" + column + "' not found")
    ensures var bound := Dispatch.Binding(a.df.value.columns, column).value;
      bound != "" ==> Dispatch.Plan(a.df.value.columns, "get_unique_values", map["column" := column])
                      == Some(Dispatch.UniqueCall(bound))
  {
  }

  /** A group query without `agg_func` aggregates with `mean`. */
  lemma GroupDefaultsToMean(a: CSVAnalyzer, groupBy: string, aggColumn: string, agg: AggFn)
    requires a.Valid() && groupBy != "" && aggColumn != ""
    ensures Operation(a, "group", map["group_by" := groupBy, "agg_column" := aggColumn], agg)
         == a.GroupAndAggregate(groupBy, aggColumn, "mean", agg)
  {
    var params := map["group_by" := groupBy, "agg_column" := aggColumn];
    assert "agg_func" !in params;
  }

  /** As shipped, `analyze_csv` never reaches its own checks: the failed import is reported
      even for an empty question. */
  lemma EmptyQuestionUnreachable(args: Arguments, env: Environment)
    requires env.importError.Some?
    requires Dispatch.Param(args.strings, "question", "") == ""
    ensures AnalyzeCsv(args, env) != "Please provide a question to analyze"
  {
    var r := AnalyzeCsv(args, env);
    assert r[..|"Error analyzing CSV: "|] == "Error analyzing CSV: ";
    assert "Please provide a question to analyze"[..|"Error analyzing CSV: "|] != "Error analyzing CSV: " by {
      assert "Please provide a question to analyze"[0] != "Error analyzing CSV: "[0];
    }
  }
}
