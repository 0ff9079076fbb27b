/** The three-stage intent classifier: a question-type router, a column reasoner and a
    tool selector, each a language-model call with a fixed fallback, composed into one
    decision. JSON values the model produces are of an unspecified type `J`; `decode` is
    `json.loads`, failing with the exception text. */
module Subagents {
  import opened Wrappers
  import opened Text

  /** The labels the router accepts. */
  const ValidTypes: seq<string> := ["SUMMARY", "SEARCH", "FILTER", "AGGREGATE", "UNIQUE_VALUES"]

  /** `QuestionTypeRouter.classify`, given what the model call did. */
  function Classify(reply: Chat): (r: string)
    ensures r in ValidTypes
    ensures reply.Answered? && Upper(Strip(reply.text)) in ValidTypes ==> r == Upper(Strip(reply.text))
    ensures reply.Raised? || Upper(Strip(reply.text)) !in ValidTypes ==> r == "SUMMARY"
  {
    match reply
    case Raised(_) => "SUMMARY"
    case Answered(text) =>
      var normalised := Upper(Strip(text));
      if normalised in ValidTypes then normalised else "SUMMARY"
  }

  /** The text between the first `{` and the last `}`, both included, as Python's slice
      `content[start:end + 1]` takes it: empty when the last `}` comes before the first `{`.
      `None` when either brace is missing. */
  function Extract(content: string): (r: Option<string>)
    ensures r.None? <==> Find(content, '{') == -1 || RFind(content, '}') == -1
    ensures r.Some? && RFind(content, '}') < Find(content, '{') ==> r.value == ""
    ensures r.Some? && Find(content, '{') < RFind(content, '}') ==>
      && r.value == content[Find(content, '{')..RFind(content, '}') + 1]
      && r.value[0] == '{' && r.value[|r.value| - 1] == '}'
  {
    var start, end := Find(content, '{'), RFind(content, '}');
    if start == -1 || end == -1 then None
    else if end + 1 <= start then Some("")
    else Some(content[start..end + 1])
  }

  const NoJson := "No JSON found in response"

  /** The JSON object a stage's reply holds, or the text of the exception raised on the way:
      the model call's, `NoJson`, or `json.loads`'s. */
  function StageJson<J>(reply: Chat, decode: string -> Result<J, string>): (r: Result<J, string>)
    ensures reply.Raised? ==> r == Failure(reply.detail)
    ensures reply.Answered? && Extract(Strip(reply.text)).None? ==> r == Failure(NoJson)
    ensures reply.Answered? && Extract(Strip(reply.text)).Some? ==> r == decode(Extract(Strip(reply.text)).value)
  {
    match reply
    case Raised(e) => Failure(e)
    case Answered(text) =>
      match Extract(Strip(text))
      case None => Failure(NoJson)
      case Some(json) => decode(json)
  }

  /** What `ColumnReasoner.analyze_columns` returns. */
  datatype ColumnAnalysis<J> =
    | ColumnsFromModel(value: J)
    | ColumnsFallback(primaryColumns: seq<string>, columnTypes: map<string, string>, reasoning: string)

  /** `ColumnReasoner.analyze_columns`: the model's object, or the first column typed as text. */
  function AnalyzeColumns<J>(reply: Chat, columns: seq<string>, decode: string -> Result<J, string>)
    : (r: ColumnAnalysis<J>)
    ensures StageJson(reply, decode).Success? ==> r == ColumnsFromModel(StageJson(reply, decode).value)
    ensures StageJson(reply, decode).Failure? ==>
      && r.ColumnsFallback?
      && r.reasoning == "Fallback due to error: " + StageJson(reply, decode).error
      && (columns != [] ==> r.primaryColumns == [columns[0]] && r.columnTypes == map[columns[0] := "text"])
      && (columns == [] ==> r.primaryColumns == [] && r.columnTypes == map[])
  {
    match StageJson(reply, decode)
    case Success(j) => ColumnsFromModel(j)
    case Failure(e) =>
      ColumnsFallback(
        if columns != [] then [columns[0]] else [],
        if columns != [] then map[columns[0] := "text"] else map[],
        "Fallback due to error: " + e)
  }

  /** What `ToolSelector.select_tool` returns. */
  datatype ToolSelection<J> =
    | ToolFromModel(value: J)
    | ToolFallback(tool: string, parameters: map<string, string>, reasoning: string)

  /** The fallback tool for a question type; any type not listed, `UNIQUE_VALUES` among them,
      gets the unique years. */
  function FallbackTool(questionType: string): (r: (string, map<string, string>)) {
    if questionType == "SUMMARY" then ("get_info", map[])
    else if questionType == "SEARCH" then ("search_text", map["column" := "university_name", "term" := "university"])
    else if questionType == "FILTER" then ("query_data", map["query" := "Total > 0"])
    else if questionType == "AGGREGATE" then
      ("group_and_aggregate", map["group_col" := "year", "agg_col" := "Total", "function" := "mean"])
    else ("get_unique_values", map["column" := "year"])
  }

  /** `ToolSelector.select_tool`: the model's object, or the fallback for the question type. */
  function SelectTool<J>(reply: Chat, questionType: string, decode: string -> Result<J, string>)
    : (r: ToolSelection<J>)
    ensures StageJson(reply, decode).Success? ==> r == ToolFromModel(StageJson(reply, decode).value)
    ensures StageJson(reply, decode).Failure? ==>
      r == ToolFallback(FallbackTool(questionType).0, FallbackTool(questionType).1,
                        "Fallback due to error: " + StageJson(reply, decode).error)
  {
    match StageJson(reply, decode)
    case Success(j) => ToolFromModel(j)
    case Failure(e) =>
      var (tool, params) := FallbackTool(questionType);
      ToolFallback(tool, params, "Fallback due to error: " + e)
  }

  /** The `process` record of a decision. */
  datatype Process<J> = Process(step1QuestionType: string, step2Columns: ColumnAnalysis<J>, step3Tool: ToolSelection<J>)

  /** What `MultiAgentIntentClassifier.classify_intent` returns. */
  datatype IntentDecision<J> = IntentDecision(
    intent: string,
    columnAnalysis: ColumnAnalysis<J>,
    tools: seq<ToolSelection<J>>,
    confidence: real,
    process: Process<J>)

  /** The three stages in order, each model call seeing the question and the earlier
      stages' outputs. */
  function ClassifyIntent<J>(question: string, columns: seq<string>,
                             router: string -> Chat,
                             reasoner: (string, string, seq<string>) -> Chat,
                             selector: (string, string, ColumnAnalysis<J>) -> Chat,
                             decode: string -> Result<J, string>): (r: IntentDecision<J>)
    ensures r.intent == Classify(router(question)) && r.intent in ValidTypes
    ensures r.columnAnalysis == AnalyzeColumns(reasoner(question, r.intent, columns), columns, decode)
    ensures r.tools == [SelectTool(selector(question, r.intent, r.columnAnalysis), r.intent, decode)]
    ensures r.confidence == 0.9
    ensures r.process == Process(r.intent, r.columnAnalysis, r.tools[0])
  {
    var questionType := Classify(router(question));
    var columnAnalysis := AnalyzeColumns(reasoner(question, questionType, columns), columns, decode);
    var toolSelection := SelectTool(selector(question, questionType, columnAnalysis), questionType, decode);
    IntentDecision(questionType, columnAnalysis, [toolSelection], 0.9,
                   Process(questionType, columnAnalysis, toolSelection))
  }

  /* ---------------- lemmas ---------------- */

  /** A JSON object surrounded by text with no `{` before it and no `}` after it is
      extracted whole. */
  lemma ExtractEmbedded(before: string, json: string, after: string)
    requires |json| >= 2 && json[0] == '{' && json[|json| - 1] == '}'
    requires forall i :: 0 <= i < |before| ==> before[i] != '{'
    requires forall i :: 0 <= i < |after| ==> after[i] != '}'
    ensures Extract(before + json + after) == Some(json)
  {
    var s := before + json + after;
    var start, end := |before|, |before| + |json| - 1;
    assert s[start] == '{' && s[end] == '}';
    assert Find(s, '{') == start by {
      assert forall j :: 0 <= j < start ==> s[j] == before[j];
    }
    assert RFind(s, '}') == end by {
      assert forall j :: end < j < |s| ==> s[j] == after[j - end - 1];
    }
    assert s[start..end + 1] == json;
  }

  /** A reply whose last `}` precedes its first `{` yields the empty text, which no JSON
      decoder accepts: the stage falls back. */
  lemma ReversedBracesFallBack<J>(decode: string -> Result<J, string>)
    requires decode("").Failure?
    ensures Extract("}{") == Some("")
    ensures StageJson(Answered("}{"), decode).Failure?
  {
    var s := "}{";
    assert Find(s, '{') == 1 by { assert s[0] != '{' && s[1] == '{'; }
    assert RFind(s, '}') == 0 by { assert s[1] != '}' && s[0] == '}'; }
    assert Strip(s) == s by {
      assert !IsSpace(s[0]) && !IsSpace(s[1]);
      assert StripLeft(s) == s;
    }
  }

  /** The router accepts a label whatever its case and surrounding whitespace. */
  lemma ClassifyNormalises()
    ensures Classify(Answered(" search\n")) == "SEARCH"
  {
    var t := " search\n";
    assert StripLeft(t) == t[1..];
    assert StripRight(t[1..]) == "search" by {
      assert t[1..][..|t[1..]| - 1] == "search";
    }
    assert Upper("search") == "SEARCH";
  }

  /** Every question type maps to a fallback tool the dispatcher knows. */
  lemma FallbackToolsKnown(questionType: string)
    ensures FallbackTool(questionType).0 in
      {"get_info", "get_summary_stats", "search_text", "get_unique_values", "query_data", "group_and_aggregate"}
    ensures questionType == "UNIQUE_VALUES" ==> FallbackTool(questionType) == ("get_unique_values", map["column" := "year"])
  {
  }

  /** With the model down, the decision is a summary of the dataset built from the fixed
      fallbacks: the first column as the text column, and `get_info`. */
  lemma ModelDownDecision<J>(question: string, columns: seq<string>, e: string,
                             decode: string -> Result<J, string>)
    requires columns != []
    ensures var d := ClassifyIntent(question, columns,
                                    (q: string) => Raised(e),
                                    (q: string, t: string, cs: seq<string>) => Raised(e),
                                    (q: string, t: string, ca: ColumnAnalysis<J>) => Raised(e),
                                    decode);
      && d.intent == "SUMMARY"
      && d.columnAnalysis == ColumnsFallback([columns[0]], map[columns[0] := "text"], "Fallback due to error: " + e)
      && d.tools == [ToolFallback("get_info", map[], "Fallback due to error: " + e)]
  {
  }
}
