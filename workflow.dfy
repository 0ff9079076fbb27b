/** The four nodes of the question-answering graph (file manager, intent classifier,
    data analyst, response synthesizer) and the answer `ask_question` picks from the
    finished conversation. Each node reads the state and returns an update; the graph
    appends the update's messages and overwrites the keys it sets. */
module Workflow {
  import opened Wrappers
  import opened Text
  import opened Seqs
  import opened Bundles
  import opened CsvTools
  import opened Messages
  import opened Dispatch

  /** One `query_history` entry. */
  datatype HistoryEntry = HistoryEntry(question: string, results: Bundle<Entry>)

  /** `WorkflowState`; `currentCsv` is `None` when `ask_question` was given no file. */
  datatype WorkflowState = WorkflowState(
    messages: seq<Message>,
    csvFiles: seq<string>,
    currentCsv: Option<string>,
    queryHistory: seq<HistoryEntry>,
    context: string)

  /** What a node returns: messages to append, and the keys it sets. */
  datatype Update = Update(
    messages: seq<Message>,
    currentCsv: Option<string>,
    context: Option<string>,
    queryHistory: Option<seq<HistoryEntry>>)

  /** How the graph merges an update: messages are appended, every key the update sets
      replaces the old value, every other key is kept. */
  function Apply(s: WorkflowState, u: Update): (t: WorkflowState)
    ensures |t.messages| == |s.messages| + |u.messages|
    ensures t.messages[..|s.messages|] == s.messages && t.messages[|s.messages|..] == u.messages
    ensures t.csvFiles == s.csvFiles
    ensures t.currentCsv == (if u.currentCsv.Some? then u.currentCsv else s.currentCsv)
    ensures t.context == u.context.GetOr(s.context)
    ensures t.queryHistory == u.queryHistory.GetOr(s.queryHistory)
  {
    WorkflowState(
      s.messages + u.messages,
      s.csvFiles,
      if u.currentCsv.Some? then u.currentCsv else s.currentCsv,
      u.queryHistory.GetOr(s.queryHistory),
      u.context.GetOr(s.context))
  }

  /** The state `ask_question` starts the graph with. */
  function InitialState(question: string, csvFile: Option<string>): WorkflowState {
    WorkflowState([Human(question)], [], csvFile, [], "")
  }

  /* ---------------- file manager ---------------- */

  predicate IsCsvName(w: string) { EndsWith(w, ".csv") }

  /** The file a message names: when its lower case contains `.csv`, the first of its
      whitespace-separated words that ends in `.csv` (case-sensitive), if any. */
  function MentionedCsv(text: string): (r: Option<string>)
    ensures r.Some? <==> Contains(Lower(text), ".csv") && exists w :: w in Words(text) && IsCsvName(w)
    ensures r.Some? ==> IsCsvName(r.value)
    ensures r.Some? ==>
      exists i :: 0 <= i < |Words(text)| && Words(text)[i] == r.value && forall j :: 0 <= j < i ==> !IsCsvName(Words(text)[j])
  {
    if !Contains(Lower(text), ".csv") then None
    else
      var ws := Words(text);
      match FirstIndex(ws, IsCsvName)
      case Some(i) => Some(ws[i])
      case None => None
  }

  /** The content of the latest message, or "" when there is none. */
  function LatestContent(messages: seq<Message>): string {
    if messages == [] then "" else messages[|messages| - 1].content
  }

  /** `file_manager_node`. `fileExists` is `os.path.exists`; `listing` is `os.listdir('.')`. */
  method FileManagerNode(state: WorkflowState, fileExists: string -> bool, listing: seq<string>)
    returns (u: Update)
    ensures u.queryHistory == None
    ensures var m := MentionedCsv(LatestContent(state.messages));
      m.Some? && fileExists(m.value) ==>
        u == Update([AI("Loaded CSV file: " + m.value)], m, Some("Working with " + m.value), None)
    ensures var m := MentionedCsv(LatestContent(state.messages));
      m.Some? && !fileExists(m.value) ==>
        u == Update([AI("File " + m.value + " not found")], None, Some("No file loaded"), None)
    ensures MentionedCsv(LatestContent(state.messages)).None? && Truthy(state.currentCsv) ==>
      u == Update([], state.currentCsv, Some("Working with " + state.currentCsv.value), None)
    ensures MentionedCsv(LatestContent(state.messages)).None? && !Truthy(state.currentCsv) ==>
      var csvFiles := Select(listing, IsCsvName);
      && (csvFiles != [] ==>
            u == Update([AI("Using default CSV: " + csvFiles[0])], Some(csvFiles[0]),
                        Some("Working with " + csvFiles[0]), None))
      && (csvFiles == [] ==>
            u == Update([AI("No CSV files found. Please specify a CSV file.")], None, Some("No file loaded"), None))
  {
    var latest := LatestContent(state.messages);
    if Contains(Lower(latest), ".csv") {
      var words := Words(latest);
      var found := ScanForward(words, IsCsvName);
      if found.Some? {
        var word := words[found.value];
        if fileExists(word) {
          return Update([AI("Loaded CSV file: " + word)], Some(word), Some("Working with " + word), None);
        } else {
          return Update([AI("File " + word + " not found")], None, Some("No file loaded"), None);
        }
      }
    }
    var current := state.currentCsv;
    if !Truthy(current) {
      var csvFiles := Select(listing, IsCsvName);
      if csvFiles != [] {
        return Update([AI("Using default CSV: " + csvFiles[0])], Some(csvFiles[0]),
                      Some("Working with " + csvFiles[0]), None);
      } else {
        return Update([AI("No CSV files found. Please specify a CSV file.")], None, Some("No file loaded"), None);
      }
    }
    return Update([], current, Some("Working with " + current.value), None);
  }

  /* ---------------- picking messages ---------------- */

  /** The question the analyst and the synthesizer answer: the first human message. */
  function FirstQuestion(messages: seq<Message>): string {
    ContentAt(messages, FirstIndex(messages, IsHuman), "")
  }

  /** The question the classifier classifies: the last human message. */
  function LastQuestion(messages: seq<Message>): string {
    ContentAt(messages, LastIndex(messages, IsHuman), "")
  }

  const IntentMarker := "Intent Analysis:"
  const IntentPrefix := "Intent Analysis: "
  const AnalysisMarker := "Analysis Results:"
  const ResponseErrorMarker := "Response generation error"

  predicate IsIntent(m: Message) { IsAIWith(IntentMarker, m) }
  predicate IsAnalysis(m: Message) { IsAIWith(AnalysisMarker, m) }

  /** The intent text the analyst decodes: the last AI message mentioning the intent
      marker, with every occurrence of the prefix removed, or "" when there is none. */
  function IntentText(messages: seq<Message>): string {
    match LastIndex(messages, IsIntent)
    case Some(i) => RemoveAll(messages[i].content, IntentPrefix)
    case None => ""
  }

  /* ---------------- intent classifier ---------------- */

  /** `intent_classifier_node`. The model sees the question and the CSV context line;
      `chat` is what it answered or raised. `source` is what reading the current file gives. */
  method IntentClassifierNode(state: WorkflowState, fileExists: string -> bool, source: Result<Table, string>,
                              chat: (string, string) -> Chat) returns (u: Update)
    requires source.Success? ==> WellFormed(source.value)
    ensures u.currentCsv == None && u.queryHistory == None
    ensures LastQuestion(state.messages) == "" ==>
      u == Update([AI("No question found to classify")], None, Some(state.context), None)
    ensures LastQuestion(state.messages) != "" ==>
      var csvContext :=
        if !Truthy(state.currentCsv) || !fileExists(state.currentCsv.value) then ""
        else if source.Failure? then "CSV structure unknown"
        else "CSV columns: " + Join(source.value.columns, ", ");
      match chat(LastQuestion(state.messages), csvContext)
      case Answered(t) =>
        u == Update([AI(IntentPrefix + t)], None, Some(state.context + " | Intent: " + t), None)
      case Raised(e) =>
        u == Update([AI("Intent analysis error: " + e)], None, Some(state.context), None)
  {
    var found := ScanBackward(state.messages, IsHuman);
    var question := ContentAt(state.messages, found, "");
    if question == "" {
      return Update([AI("No question found to classify")], None, Some(state.context), None);
    }
    var csvContext := "";
    var current := state.currentCsv;
    if Truthy(current) && fileExists(current.value) {
      var loaded := Open(current.value, source);
      match loaded
      case Success(a) => csvContext := "CSV columns: " + Join(a.df.value.columns, ", ");
      case Failure(_) => csvContext := "CSV structure unknown";
    }
    match chat(question, csvContext)
    case Answered(t) =>
      u := Update([AI(IntentPrefix + t)], None, Some(state.context + " | Intent: " + t), None);
    case Raised(e) =>
      u := Update([AI("Intent analysis error: " + e)], None, Some(state.context), None);
  }

  /* ---------------- data analyst ---------------- */

  /** `data_analyst_node`. `analyzer` is the analyzer the node built, when it built one;
      `dumps` is `json.dumps` of the bundle. */
  method DataAnalystNode(state: WorkflowState, fileExists: string -> bool, source: Result<Table, string>,
                         decode: string -> Option<IntentDoc>, engine: QueryEngine, agg: AggFn,
                         faults: nat -> Option<string>, dumps: Bundle<Entry> -> string)
    returns (u: Update, ghost analyzer: Option<CSVAnalyzer>)
    requires source.Success? ==> WellFormed(source.value)
    ensures u.currentCsv == None && u.context == Some(state.context)
    ensures !Truthy(state.currentCsv) || !fileExists(state.currentCsv.value) ==>
      u == Update([AI("No valid CSV file available for analysis")], None, Some(state.context), None)
    ensures Truthy(state.currentCsv) && fileExists(state.currentCsv.value) && source.Failure? ==>
      u == Update([AI("Analysis error: " + ("Error loading CSV: " + source.error))], None, Some(state.context), None)
    ensures Truthy(state.currentCsv) && fileExists(state.currentCsv.value) && source.Success? ==>
      && analyzer.Some? && analyzer.value.Valid() && analyzer.value.df == Some(source.value)
      && u.queryHistory.Some?
      && var h := u.queryHistory.value;
         && |h| == |state.queryHistory| + 1
         && h[..|state.queryHistory|] == state.queryHistory
         && h[|state.queryHistory|].question == FirstQuestion(state.messages)
         && h[|state.queryHistory|].results
              == Finish(analyzer.value, Run(analyzer.value, engine, agg, ToolsOf(decode(IntentText(state.messages))), faults))
         && u.messages == [AI("Analysis Results: " + dumps(h[|state.queryHistory|].results))]
  {
    var current := state.currentCsv;
    if !Truthy(current) || !fileExists(current.value) {
      return Update([AI("No valid CSV file available for analysis")], None, Some(state.context), None), None;
    }
    u, analyzer := AnalyzeFile(state, current.value, source, decode, engine, agg, faults, dumps);
  }

  /** `data_analyst_node` once the file is known to exist: pick the inputs, load, analyze. */
  method AnalyzeFile(state: WorkflowState, csvPath: string, source: Result<Table, string>,
                     decode: string -> Option<IntentDoc>, engine: QueryEngine, agg: AggFn,
                     faults: nat -> Option<string>, dumps: Bundle<Entry> -> string)
    returns (u: Update, ghost analyzer: Option<CSVAnalyzer>)
    requires source.Success? ==> WellFormed(source.value)
    ensures u.currentCsv == None && u.context == Some(state.context)
    ensures source.Failure? ==>
      u == Update([AI("Analysis error: " + ("Error loading CSV: " + source.error))], None, Some(state.context), None)
    ensures source.Success? ==>
      && analyzer.Some? && analyzer.value.Valid() && analyzer.value.df == Some(source.value)
      && u.queryHistory.Some?
      && var h := u.queryHistory.value;
         && |h| == |state.queryHistory| + 1
         && h[..|state.queryHistory|] == state.queryHistory
         && h[|state.queryHistory|].question == FirstQuestion(state.messages)
         && h[|state.queryHistory|].results
              == Finish(analyzer.value, Run(analyzer.value, engine, agg, ToolsOf(decode(IntentText(state.messages))), faults))
         && u.messages == [AI("Analysis Results: " + dumps(h[|state.queryHistory|].results))]
  {
    analyzer := None;
    var question, intent := AnalystInputs(state.messages);
    var loaded := Open(csvPath, source);
    match loaded
    case Failure(e) =>
      u := Update([AI("Analysis error: " + e)], None, Some(state.context), None);
    case Success(a) =>
      analyzer := Some(a);
      u := AnalyzeAndRecord(a, state, question, intent, decode, engine, agg, faults, dumps);
  }

  /** The inputs of `data_analyst_node`: the first human question, and the intent text with
      its prefix removed. */
  method AnalystInputs(messages: seq<Message>) returns (question: string, intent: string)
    ensures question == FirstQuestion(messages) && intent == IntentText(messages)
  {
    var first := ScanForward(messages, IsHuman);
    question := ContentAt(messages, first, "");
    var last := ScanBackward(messages, IsIntent);
    intent := "";
    if last.Some? {
      intent := RemoveAll(messages[last.value].content, IntentPrefix);
    }
  }

  /** `data_analyst_node` once the analyzer is built: run the tools and record one history entry. */
  method AnalyzeAndRecord(a: CSVAnalyzer, state: WorkflowState, question: string, intent: string,
                          decode: string -> Option<IntentDoc>, engine: QueryEngine, agg: AggFn,
                          faults: nat -> Option<string>, dumps: Bundle<Entry> -> string)
    returns (u: Update)
    requires a.Valid() && a.df.Some?
    ensures u.currentCsv == None && u.context == Some(state.context)
    ensures u.queryHistory.Some?
    ensures var h := u.queryHistory.value;
      && |h| == |state.queryHistory| + 1
      && h[..|state.queryHistory|] == state.queryHistory
      && h[|state.queryHistory|].question == question
      && h[|state.queryHistory|].results == Finish(a, Run(a, engine, agg, ToolsOf(decode(intent)), faults))
      && u.messages == [AI("Analysis Results: " + dumps(h[|state.queryHistory|].results))]
  {
    var results := Analyze(a, intent, decode, engine, agg, faults);
    var history := state.queryHistory + [HistoryEntry(question, results)];
    assert history[..|state.queryHistory|] == state.queryHistory;
    u := Update([AI("Analysis Results: " + dumps(results))], None, Some(state.context), Some(history));
  }

  /* ---------------- response synthesizer ---------------- */

  /** The analysis text the synthesizer is given: the last AI message with the analysis marker. */
  function AnalysisText(messages: seq<Message>): string {
    ContentAt(messages, LastIndex(messages, IsAnalysis), "")
  }

  /** `response_synthesizer_node`. The model sees the context, the question and the analysis text. */
  method ResponseSynthesizerNode(state: WorkflowState, chat: (string, string, string) -> Chat) returns (u: Update)
    ensures u.currentCsv == None && u.queryHistory == None
    ensures match chat(state.context, FirstQuestion(state.messages), AnalysisText(state.messages))
      case Answered(t) => u == Update([AI(t)], None, Some(state.context + " | Response generated"), None)
      case Raised(e) => u == Update([AI(ResponseErrorMarker + ": " + e)], None, Some(state.context), None)
  {
    var first := ScanForward(state.messages, IsHuman);
    var question := ContentAt(state.messages, first, "");
    var last := ScanBackward(state.messages, IsAnalysis);
    var analysis := ContentAt(state.messages, last, "");
    match chat(state.context, question, analysis)
    case Answered(t) => u := Update([AI(t)], None, Some(state.context + " | Response generated"), None);
    case Raised(e) => u := Update([AI(ResponseErrorMarker + ": " + e)], None, Some(state.context), None);
  }

  /* ---------------- ask_question ---------------- */

  /** What `ask_question` returns: both fields in raw mode, the final text otherwise. */
  datatype Answer = RawAnswer(analysis: string, response: string) | FinalAnswer(text: string)

  /** An AI message that is the model's reply: none of the three markers in it. */
  predicate IsReply(m: Message) {
    m.AI? && !Contains(m.content, ResponseErrorMarker) && !Contains(m.content, IntentMarker)
    && !Contains(m.content, AnalysisMarker)
  }

  /** An AI message that is not a synthesis error. */
  predicate IsNonError(m: Message) { m.AI? && !Contains(m.content, ResponseErrorMarker) }

  /** Python's `x or default` on a string. */
  function OrElse(x: string, default: string): (r: string)
    ensures x != "" ==> r == x
    ensures x == "" ==> r == default
  {
    if x == "" then default else x
  }

  /** The answer `ask_question` returns. In raw mode the analysis is the earliest analysis message (the backward
      scan does not stop) and the response the latest reply; otherwise the latest AI message
      that is not a synthesis error. */
  method SelectAnswer(messages: seq<Message>, raw: bool) returns (ans: Answer)
    ensures raw ==> ans == RawAnswer(
      OrElse(ContentAt(messages, FirstIndex(messages, IsAnalysis), ""), "No analysis results found"),
      OrElse(ContentAt(messages, LastIndex(messages, IsReply), ""), "No final response generated"))
    ensures !raw ==> ans == FinalAnswer(ContentAt(messages, LastIndex(messages, IsNonError), "No response generated"))
  {
    if raw {
      var analysis := ScanBackwardToEnd(messages, IsAnalysis);
      var response := ScanBackward(messages, IsReply);
      return RawAnswer(
        OrElse(ContentAt(messages, analysis, ""), "No analysis results found"),
        OrElse(ContentAt(messages, response, ""), "No final response generated"));
    }
    var reply := ScanBackward(messages, IsNonError);
    return FinalAnswer(ContentAt(messages, reply, "No response generated"));
  }

  /* ---------------- lemmas ---------------- */

  /** A message that satisfies `p` and is appended last is the last one satisfying `p`. */
  lemma LastIndexOfAppended<T>(s: seq<T>, x: T, p: T -> bool)
    requires p(x)
    ensures LastIndex(s + [x], p) == Some(|s|)
  {
    var t := s + [x];
    assert |t| == |s| + 1 && t[|t| - 1] == x;
    assert p(t[|t| - 1]);
  }

  /** What the classifier stores, the analyst reads back: right after the classifier
      answered `t`, the intent text is `t`, provided `t` does not itself contain the prefix
      (which `replace` would remove as well). */
  lemma IntentRoundTrip(messages: seq<Message>, t: string)
    requires !Contains(t, IntentPrefix)
    ensures IntentText(messages + [AI(IntentPrefix + t)]) == t
  {
    var m := AI(IntentPrefix + t);
    assert IsIntent(m) by {
      assert (IntentPrefix + t)[..|IntentMarker|] == IntentMarker;
    }
    LastIndexOfAppended(messages, m, IsIntent);
    assert (messages + [m])[|messages|] == m;
    RemovePrefix(IntentPrefix, t);
  }

  /** The synthesizer is given the analyst's message when it is the latest analysis. */
  lemma AnalysisHandOver(messages: seq<Message>, dumped: string)
    ensures AnalysisText(messages + [AI(AnalysisMarker + " " + dumped)]) == AnalysisMarker + " " + dumped
  {
    var m := AI(AnalysisMarker + " " + dumped);
    assert IsAnalysis(m) by {
      assert (AnalysisMarker + " " + dumped)[..|AnalysisMarker|] == AnalysisMarker;
    }
    LastIndexOfAppended(messages, m, IsAnalysis);
  }

  /** A synthesizer reply without markers, appended last, is what `ask_question` returns
      in both modes. */
  lemma LatestReplyAnswers(messages: seq<Message>, t: string)
    requires t != ""
    requires !Contains(t, ResponseErrorMarker) && !Contains(t, IntentMarker) && !Contains(t, AnalysisMarker)
    ensures OrElse(ContentAt(messages + [AI(t)], LastIndex(messages + [AI(t)], IsReply), ""),
                   "No final response generated") == t
    ensures ContentAt(messages + [AI(t)], LastIndex(messages + [AI(t)], IsNonError), "No response generated") == t
  {
    LastIndexOfAppended(messages, AI(t), IsReply);
    LastIndexOfAppended(messages, AI(t), IsNonError);
  }

  /** With two questions in the conversation, the analyst and the synthesizer answer the
      first while the classifier classified the last. */
  lemma QuestionsCanDiffer()
    ensures FirstQuestion([Human("a"), Human("b")]) == "a"
    ensures LastQuestion([Human("a"), Human("b")]) == "b"
  {
    var ms := [Human("a"), Human("b")];
    assert ms[..1] == [Human("a")];
  }

  lemma LowerOfDataCsv()
    ensures Lower("DATA.CSV") == "data.csv"
  {
  }

  /** The `.csv` test is case-insensitive but the word test is not: a message naming
      `DATA.CSV` names no file, and the node falls back to the current or default file. */
  lemma UpperCaseExtensionNamesNoFile()
    ensures Contains(Lower("DATA.CSV"), ".csv")
    ensures MentionedCsv("DATA.CSV") == None
  {
    var text := "DATA.CSV";
    assert Lower(text) == "data.csv" by { LowerOfDataCsv(); }
    SuffixContained(Lower(text), ".csv");
    assert forall i :: 0 <= i < |text| ==> !IsSpace(text[i]);
    WordsOfToken(text);
    assert !IsCsvName(text) by { assert text[4..] == ".CSV"; }
  }
}
