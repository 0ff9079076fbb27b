# llamalytics in Dafny

llamalytics answers questions about CSV files with a local language model. This project models the deterministic logic around the model calls. Five pieces are covered:

- **Table operations.** `CSVAnalyzer` loads one table and answers read-only queries over it: info, summary, query, equality filter, group and aggregate, unique values and text search. Every query returns a success payload or an error payload and never raises.
- **The question-answering graph.** Four nodes pass a conversation along:
  - the file manager picks the CSV file;
  - the intent classifier asks the model which tools to run;
  - the data analyst decodes that answer, binds its column names to table columns, runs the tools and records the results;
  - the response synthesizer asks the model for the final text.

  `ask_question` then picks its answer from the messages by marker strings.
- **The three-stage intent classifier.**
  - A router validates a question-type label.
  - A column reasoner and a tool selector each pull a JSON object out of a reply, or fall back to fixed values.
  - The three stages compose into one decision.
- **The single-agent query executor.** Independent keyword tests on the lower-cased question each store one analyzer result.
- **The tool server's `call_tool`.** It covers CSV question answering, table info, table queries with their operation table and parameter checks, file listing, sample creation, and the error for an unknown tool.

The model component, pandas, JSON and the filesystem are inputs to the model, as follows:

- A **model call** is a `Chat` value: the text the model answered, or the exception it raised. It is a function of what the prompt is built from.
- `DataFrame.query` is a `QueryEngine`, a parse function giving a row predicate or an error.
- A **group aggregation** is an `AggFn`: `resolve` gives the error pandas raises for a function name it does not know, looked up before any group is formed; `apply` is the aggregate of one group's values, or its error.
- `json.loads` is a decode function, and `json.dumps` is a function to text.
- `os.path.exists` is a predicate, and `os.listdir('.')` is a sequence.
- `pd.read_csv` is a `Result<Table, string>`, or a function from paths to such results.
- The **exceptions tools raise** in the analyst's loop are a function from the tool's index to an optional error text.

Cells are text, and each column carries the `DType` pandas inferred for it: numeric, bool (a column of `True`/`False`) or other.

The modules:

| file | module | models |
|---|---|---|
| wrappers.dfy | `Wrappers` | `Option`, `Result`, `Chat` |
| text.dfy | `Text` | Python string operations: `lower`, `upper`, `strip`, `split`, `find`, `rfind`, `in`, `replace`, `join` |
| seqs.dfy | `Seqs` | first and last matching index, boolean-mask selection, first-appearance `unique` |
| bundles.dfy | `Bundles` | an insertion-ordered `dict` with string keys |
| csv_tools.dfy | `CsvTools` | tools/csv_tools.py: `Table`, `Payload`, class `CSVAnalyzer` |
| csv_examples.dfy | `CsvExamples` | a three-row enrolment table: its `get_unique_values` result, its year group value lists, an unknown aggregation name failing in `group_and_aggregate`, and its `search_text` match count |
| messages.dfy | `Messages` | messages, and the forward and backward message scans with `break` |
| dispatch.dfy | `Dispatch` | the tool loop of `data_analyst_node`: column binding, calls, result keys, faults, fallback |
| workflow.dfy | `Workflow` | the four nodes, the state merge and `ask_question`'s answer selection |
| subagents.dfy | `Subagents` | agents/subagents.py |
| agent.dfy | `Agent` | `query_executor_node` of agents/agent.py |
| mcp_server.dfy | `McpServer` | `call_tool` of servers/mcp_server.py |

The shipped `analyze_csv` imports `ask_csv_question` from `agents.workflow`, which defines only `ask_question`. The import sits inside the `try`, so as shipped every call reports the import error. That includes a call with an empty question, whose own check is never reached. `McpServer.AnalyzeCsv` takes the import's outcome as an input: `EmptyQuestionUnreachable` shows the shipped behaviour, and the function's own contract states the checks for an import that succeeds.

## Model

| member | source | states |
|---|---|---|
| CsvTools.CSVAnalyzer.constructor | tools/csv_tools.py:9-11 | the path is stored and no table is loaded before `load_csv` runs |
| CsvTools.CSVAnalyzer.LoadCsv | tools/csv_tools.py:14-20 | a successful read installs the table; a failed one leaves `df` alone and reports `Error loading CSV: <e>` |
| CsvTools.Open | tools/csv_tools.py:9-20 | constructing an analyzer gives a fresh, valid analyzer holding the table read, or fails with the `Error loading CSV: ` message |
| CsvTools.CSVAnalyzer.GetInfo | tools/csv_tools.py:22-33 | `No data loaded` without a table; otherwise shape is (rows, columns), columns keep declared order, dtypes are the table's, sample is the first min(3, n) rows |
| CsvTools.CSVAnalyzer.GetSummaryStats | tools/csv_tools.py:35-44 | `No data loaded` without a table; `No numeric columns found` (a message, not an error) exactly when no column is numeric; otherwise the numeric columns are exactly those selected |
| CsvTools.CSVAnalyzer.QueryData | tools/csv_tools.py:46-56 | any failure, a missing table included, becomes `Query error: <e>`; on success the count is every matching row and the data is the first min(10, count) of them in table order |
| CsvTools.CSVAnalyzer.FilterData | tools/csv_tools.py:58-71 | an absent column gives `Column '<c>' not found`; otherwise the count is the rows whose cell equals the value (never one of a numeric or bool column), data the first min(10, count) of them, label `<c> == <v>` |
| CsvTools.CSVAnalyzer.GroupAndAggregate | tools/csv_tools.py:73-87 | the group column is checked before the aggregation column, each with its own error; an unknown function name then fails with `Aggregation error: ` and its error, whatever the rows; otherwise the result is the grouping `Grouped` states |
| CsvTools.Grouped | tools/csv_tools.py:81-87 | a failing aggregate gives `Aggregation error: ` and the error of some group; when every group succeeds, grouping a column by itself gives `Aggregation error: cannot insert <group>, already exists` (from `reset_index`), and otherwise the result has one row per distinct group key, in first-appearance order of the group keys, with that group's aggregate and label `<f>(<agg>) grouped by <group>` |
| CsvTools.FilterBoolColumnMatchesNothing | tools/csv_tools.py:64-67 | filtering a bool column by any text value matches no row and returns no data |
| CsvTools.AggregateGroups | tools/csv_tools.py:81 | aggregation succeeds exactly when every group's does, with one result per key, in the order the keys are given; otherwise it fails with the error of some group |
| CsvTools.CSVAnalyzer.GetUniqueValues | tools/csv_tools.py:89-102 | an absent column gives the column error; otherwise the count is the number of distinct values (uncapped), the list the first 20 distinct values in first-appearance order |
| CsvTools.UniqueValuesBounded | tools/csv_tools.py:95-99 | the listed unique values have no repeats and number min(20, unique_count) |
| CsvTools.CSVAnalyzer.SearchText | tools/csv_tools.py:104-120 | an absent column gives the column error; otherwise matches counts rows whose cell contains the term ignoring case, data the first min(10, matches) of them |
| CsvTools.SearchIgnoresTermCase | tools/csv_tools.py:110 | searching for the upper-cased term finds the same matches and rows |
| CsvExamples.ExampleUniqueYears | tools/csv_tools.py:89-100 | on the three-row example, the years are `2020`, `2021`, counted 2 |
| CsvExamples.ExampleUnknownFunction | tools/csv_tools.py:81-87 | on the example, an aggregation name pandas does not know gives `Aggregation error: ` and its error |
| CsvExamples.ExampleYearGroups | tools/csv_tools.py:81 | on the example, the 2020 group holds totals 100 and 200 and the 2021 group 150 |
| CsvExamples.ExampleSearch | tools/csv_tools.py:104-118 | on the example, searching the name column for `a` matches two rows |
| Seqs.Select | tools/csv_tools.py:64 | a boolean mask keeps exactly the satisfying elements, with their multiplicities, in order |
| Seqs.Distinct | tools/csv_tools.py:95 | `unique()` has no repeats and the same elements as its input |
| Seqs.DistinctCount | tools/csv_tools.py:95-98 | the number of unique values is the size of the set of values |
| Bundles.Put | agents/workflow.py:208 | assigning a key keeps keys unique, appends a new key at the end, keeps the order for an existing key, and stores the value |
| Bundles.GetPutOther | agents/workflow.py:208 | assigning one key leaves every other key's value alone |
| Bundles.PutPutSame | agents/workflow.py:208 | assigning the same value to the same key twice is assigning it once |
| Messages.ScanForward | agents/workflow.py:178-181 | the forward loop with `break` finds the first matching message |
| Messages.ScanBackward | agents/workflow.py:81-84 | the reversed loop with `break` finds the last matching message |
| Messages.ScanBackwardToEnd | agents/workflow.py:383-385 | the reversed loop without `break` ends on the first matching message |
| Dispatch.Binding | agents/workflow.py:218-224 | a name that is a column binds to itself, and a bound column is always one of the table's columns |
| Dispatch.BindColumn | agents/workflow.py:218-224 | the exact-match test followed by the fuzzy `for`/`break` loop computes `Binding` |
| Dispatch.BoundColumnResembles | agents/workflow.py:218-224 | the bound column resembles the requested name (case-insensitive containment either way) |
| Dispatch.BindingFirstResembling | agents/workflow.py:233-238 | without an exact match the name binds to the first resembling column in declared order |
| Dispatch.BindingNone | agents/workflow.py:255-268 | a name is unbound exactly when it is no column and resembles none |
| Dispatch.BindingIgnoresCase | agents/workflow.py:222 | without an exact match, names equal up to case bind alike |
| Dispatch.Step | agents/workflow.py:202-274 | one tool iteration keeps the bundle's keys unique; `StepEffect` states what it stores |
| Dispatch.StepEffect | agents/workflow.py:202-274 | a spec that makes no call (an unknown tool, an empty required parameter or an unbound column) adds nothing, whatever the fault; a raising call stores `Tool execution error: <e>` under `error_<tool>`; otherwise the call's result is stored under its derived key; every other key is unchanged |
| Dispatch.StepTwice | agents/workflow.py:202-271 | a repeated spec overwrites its key with an equal value, so running it twice is running it once |
| Dispatch.Run | agents/workflow.py:202-274 | the bundle after the loop has unique keys |
| Dispatch.RunKeysDerived | agents/workflow.py:202-274 | every key of the bundle is the result key of a call one of the specs made, or the error key of that spec's tool |
| Dispatch.Finish | agents/workflow.py:276-278 | an empty bundle gets exactly the `fallback_info` entry; a non-empty one is kept |
| Dispatch.ExecuteTool | agents/workflow.py:202-274 | the loop body, with its inline binding loops, computes `Step`: the fault is read only once a call is made |
| Dispatch.Analyze | agents/workflow.py:192-278 | the decode, the tool loop and the fallback compute `Finish` of `Run` over the decoded tools |
| Dispatch.UndecodableIntentRunsGetInfo | agents/workflow.py:193-199 | an intent that fails to decode or is not a mapping runs `get_info` alone: `dataset_info`, or `error_get_info` when it raised |
| Dispatch.NoToolsFallsBack | agents/workflow.py:196 | a mapping without `tools` runs nothing and ends with `fallback_info` only |
| Workflow.Apply | agents/workflow.py:14-19 | the merge appends the update's messages and overwrites exactly the keys the update sets |
| Workflow.MentionedCsv | agents/workflow.py:34-38 | a file is named exactly when the lower-cased message contains `.csv` and some word ends in `.csv`; it is the first such word |
| Workflow.FileManagerNode | agents/workflow.py:25-72 | a named existing file is loaded; a named missing file is reported without changing the file; otherwise a set `current_csv` is kept, else the first `.csv` listing entry, else `No CSV files found` |
| Workflow.UpperCaseExtensionNamesNoFile | agents/workflow.py:34-38 | `DATA.CSV` passes the lower-cased `.csv` test but is no `.csv` word, so no file is named |
| Workflow.IntentClassifierNode | agents/workflow.py:74-160 | no human message gives `No question found to classify`; otherwise the model sees the last question and the column line (or `CSV structure unknown`), and its answer is stored behind `Intent Analysis: ` and added to the context, or its error reported |
| Workflow.DataAnalystNode | agents/workflow.py:162-290 | without a usable file or with a failed load, the matching error message; otherwise the history gains one entry with the first question and the dispatcher's bundle, whose dump is the message |
| Workflow.AnalyzeFile | agents/workflow.py:174-290 | a failed load gives `Analysis error: Error loading CSV: ` and the error; a good load gives an analyzer holding the table, and the history gains one entry with the first question and the dispatcher's bundle for the decoded intent |
| Workflow.AnalystInputs | agents/workflow.py:175-186 | the analyst's question is the first human message, its intent the last intent message with the prefix removed |
| Workflow.AnalyzeAndRecord | agents/workflow.py:189-284 | the old history is kept and exactly one entry is appended |
| Workflow.IntentRoundTrip | agents/workflow.py:152-185 | the analyst reads back the classifier's answer when it does not itself contain the prefix |
| Workflow.QuestionsCanDiffer | agents/workflow.py:81-181 | with two questions, the classifier takes the last and the analyst the first |
| Workflow.ResponseSynthesizerNode | agents/workflow.py:292-344 | the model sees the context, the first question and the latest analysis; its answer becomes the message, or the `Response generation error` message is stored |
| Workflow.AnalysisHandOver | agents/workflow.py:281-309 | the synthesizer is given the analyst's message when it is the latest analysis |
| Workflow.SelectAnswer | agents/workflow.py:380-407 | raw mode gives the earliest analysis and the latest marker-free reply, each with its default; otherwise the latest non-error AI message or `No response generated` |
| Workflow.LatestReplyAnswers | agents/workflow.py:389-405 | a marker-free reply appended last is the answer in both modes |
| Workflow.OrElse | agents/workflow.py:398-399 | `x or default` on text |
| Subagents.Classify | agents/subagents.py:21-44 | the label is always one of the five types: the stripped upper-cased reply when valid, else `SUMMARY`, also when the call fails |
| Subagents.ClassifyNormalises | agents/subagents.py:32 | a reply of ` search` with a newline classifies as `SEARCH` |
| Subagents.Extract | agents/subagents.py:71-77 | the text from the first `{` to the last `}` inclusive; nothing when either is missing; empty when the last `}` precedes the first `{` |
| Subagents.ExtractEmbedded | agents/subagents.py:71-75 | a JSON object with no `{` before and no `}` after is extracted whole |
| Subagents.ReversedBracesFallBack | agents/subagents.py:112-118 | `}{` extracts to the empty text, which does not decode, so the stage falls back |
| Subagents.StageJson | agents/subagents.py:61-77 | a stage's object is the decoded extract, or the error of the call, of the extraction or of the decoder |
| Subagents.AnalyzeColumns | agents/subagents.py:52-86 | the model's object, or the first column typed as text (empty for no columns) with reasoning `Fallback due to error: <e>` |
| Subagents.SelectTool | agents/subagents.py:94-132 | the model's object, or the question type's fixed fallback tool with its reasoning |
| Subagents.FallbackToolsKnown | agents/subagents.py:122-132 | every fallback tool is one the dispatcher runs, and `UNIQUE_VALUES` falls back to the unique years |
| Subagents.ClassifyIntent | agents/subagents.py:142-165 | the stages run in order on the earlier outputs; the intent is the router's label, tools the selector's one output, confidence 0.9, and process mirrors the stages |
| Subagents.ModelDownDecision | agents/subagents.py:42-124 | with the model down, the decision is `SUMMARY`, the first column as text, and `get_info` |
| Agent.MentionedColumn | agents/agent.py:95-98 | a column whose lower-cased name occurs in the question, with no earlier column in declared order doing so, or none when no column does |
| Agent.UniqueScan | agents/agent.py:93-98 | the column loop, a forward scan with `break`, adds the entry for the first mentioned column and nothing when none is mentioned, as `AddUnique` states |
| Agent.QueryExecutorNode | agents/agent.py:78-117 | the question is the second-to-last message (or empty); the message is the dump of the routed results; the next action is `respond` |
| Agent.SummaryStepKeys | agents/agent.py:90-91 | a summary word adds `summary_stats` |
| Agent.UniqueStepKeys | agents/agent.py:93-98 | a unique word adds `unique_<col>` for the mentioned column, if any |
| Agent.HighSalaryStepKeys | agents/agent.py:100-103 | a filter word with `salary` and `high` adds `high_salary` |
| Agent.DepartmentSalaryStepKeys | agents/agent.py:105-108 | a group word with `department` and `salary` adds `avg_salary_by_dept` |
| Agent.RoutedKeySet | agents/agent.py:88-108 | the independent tests store exactly the keys they call for, several together when several fire |
| Agent.FallbackKeys | agents/agent.py:111-112 | an empty result map gets `basic_info` alone; a non-empty one keeps its keys |
| Agent.QueryResultsKeys | agents/agent.py:88-112 | the result keys are those the tests call for, or exactly `basic_info` when none fired |
| McpServer.Operation | servers/mcp_server.py:179-212 | the closed operation table: `info` and `summary` call the analyzer directly, the four parameterised operations go to their checks, and any other operation gives `Unknown operation: <op>` |
| McpServer.FilterOperation | servers/mcp_server.py:183-189 | a non-empty `column` and `value` filter on that column as given; otherwise the literal filter error |
| McpServer.GroupOperation | servers/mcp_server.py:190-197 | a non-empty `group_by` and `agg_column` aggregate those columns as given, with `agg_func` defaulting to `mean`; otherwise the literal group error |
| McpServer.UniqueOperation | servers/mcp_server.py:198-203 | a non-empty `column` lists its unique values as given; otherwise the literal unique error |
| McpServer.SearchOperation | servers/mcp_server.py:204-210 | a non-empty `column` and `search_term` search that column as given; otherwise the literal search error |
| McpServer.GroupDefaultsToMean | servers/mcp_server.py:190-195 | a group query without `agg_func` aggregates with `mean` |
| McpServer.ServerDoesNotBind | servers/mcp_server.py:198-201 | a name that is no column is reported missing by the server, while the dispatcher binds it to a resembling column |
| McpServer.AnalyzeCsv | servers/mcp_server.py:119-146 | a failed import reports `Error analyzing CSV: <e>`; past it, an empty question gives `Please provide a question to analyze` |
| McpServer.EmptyQuestionUnreachable | servers/mcp_server.py:120-128 | as shipped, the failed import is reported even for an empty question |
| McpServer.ListCsvFiles | servers/mcp_server.py:219-226 | the `.csv` listing entries as `- <f>` lines, or `No CSV files found in current directory` |
| McpServer.Bullets | servers/mcp_server.py:223 | one `- <f>` line per file, in order |
| McpServer.CallTool | servers/mcp_server.py:117-244 | each tool's branch: a missing file, a failed load with its prefix, the info and query texts over a fresh analyzer, listing, sample creation, and `Unknown tool: <name>` raised for any other name |

## Left out

- Model calls: `ollama.chat` is a `Chat` input. The prompt texts of agents/prompt.py and agents/subagent_prompts.py are not modelled; each call is a function of the values the prompt is built from.
- JSON: `json.loads` is an abstract decode. Intent JSON is reduced to mappings whose tool specs carry string-valued parameters. A non-string parameter value, a non-mapping tool spec (which raises outside the tool loop's `try`) and a `null` parameters value are not modelled. Selector and reasoner objects are an abstract type `J`.
- `json.dumps` of every payload or bundle is an abstract function to text, so the exact JSON layout is not modelled.
- Filesystem: `read_csv`, `os.path.exists` and `os.listdir` are inputs. A failing `os.listdir` (`Error listing files: <e>`) is not modelled. `create_sample_csv` is an input giving the file it wrote or the error text, because it draws random data and writes a file.
- pandas and `DataFrame.query`: expression parsing is an abstract `QueryEngine`. `describe()` figures, dtype inference and null counts are not modelled; dtypes are part of the table and cells are already text. The term of `str.contains` is read literally, not as a regular expression.
- CsvTools.CSVAnalyzer.GroupAndAggregate: groups are listed in first-appearance order, whereas pandas sorts the group keys. Sorting of mixed-typed keys is not modelled.
- CsvTools.CSVAnalyzer.GetSummaryStats: states only which columns are numeric, not the statistics `describe()` reports for them.
- CsvTools.CSVAnalyzer.GetInfo: `null_counts` is not part of the payload, because nulls are not modelled.
- CsvTools.CSVAnalyzer.FilterData: compares the value as text. A text value never equals a cell of a numeric or bool column, as pandas compares typed values. Numeric filter values, which only non-string JSON could carry, are not modelled.
- Aggregate arithmetic: `mean` and the other functions are an abstract `AggFn`, so floating point is not modelled.
- Text: `lower`, `upper`, `strip` and `split` use ASCII letters and ASCII whitespace only, not Unicode case mapping or Unicode whitespace.
- Agent.QueryResultsKeys: states the set of keys the executor stores, not their insertion order. `Agent.QueryExecutorNode` does state the exact bundle.
- The analyst's tool faults are an input indexed by the tool's position, since the exceptions pandas raises are not modelled.
- LangGraph plumbing: graph compilation and node order are not modelled. `Workflow.Apply` states the merge a node's update undergoes. `ask_question`'s invocation of the graph is not modelled, only its answer selection.
- agents/agent.py: `analyzer_node`, `response_generator_node`, `create_data_analyst_agent` and `ask_question_about_csv` are model calls and graph wiring, so they are not modelled.
- servers/mcp_server.py: `list_tools` (the tool schema), `main` (the stdio transport) and logging are not modelled. The `model` argument of `analyze_csv` is not modelled, because it only reaches the model call.
- `ask_csv_question`, which `analyze_csv` and the workflow's `__main__` call, is not defined in the repository. Its outcome is an input of `McpServer.AnalyzeCsv`.
- `print` calls in the analyzer, the classifier stages and the analyst are not modelled.
- The Streamlit app, the chat CLI, the Ollama setup script and the tests are not part of this model.
