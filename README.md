# py-sidebot core, modelled in Dafny

py-sidebot is a chat sidebar for a data dashboard. A language model answers
questions about a data frame and may call three tools: run a SQL query,
update the dashboard's query and title, or reset the dashboard. This project
models the two files that hold its logic, `tool.py` and `query.py`, and
proves what they promise.

- **tool.py.** The deriver maps Python parameter types to JSON-schema
  fragments (`type_to_json_schema`, `type_dict`). `func_to_schema` builds a
  tool descriptor from a function's signature. `tool` wraps a function as
  a named tool. `toolinvoke` turns one tool call into a `role: "tool"`
  message that never raises. `Toolbox` is the name-keyed registry that
  dispatches calls.
- **query.py.** `df_to_schema` renders a data frame's columns to text.
  `system_prompt` substitutes that text into the prompt template.
  `safe_tool` wraps the three tool bodies. `perform_query` runs the chat
  loop: it appends the user's message, then streams one reply per round.
  It yields the chunks that carry content, appends the merged reply, and
  dispatches its tool calls in order. It stops on a reply without tool
  calls, and on an exception it appends one `**Error**: ` message and
  stops.

Modules, in dependency order:

- `Wrappers`: `Option` and `Result`.
- `JsonValues`: JSON values, with objects as insertion-ordered entry lists as Python dicts are.
- `Strings`: `str.replace`, `str.split` and `str.join` on `seq<char>`.
- `TypeSchema`: the type deriver.
- `FuncSchema`: the descriptor.
- `Tools`: `tool`, `toolinvoke` and `Toolbox`.
- `DfSchema`: `df_to_schema`.
- `Query`: `safe_tool`, the three tools and `perform_query`.
- `Prompt`: `system_prompt`.

Collaborators the code calls but does not define are parameters:

- the chat model is a finite sequence of rounds, each a stream of reply chunks;
- LangChain's chunk `+=` is a `Merge` function;
- `query_db` is a `QueryDb` oracle;
- `on_update_dashboard` is a `Sink` oracle;
- `json.loads` is a `JsonLoads` oracle;
- the wrapped tool functions are `ToolFunc` oracles;
- `traceback.format_exc()` is a string parameter.

Throughout, `Result.Failure(msg)` stands for an exception whose `str()` is
`msg`. The one exception is `TypeSchema`, where `Failure` carries a
`SchemaError`: `AssertionFailed(check)` for the `AssertionError` of the named
`assert`, and `UnsupportedType(repr)` for the `ValueError` of an unsupported
type.

`perform_query` mutates the caller's `messages` list, so it is a method of
the class `Query.Conversation`. The class's `messages` field is that list,
and `trace` records the effects in order: progress reports, yielded chunks,
`query_db` calls and dashboard updates. Each loop in the source is a loop
here, proved against a specification function:

- the rounds loop against `Query.Rounds`;
- the tool-call loop against `Query.DispatchAll`;
- the streaming loop against `Query.Merged` and `Query.Yields`;
- the column loop against `DfSchema.SchemaLines`;
- the `required` loop against `FuncSchema.RequiredNames`;
- the validation and building loops of `Toolbox.__init__` against `Tools.ToolMap`.

The lemmas then state and prove the promised properties about those
functions. `Query.RoundsStep`, `Query.OneRoundSteps`, `Query.DispatchSuffix`
and `Query.YieldedTextAppend` are proof steps for `RunRounds`, `RunRound`,
`RunCalls` and `YieldsFaithful`: they only regroup appended sequences.

The model follows the code as written:

- `df_to_schema` lists no min/max range for numeric columns.
- An unknown tool name in `Toolbox.__call__` does not produce a
  "Unknown tool" message; see Findings.
- `perform_query` binds LangChain's `tool`, not tool.py's, and dispatches
  through a plain dict lookup. An unknown name there raises `KeyError`, and
  the turn ends with an error message.

## Model

| member | source | states |
|---|---|---|
| `TypeSchema.TypeToJsonSchema` | tool.py:135-177 | `type_to_json_schema`. Its contract is carried by `SucceedsIffSupported`, `SchemaShape`, `PrimitiveSchemas`, `AnnotatedRules`, `ListSchema`, `DictSchema`, `DictKeyRejected` and `TypedDictSchema`. |
| `TypeSchema.TypeDict` | tool.py:180-185 | `type_dict`. Its contract is carried by `TypeDictEntries`, with `SchemaShape` showing where the description goes. |
| `TypeSchema.SucceedsIffSupported` | tool.py:135-177 | Derivation succeeds exactly on the supported types, defined independently by `Supported`: well-formed `Annotated`, `list[T]`, `dict[str, V]`, TypedDicts of supported fields, and the primitives. Any other type fails. |
| `TypeSchema.SchemaShape` | tool.py:135-185 | Every derived schema is an object whose first entry is `"type"`, holding the schema type of `t`. Its `"description"` is present exactly when an `Annotated` string or an outer description supplies one. |
| `TypeSchema.ContainerShape` | tool.py:144-161 | For list, dict and TypedDict types, the schema starts with its `"type"` entry, and the description is exactly the one passed in. |
| `TypeSchema.PrimitiveSchemas` | tool.py:163-176 | str, int, float, bool, NoneType, bare list and bare dict map to `"string"`, `"integer"`, `"number"`, `"boolean"`, `"null"`, `"array"` and `"object"`. With no description the schema is `{"type": ...}` alone, otherwise that type plus the description. |
| `TypeSchema.AnnotatedRules` | tool.py:138-142 | `Annotated[T, s]` is T's schema with description `s`. Metadata of any length other than one, a non-string metadata, or a non-empty outer description each fail their own assertion. |
| `TypeSchema.NestedAnnotatedRejected` | tool.py:139 | Nesting `Annotated` flattens into two metadata entries, as Python's typing does, so it is rejected. |
| `TypeSchema.MkAnnotated` | tool.py:138-139 | The `Annotated` constructor returns an `Annotated` type whose base is not itself `Annotated`, for any base `typing` can produce (one that is not itself a nested `Annotated`). |
| `TypeSchema.ListSchema` | tool.py:144-146 | `list[T]` succeeds when T does, giving `"type": "array"` and `"items"` equal to T's schema. |
| `TypeSchema.DictSchema` | tool.py:148-153 | `dict[str, V]` succeeds when V does, giving `"type": "object"` and `"additionalProperties"` equal to V's schema. |
| `TypeSchema.DictKeyRejected` | tool.py:150 | `dict[K, V]` with K other than `str` fails the key assertion. |
| `TypeSchema.TypedDictSchema` | tool.py:155-161 | A TypedDict gives `"type": "object"` and one `"properties"` entry per field, in field order, each the schema of its field type. There is no `"required"` entry. |
| `TypeSchema.FieldSchemasEntries` | tool.py:160 | The properties comprehension yields one entry per field from index `i` on, keyed by the field name and holding that field's schema. |
| `TypeSchema.TypeDictEntries` | tool.py:180-185 | `type_dict` puts `"type"` first. When the extra keys do not repeat `"type"` or `"description"`, it has `"description"` exactly when the description is not None. |
| `TypeSchema.UserFields` | tool.py:188-206 | The `User` record's five fields derive to string, integer, string, boolean and null schemas, in order. |
| `TypeSchema.UserRecordExample` | tool.py:196-208 | The file's own test: the `User` TypedDict derives to the expected object, and a bare `dict` to `{"type": "object"}`. |
| `FuncSchema.RequiredParams` | tool.py:104-111 | The loop collects exactly `RequiredNames` of the parameters. |
| `FuncSchema.RequiredNamesMembership` | tool.py:107-111 | A name is required exactly when a parameter of that name has no default and is neither `*args` nor `**kwargs`. |
| `FuncSchema.RequiredNamesAppend` | tool.py:106-111 | The required names of two consecutive parameter runs are those of each run, in order, so signature order is kept. |
| `FuncSchema.PropertiesSucceedIffSupported` | tool.py:124-128 | Building the properties succeeds exactly when every hint other than `"return"` has a supported type. |
| `FuncSchema.PropertiesOfEntries` | tool.py:124-128 | The properties are the non-`"return"` hints in order, each keyed by its name with its type's schema. `"return"` is never a key. |
| `FuncSchema.FuncToSchema` | tool.py:102-132 | The method builds exactly the `Descriptor` of the signature, or fails with the deriver's error. |
| `FuncSchema.DescriptorShape` | tool.py:117-132 | The descriptor has `"type": "function"` and a function object. That object is named `name`, or the function's own name when `name` is absent or empty. It has `"description"` exactly when the docstring is not None, and a parameters object of type `"object"` with the properties and the required names. |
| `FuncSchema.FooRequired` | tool.py:210-228 | For `foo(a, b="blah", *args, c, **kwargs)`, `required` is `["a", "c"]`. |
| `FuncSchema.FooProperties` | tool.py:223-227 | `foo`'s properties are `a`: integer, `b`: string, and `c`: string with description "The c string". The `-> None` return hint does not appear. |
| `FuncSchema.FooExample` | tool.py:210-231 | The file's own test: `func_to_schema(foo)` equals the expected descriptor. |
| `Tools.Tool` | tool.py:93-99 | `tool(func, name=...)`. Its contract is carried by `ToolNaming`. |
| `Tools.ToolNaming` | tool.py:93-99 | Wrapping succeeds exactly when the descriptor can be derived. The tool's name is the given name when non-empty, else the function's. Its schema is the descriptor, whose function name equals the tool's name. |
| `Tools.ToolInvoke` | tool.py:59-78 | The message always carries the call's id, role `"tool"` and the call's name. |
| `Tools.Attempt` | tool.py:64-66 | The `try` body of `toolinvoke`. Its contract is carried by `ToolInvokeOutcome`: parse, then the mapping check, then the callable check, then the call. |
| `Tools.ToolInvokeOutcome` | tool.py:64-71 | Each outcome has its own content. An arguments parse error, non-object arguments, a callee of None, and an exception from the function each become an error object with that message. Otherwise the content is the function's result. Any failure gives `success: false` and the error string. |
| `Tools.ErrorContentIsFailure` | tool.py:69-71 | The error object has `success: false` and carries the exception's message. |
| `Tools.NewToolbox` | tool.py:27-34 | Construction fails with the TypeError text exactly when some argument is not a wrapped tool. Otherwise `tools` is the name map, and `schema` lists each tool's schema in argument order. |
| `Tools.ToolMapKeys` | tool.py:33 | The registry's keys are exactly the tools' names. |
| `Tools.ToolMapLastWins` | tool.py:33 | Each name maps to the last tool given under it. |
| `Tools.UnknownNameAsWritten` | tool.py:39-46 | As written, an unknown name still yields a well-formed `success: false` tool message. When the arguments parse to an object, its error is that None is not callable. |
| `Tools.DispatchAsWritten` | tool.py:36-46 | `Toolbox.__call__` as written. Its contract is carried by `UnknownNameAsWritten`, `UnknownNameMessageLost` and `KnownNameDispatch`. |
| `Tools.Dispatch` | tool.py:36-46 | `Toolbox.__call__` as evidently intended, with an awaitable unknown-tool function. Its contract is carried by `UnknownNameReported` and `KnownNameDispatch`. |
| `Tools.UnknownNameMessageLost` | tool.py:41-46 | Calling `foo` with arguments `"{}"` on an empty Toolbox reports "'NoneType' object is not callable", not "Unknown tool: foo". |
| `Tools.UnknownNameReported` | tool.py:41-45 | With the unknown-tool result returned, the message is `success: false` for every input. When the arguments parse to an object, the content is `{"success": false, "error": "Unknown tool: <name>"}`. |
| `Tools.KnownNameDispatch` | tool.py:39-46 | A registered name is invoked through its own tool, the same in both versions. The content is the tool's result, or a failure object when anything raised. |
| `JsonValues.FailurePayloadIsFailure` | query.py:55 | `{"success": False, "error": msg}` is a failure object carrying `msg`. |
| `Query.SafeTool` | query.py:48-57 | `safe_tool`'s wrapper. Its contract is carried by `SafeToolOutcome`. |
| `Query.UpdateDashboard` | query.py:70-83 | `update_dashboard`. Its contract is carried by `UpdateDashboardEffects`. |
| `Query.ResetDashboard` | query.py:85-88 | `reset_dashboard`. Its contract is carried by `ResetDashboardEffects`. |
| `Query.QueryTool` | query.py:90-96 | `query`. Its contract is carried by `QueryToolEffects`. |
| `Query.SafeToolOutcome` | query.py:48-57 | `safe_tool` never propagates. The caller gets the body's value on success, and otherwise `success: false` with the exception's message. |
| `Query.UpdateDashboardEffects` | query.py:70-83 | `query_db` always runs first. The sink is called once, with the same query and title, exactly when the query succeeded. The tool succeeds exactly when both succeed. A query failure is the tool's failure. |
| `Query.ResetDashboardEffects` | query.py:85-88 | The sink is called exactly once, with `("", "")`. The tool succeeds exactly when the sink does. |
| `Query.QueryToolEffects` | query.py:90-96 | Progress "Querying database..." is reported before the query runs. The rows are returned unchanged, and a query failure is the tool's failure. |
| `Query.ErrorText` | query.py:135 | Every error message starts with `**Error**: `. |
| `Query.InvokeTool` | query.py:123 | `tools_by_name[tool_call["name"]].ainvoke(tool_call)`. Its contract is carried by `InvokeToolFailure` and `ToolsGuarded`. |
| `Query.InvokeToolFailure` | query.py:98-99 | Looking a tool up by name and invoking it raises only for a name outside the three tools (KeyError) or for arguments that do not bind. An exception inside a tool body never raises. `reset_dashboard` always succeeds. |
| `Query.ToolsGuarded` | query.py:70-96 | Any run of the three bound tools makes every dashboard update other than the reset to `("", "")` right after `query_db` accepted that same query. This includes `update_dashboard` with an empty query. |
| `Query.DispatchAllResults` | query.py:119-124 | Tool calls are answered one for one, in call order, up to the first call that raises. With no such call, every call gets exactly one result. |
| `Query.Conversation.RunCalls` | query.py:121-124 | The tool-call loop appends exactly `DispatchAll`'s results and effects, and returns its error. |
| `Query.YieldsFaithful` | query.py:109-111 | Exactly the chunks with non-empty content are yielded, each once, in stream order. The yielded text is the whole text of the reply. |
| `Query.Conversation.Stream` | query.py:106-117 | The streaming loop yields `Yields(stream)` and returns None for an empty stream, else the merge of all the chunks. It leaves the history unchanged. |
| `Query.Conversation.RunRound` | query.py:104-136 | One round appends exactly what `OneRound` specifies to the history and the trace, and reports whether the loop stops and how. |
| `Query.Conversation.RunRounds` | query.py:104-136 | The `while True` loop appends exactly `Rounds`' messages and events and ends with its status. |
| `Query.Conversation.PerformQuery` | query.py:60-136 | The user's message is appended once, before the first round, followed by exactly what `Rounds` specifies for the three tools bound to `query_db` and the sink. |
| `Query.Conversation.constructor` | query.py:60-61 | The conversation starts from the caller's history with an empty trace. |
| `Query.EveryTurnIsChain` | query.py:104-136 | Whatever the turn's status, its messages form a `Chain`: each reply but the last is followed by exactly one result per tool call, in call order. The last round is a reply without calls, an empty stream's `None` and its error message, or a reply whose calls are answered up to the one that raised, then the error message. With `ErrorIsLast`, this means an `Exhausted` turn answers every call of every round. |
| `Query.CompletedIsAnswered` | query.py:117-126 | A completed turn is a chain of replies. Each reply with tool calls is followed by one result per call, in call order; the last reply has no tool calls. |
| `Query.OneRoundShape` | query.py:117-136 | A round appends at least one message. All but the last are replies or tool results, and the last is an error message exactly when the round fails. |
| `Query.OneRoundMessages` | query.py:117-136 | One round appends no user or system messages. An error message appears only as the last message of a failing round, with the `**Error**: ` prefix. |
| `Query.ErrorIsLast` | query.py:132-136 | A failed turn ends with exactly one `**Error**: ` message, which is its last. No other turn contains one. |
| `Query.NoHumanMessages` | query.py:102-136 | After the user's message, the turn appends no user or system messages, only replies, tool results and error messages. |
| `Query.RoundsGuarded` | query.py:80-83 | Over a whole turn, every dashboard update other than the reset to `("", "")` comes right after `query_db` accepted that same query. So the dashboard is never updated with a query that `query_db` rejected. |
| `Query.ResetTurnExample` | query.py:85-126 | A turn that resets the dashboard and then answers "Done." appends the reply, the tool result `null`, and the answer. Its trace is two progress reports, one reset and one yielded chunk. |
| `Query.UnknownToolExample` | query.py:119-136 | A call to an unknown tool `drop_table` ends the turn with the message `**Error**: 'drop_table'`. |
| `Query.DropTableDispatch` | query.py:123 | Dispatching `drop_table` raises the KeyError before any result is appended. |
| `DfSchema.DfToSchema` | query.py:140-168 | The method's text is `SchemaLines` joined by newlines. |
| `DfSchema.SchemaHeader` | query.py:141-143 | The first two lines are `Table: <name>` and `Columns:`. |
| `DfSchema.ColumnBlockAt` | query.py:145-166 | Column `i`'s lines come right after those of the columns before it. They are its `- name (TYPE)` line, then a categorical line exactly when the column is TEXT with at most `threshold` distinct values. That line lists the quoted unique values joined by `", "`. |
| `DfSchema.AllColumnLinesPrefix` | query.py:145 | Adding columns only appends lines, so blocks appear in column order. |
| `DfSchema.AllColumnLinesLength` | query.py:145-166 | Each column contributes one or two lines. |
| `DfSchema.SqlType` | query.py:147-156 | The type is INTEGER, FLOAT, BOOLEAN or DATETIME for the first dtype predicate that holds, in that order, and TEXT when none does. Each direction is stated. |
| `DfSchema.SqlTypeNoNewline` | query.py:147-156 | No type name contains a newline. |
| `DfSchema.DistinctProperties` | query.py:164 | `unique()` lists every value of the column, each exactly once, in order of first appearance. |
| `DfSchema.FirstIndex` | query.py:164 | The first position of a value holds it, and no earlier position does. |
| `DfSchema.DistinctCount` | query.py:162-164 | `unique()` has as many entries as the column has distinct cells. |
| `DfSchema.DistinctMatchesNUnique` | query.py:162-164 | With no missing values, `unique()` lists exactly `nunique()` values. |
| `DfSchema.Quoted` | query.py:165 | Each category is rendered as `'<value>'`, one per value, in order. |
| `DfSchema.ColumnLinesNoNewline` | query.py:158-166 | A column whose name and values contain no newline renders lines without newlines. |
| `DfSchema.AllColumnLinesNoNewline` | query.py:145-166 | The same holds for all columns together. |
| `DfSchema.JoinNoNewline` | query.py:165 | Joining newline-free parts with a newline-free separator gives a newline-free string. |
| `DfSchema.SchemaTextSplits` | query.py:168 | When no name or value contains a newline, splitting the text on newlines recovers exactly the lines built. |
| `Prompt.SystemPrompt` | query.py:39-45 | The system message is the template with the placeholder replaced by `df_to_schema`'s text. |
| `Prompt.Render` | query.py:44 | `.replace("${SCHEMA}", schema)`. Its contract is carried by `RenderReplacesEvery`. |
| `Prompt.RenderReplacesEvery` | query.py:44 | Rendering cuts the template at every `${SCHEMA}` and joins the pieces with the schema text, so no kept piece contains the placeholder. A template without the placeholder is unchanged, and substituting the placeholder for itself is the identity. |
| `Strings.ReplaceAllIsJoinOfSplit` | query.py:44 | `str.replace` equals splitting on the pattern and joining with the replacement. |
| `Strings.SplitPiecesAreFree` | query.py:44 | No piece of a split contains the pattern. |
| `Strings.JoinSplitRoundTrip` | query.py:44 | Joining a split with its own pattern gives back the string. |
| `Strings.ReplaceAbsent` | query.py:44 | Replacing an absent pattern changes nothing. |
| `Strings.SplitJoinRoundTrip` | query.py:168 | Splitting on a character that no part contains undoes joining on it. |

## Left out

- `json.dumps` and `json.loads`: a tool message's content is the JSON value that would be serialised. Parsing is a `JsonLoads` oracle, and floating-point numbers are not part of the JSON type.
- Traceback text and every `print`, `traceback.print_exc()` and stderr line: the traceback is an opaque string parameter.
- CPython's and pydantic's exact exception wording: for `**kwargs` of a non-mapping it is abbreviated to a constant. LangChain's validation error is `validation error for <tool>`, and the KeyError text is the quoted name.
- `DfSchema.DfToSchema`: column names are taken to be distinct. Pandas' `read_csv`, through which shared.py loads the data, renames duplicate headers. For a frame with two TEXT columns sharing a name, the source raises `ValueError` at query.py:163: `df[column]` is then a frame, and the truth value of the `nunique()` series it gives is ambiguous. The model renders one block per column instead.
- `Query.InvokeTool`: LangChain's argument binding is modelled as "each declared argument is present as a string". LangChain's coercions and extra-key handling are not modelled.
- LangChain's chunk `+=` merge: a `Merge` parameter, since the merge belongs to the library, not to this code.
- `llm.bind_tools`, the model's prompt handling and network transport: the model's replies are the supplied rounds. A finite supply of rounds that runs out ends as `Exhausted`, which has no counterpart in the unbounded `while True`.
- async/await and generator suspension: the loop runs sequentially, and yields are recorded in the trace.
- `inspect.signature`, `get_type_hints`, `get_origin`/`get_args`, `is_typeddict` and pandas' dtype predicates: their answers are given as datatypes (`Signature`, `PyType`, `DType`).
- `DfSchema.NUnique` and `DfSchema.Distinct`: `nunique()` and `unique()` are computed on each cell's `str()` rendering, not on pandas values. Pandas compares values, so `1`, `1.0` and `True` count as one, and `1` and `"1"` count as two. Only TEXT columns reach these calls, and for the string columns a CSV load produces, comparing renderings and comparing values agree. `nunique()` ignores missing values and `unique()` keeps them; that difference is kept.
- Reading `prompt.md` from disk: the template is a parameter of `Prompt.SystemPrompt`.
- The module-level model selection and `.env` check in query.py (lines 16-20) are environment setup.
- `WrappedTool.__call__` (tool.py:55-56) only forwards to the function, so a tool's function is called directly.
- The overloads and the decorator form `tool(name=...)` (tool.py:81-97) return a wrapper that calls the same `tool`, so only the direct form is modelled.
- app.py, explain_plot.py, models.py and shared.py are not part of this model. They are UI, image rendering, vendor-client construction and CSV/DuckDB loading.

## Findings

| source | as written | input that shows it | evidently intended | confidence | as-written member | corrected member |
|---|---|---|---|---|---|---|
| tool.py:41-46 | For an unknown name, the first `toolinvoke` gets a synchronous lambda. Awaiting the dict it returns raises `TypeError` (a dict is not awaitable), so that first result is an error object, or a parse or mapping error, never the "Unknown tool" reply. It is discarded anyway. Then `toolinvoke(None, ...)` runs, so the reply reports "'NoneType' object is not callable". | `Toolbox()` called with a tool call named `foo` and arguments `"{}"` | invoke an awaitable unknown-tool function (an `async def` in place of the lambda) and return that result, whose content is `{"success": false, "error": "Unknown tool: foo"}`; this needs both changes | high, not executed | `Tools.UnknownNameMessageLost` | `Tools.UnknownNameReported` |
