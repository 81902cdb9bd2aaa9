/** `safe_tool`, the three dashboard tools and the `perform_query` chat loop
    of query.py. The model's replies, the query executor and the dashboard
    sink are supplied from outside; what the loop does with them is recorded
    as an append-only message history and a trace of observable effects. */
module Query {
  import opened Wrappers
  import opened JsonValues

  /** `query_db(query)`: the result rows as JSON text, or the message of the
      exception the executor raised (a rejected or failing query). */
  type QueryDb = string -> Result<string, string>

  /** `on_update_dashboard(query, title)`: `None` when it returns, or the
      message of the exception it raised. */
  type Sink = (string, string) -> Option<string>

  /** A tool call as the chat model emits it: arguments are already parsed. */
  datatype LcToolCall = LcToolCall(id: string, name: string, args: seq<(string, Json)>)

  /** A reply message (or a streamed chunk of one): text content and tool calls. */
  datatype Response = Response(content: string, toolCalls: seq<LcToolCall>)

  /** `chunk + chunk` on streamed reply chunks. */
  type Merge = (Response, Response) -> Response

  datatype Message =
    | SystemMsg(text: string)
    | Human(text: string)
    | Ai(response: Response)
    | NoResponse                      // the `None` appended after an empty stream
    | ToolResult(callId: string, toolName: string, content: Json)
    | AiError(text: string)

  /** What the surrounding application observes, in order. */
  datatype Event =
    | Progress(text: string)          // a `progress_callback` call
    | Yielded(chunk: Response)        // a chunk yielded to the caller
    | QueriedDb(query: string)        // a `query_db` call
    | UpdatedDashboard(query: string, title: string) // an `on_update_dashboard` call

  /** The effects of running a tool body and the value it returns or the
      message of the exception it raises. */
  datatype Run = Run(events: seq<Event>, result: Result<Json, string>)

  /** `safe_tool`'s wrapper: the body's value, or a failure object for its exception. */
  function SafeTool(result: Result<Json, string>): Json {
    match result
    case Success(v) => v
    case Failure(e) => FailurePayload(e)
  }

  /** `safe_tool` never propagates: the caller sees the body's value on
      success, and an object with `success: false` and the exception's
      message otherwise. */
  lemma SafeToolOutcome(result: Result<Json, string>)
    ensures result.Success? ==> SafeTool(result) == result.value
    ensures result.Failure? ==>
      && IsFailurePayload(SafeTool(result))
      && Get(SafeTool(result), "error") == Some(JString(result.error))
  {
    if result.Failure? {
      FailurePayloadIsFailure(result.error);
    }
  }

  /** `update_dashboard`: validates the query by running it, and only then updates the dashboard. */
  function UpdateDashboard(query: string, title: string, db: QueryDb, sink: Sink): Run {
    match db(query)
    case Failure(e) => Run([QueriedDb(query)], Failure(e))
    case Success(_) =>
      var events := [QueriedDb(query), UpdatedDashboard(query, title)];
      match sink(query, title)
      case None => Run(events, Success(JNull))
      case Some(e) => Run(events, Failure(e))
  }

  /** `reset_dashboard`: clears query and title. */
  function ResetDashboard(sink: Sink): Run {
    match sink("", "")
    case None => Run([UpdatedDashboard("", "")], Success(JNull))
    case Some(e) => Run([UpdatedDashboard("", "")], Failure(e))
  }

  /** `query`: reports progress, then returns the executor's rows. */
  function QueryTool(query: string, db: QueryDb): Run {
    var events := [Progress("Querying database..."), QueriedDb(query)];
    match db(query)
    case Success(rows) => Run(events, Success(JString(rows)))
    case Failure(e) => Run(events, Failure(e))
  }

  /** The executor always runs first; the dashboard is updated, once and
      with the same query and title, exactly when the query succeeded; a
      failure of either is the tool's failure. */
  lemma UpdateDashboardEffects(query: string, title: string, db: QueryDb, sink: Sink)
    ensures var r := UpdateDashboard(query, title, db, sink);
      && |r.events| >= 1 && r.events[0] == QueriedDb(query)
      && (db(query).Failure? <==> r.events == [QueriedDb(query)])
      && (db(query).Success? <==> r.events == [QueriedDb(query), UpdatedDashboard(query, title)])
      && (r.result.Success? <==> db(query).Success? && sink(query, title).None?)
      && (db(query).Failure? ==> r.result == Failure(db(query).error))
  {
  }

  /** The sink is called exactly once, with an empty query and title. */
  lemma ResetDashboardEffects(sink: Sink)
    ensures ResetDashboard(sink).events == [UpdatedDashboard("", "")]
    ensures ResetDashboard(sink).result.Success? <==> sink("", "").None?
  {
  }

  /** Progress is reported before the query runs, and the rows are returned as they are. */
  lemma QueryToolEffects(query: string, db: QueryDb)
    ensures QueryTool(query, db).events == [Progress("Querying database..."), QueriedDb(query)]
    ensures db(query).Success? ==> QueryTool(query, db).result == Success(JString(db(query).value))
    ensures db(query).Failure? ==> QueryTool(query, db).result == Failure(db(query).error)
  {
  }

  /** What a bound tool hands back: its effects and its message content. */
  datatype Answer = Answer(events: seq<Event>, content: Json)

  /** Why a round's tool dispatch raised out of the `try`. */
  datatype LoopError =
    | UnknownTool(name: string)       // `tools_by_name[...]` raised KeyError
    | InvalidArgs(tool: string)       // the arguments do not match the tool's signature
    | NoneResponse                    // the stream was empty, so `response` is None

  const ErrorPrefix := "**Error**: "

  /** `f"**Error**: {e}"`. */
  function ErrorText(e: LoopError): (t: string)
    ensures ErrorPrefix <= t
  {
    ErrorPrefix + match e
      case UnknownTool(n) => "'" + n + "'"
      case InvalidArgs(n) => "validation error for " + n
      case NoneResponse => "'NoneType' object has no attribute 'tool_calls'"
  }

  /** A required string argument of a tool. */
  function StringArg(args: seq<(string, Json)>, key: string, tool: string): Result<string, LoopError> {
    match Lookup(args, key)
    case Some(JString(s)) => Success(s)
    case _ => Failure(InvalidArgs(tool))
  }

  const ToolNames := ["update_dashboard", "reset_dashboard", "query"]

  /** `await tools_by_name[tool_call["name"]].ainvoke(tool_call)`: look the tool
      up, bind its arguments, and run its `safe_tool`-wrapped body. */
  function InvokeTool(call: LcToolCall, db: QueryDb, sink: Sink): Result<Answer, LoopError> {
    if call.name == "update_dashboard" then
      var query :- StringArg(call.args, "query", call.name);
      var title :- StringArg(call.args, "title", call.name);
      var r := UpdateDashboard(query, title, db, sink);
      Success(Answer(r.events, SafeTool(r.result)))
    else if call.name == "reset_dashboard" then
      var r := ResetDashboard(sink);
      Success(Answer(r.events, SafeTool(r.result)))
    else if call.name == "query" then
      var query :- StringArg(call.args, "query", call.name);
      var r := QueryTool(query, db);
      Success(Answer(r.events, SafeTool(r.result)))
    else Failure(UnknownTool(call.name))
  }

  /** The tools as `perform_query` binds them, looked up by the call's name. */
  type Invoker = LcToolCall -> Result<Answer, LoopError>

  function Tools(db: QueryDb, sink: Sink): Invoker {
    call => InvokeTool(call, db, sink)
  }

  /** Only a name outside the three tools or arguments that do not match raise;
      an exception inside a tool body never does. */
  lemma InvokeToolFailure(call: LcToolCall, db: QueryDb, sink: Sink)
    ensures InvokeTool(call, db, sink).Failure? ==>
      || (call.name !in ToolNames && InvokeTool(call, db, sink).error == UnknownTool(call.name))
      || (call.name in ToolNames && InvokeTool(call, db, sink).error == InvalidArgs(call.name))
    ensures call.name !in ToolNames ==> InvokeTool(call, db, sink) == Failure(UnknownTool(call.name))
    ensures call.name == "reset_dashboard" ==> InvokeTool(call, db, sink).Success?
  {
  }

  /** The tool messages and effects of a round's calls, and the error that ended it, if any. */
  datatype Dispatched = Dispatched(messages: seq<Message>, events: seq<Event>, error: Option<LoopError>)

  /** The inner `for tool_call in response.tool_calls` loop. */
  function DispatchAll(calls: seq<LcToolCall>, tools: Invoker): Dispatched
    decreases |calls|
  {
    if calls == [] then Dispatched([], [], None)
    else match tools(calls[0])
      case Failure(e) => Dispatched([], [], Some(e))
      case Success(r) =>
        var rest := DispatchAll(calls[1..], tools);
        Dispatched([ToolResult(calls[0].id, calls[0].name, r.content)] + rest.messages, r.events + rest.events, rest.error)
  }

  /** `ms` answers `calls` one for one, in order. */
  predicate ResultsFor(ms: seq<Message>, calls: seq<LcToolCall>) {
    && |ms| == |calls|
    && forall k :: 0 <= k < |ms| ==> ms[k].ToolResult? && ms[k].callId == calls[k].id && ms[k].toolName == calls[k].name
  }

  /** The calls are answered in order up to the first one that raises; with
      no such call every call is answered exactly once. */
  lemma {:induction false} DispatchAllResults(calls: seq<LcToolCall>, tools: Invoker)
    ensures var d := DispatchAll(calls, tools);
      && |d.messages| <= |calls|
      && ResultsFor(d.messages, calls[..|d.messages|])
      && (d.error.None? ==> |d.messages| == |calls|)
      && (d.error.Some? ==>
            |d.messages| < |calls| && tools(calls[|d.messages|]) == Failure(d.error.value))
    decreases |calls|
  {
    if calls != [] && tools(calls[0]).Success? {
      DispatchAllResults(calls[1..], tools);
      var d := DispatchAll(calls, tools);
      var rest := DispatchAll(calls[1..], tools);
      assert calls[1..][..|rest.messages|] == calls[1..|d.messages|];
      if rest.error.Some? {
        assert calls[1..][|rest.messages|] == calls[|d.messages|];
      }
    }
  }

  /** One step of the dispatch loop at position `j`. */
  lemma DispatchSuffix(calls: seq<LcToolCall>, j: nat, tools: Invoker)
    requires j < |calls|
    ensures var r := tools(calls[j]);
      var here := DispatchAll(calls[j..], tools);
      var rest := DispatchAll(calls[j + 1..], tools);
      && (r.Failure? ==> here == Dispatched([], [], Some(r.error)))
      && (r.Success? ==>
            && here.messages == [ToolResult(calls[j].id, calls[j].name, r.value.content)] + rest.messages
            && here.events == r.value.events + rest.events
            && here.error == rest.error)
  {
    assert calls[j..][0] == calls[j] && calls[j..][1..] == calls[j + 1..];
  }

  /** `chunk` followed by `response += chunk` over the stream. */
  function Merged(stream: seq<Response>, merge: Merge): Response
    requires stream != []
    decreases |stream|
  {
    if |stream| == 1 then stream[0] else merge(Merged(stream[..|stream| - 1], merge), stream[|stream| - 1])
  }

  /** The chunks yielded to the caller: those with content. */
  function Yields(stream: seq<Response>): seq<Event>
    decreases |stream|
  {
    if stream == [] then []
    else Yields(stream[..|stream| - 1]) + if stream[|stream| - 1].content != "" then [Yielded(stream[|stream| - 1])] else []
  }

  /** The concatenated text of a stream. */
  function Text(stream: seq<Response>): string
    decreases |stream|
  {
    if stream == [] then "" else Text(stream[..|stream| - 1]) + stream[|stream| - 1].content
  }

  /** The concatenated text of the yielded chunks in a trace. */
  function YieldedText(events: seq<Event>): string
    decreases |events|
  {
    if events == [] then ""
    else YieldedText(events[..|events| - 1]) + if events[|events| - 1].Yielded? then events[|events| - 1].chunk.content else ""
  }

  lemma {:induction false} YieldedTextAppend(a: seq<Event>, b: seq<Event>)
    ensures YieldedText(a + b) == YieldedText(a) + YieldedText(b)
    decreases |b|
  {
    if b == [] {
      assert a + b == a;
    } else {
      assert (a + b)[..|a + b| - 1] == a + b[..|b| - 1];
      YieldedTextAppend(a, b[..|b| - 1]);
    }
  }

  /** Exactly the chunks with content are yielded, each once, in stream order,
      so the caller receives the whole text of the reply. */
  lemma {:induction false} YieldsFaithful(stream: seq<Response>)
    ensures forall e :: e in Yields(stream) ==> e.Yielded? && e.chunk.content != ""
    ensures forall c :: Yielded(c) in Yields(stream) <==> c in stream && c.content != ""
    ensures YieldedText(Yields(stream)) == Text(stream)
    decreases |stream|
  {
    if stream != [] {
      var init := stream[..|stream| - 1];
      var last := stream[|stream| - 1];
      YieldsFaithful(init);
      assert stream == init + [last];
      var tail := if last.content != "" then [Yielded(last)] else [];
      YieldedTextAppend(Yields(init), tail);
      assert YieldedText(tail) == last.content by {
        if last.content != "" {
          assert tail[..0] == [];
        }
      }
    }
  }

  datatype Status = Completed | Failed | Exhausted

  /** What a sequence of rounds appends to the history and to the trace, and how it ends. */
  datatype Transcript = Transcript(messages: seq<Message>, events: seq<Event>, status: Status)

  /** The effects at the start of a round: the progress note, then the yielded chunks. */
  function RoundStart(stream: seq<Response>): seq<Event> {
    [Progress("Thinking...")] + Yields(stream)
  }

  /** What one round appends to the history and the trace, and the status
      the loop ends with if it stops in this round. */
  datatype Step = Step(messages: seq<Message>, events: seq<Event>, stop: Option<Status>)

  /** One iteration of the `while True` loop on one streamed reply. */
  function OneRound(stream: seq<Response>, merge: Merge, tools: Invoker): Step {
    var start := RoundStart(stream);
    if stream == [] then Step([NoResponse, AiError(ErrorText(NoneResponse))], start, Some(Failed))
    else
      var response := Merged(stream, merge);
      if response.toolCalls == [] then Step([Ai(response)], start, Some(Completed))
      else
        var d := DispatchAll(response.toolCalls, tools);
        if d.error.Some? then
          Step([Ai(response)] + d.messages + [AiError(ErrorText(d.error.value))], start + d.events, Some(Failed))
        else Step([Ai(response)] + d.messages, start + d.events, None)
  }

  /** The `while True` loop from round `i` on, one streamed reply per round.
      The replies are a finite supply; running out of them ends the model's
      loop as `Exhausted`. */
  function Rounds(rounds: seq<seq<Response>>, i: nat, merge: Merge, tools: Invoker): Transcript
    requires i <= |rounds|
    decreases |rounds| - i
  {
    if i == |rounds| then Transcript([], [], Exhausted)
    else
      var step := OneRound(rounds[i], merge, tools);
      if step.stop.Some? then Transcript(step.messages, step.events, step.stop.value)
      else
        var rest := Rounds(rounds, i + 1, merge, tools);
        Transcript(step.messages + rest.messages, step.events + rest.events, rest.status)
  }

  /** The loop's accounting at round `i`: what is appended so far plus what
      the remaining rounds append stays the same. */
  lemma RoundsStep(m: seq<Message>, t: seq<Event>, rounds: seq<seq<Response>>, i: nat, merge: Merge, tools: Invoker)
    requires i < |rounds|
    ensures var step := OneRound(rounds[i], merge, tools);
      var here := Rounds(rounds, i, merge, tools);
      var rest := Rounds(rounds, i + 1, merge, tools);
      && (step.stop.Some? ==>
            m + here.messages == m + step.messages && t + here.events == t + step.events && here.status == step.stop.value)
      && (step.stop.None? ==>
            && m + here.messages == (m + step.messages) + rest.messages
            && t + here.events == (t + step.events) + rest.events
            && here.status == rest.status)
  {
    var step := OneRound(rounds[i], merge, tools);
    var rest := Rounds(rounds, i + 1, merge, tools);
    assert m + (step.messages + rest.messages) == (m + step.messages) + rest.messages;
    assert t + (step.events + rest.events) == (t + step.events) + rest.events;
  }

  /** The accounting of one round as `RunRound` appends to `m` and `t`. */
  lemma OneRoundSteps(m: seq<Message>, t: seq<Event>, stream: seq<Response>, merge: Merge, tools: Invoker)
    ensures var step := OneRound(stream, merge, tools);
      var t1 := (t + [Progress("Thinking...")]) + Yields(stream);
      && (stream == [] ==>
            && (m + [NoResponse]) + [AiError(ErrorText(NoneResponse))] == m + step.messages
            && t1 == t + step.events && step.stop == Some(Failed))
      && (stream != [] && |Merged(stream, merge).toolCalls| == 0 ==>
            && m + [Ai(Merged(stream, merge))] == m + step.messages
            && t1 == t + step.events && step.stop == Some(Completed))
      && (stream != [] && |Merged(stream, merge).toolCalls| != 0 ==>
            var d := DispatchAll(Merged(stream, merge).toolCalls, tools);
            && (d.error.Some? ==>
                  && ((m + [Ai(Merged(stream, merge))]) + d.messages) + [AiError(ErrorText(d.error.value))] == m + step.messages
                  && t1 + d.events == t + step.events && step.stop == Some(Failed))
            && (d.error.None? ==>
                  && (m + [Ai(Merged(stream, merge))]) + d.messages == m + step.messages
                  && t1 + d.events == t + step.events && step.stop.None?))
  {
    var start := RoundStart(stream);
    assert (t + [Progress("Thinking...")]) + Yields(stream) == t + start;
    if stream != [] {
      var response := Merged(stream, merge);
      var d := DispatchAll(response.toolCalls, tools);
      assert (m + [Ai(response)]) + d.messages == m + ([Ai(response)] + d.messages);
      assert (t + start) + d.events == t + (start + d.events);
      if d.error.Some? {
        assert ((m + [Ai(response)]) + d.messages) + [AiError(ErrorText(d.error.value))]
            == m + ([Ai(response)] + d.messages + [AiError(ErrorText(d.error.value))]);
      }
    }
  }

  /** The history after a finished turn: every reply is followed by one result
      per tool call, in call order, and the last reply asks for no tools. */
  predicate Answered(ms: seq<Message>)
    decreases |ms|
  {
    && |ms| >= 1 && ms[0].Ai?
    && var calls := ms[0].response.toolCalls;
       if calls == [] then |ms| == 1
       else 1 + |calls| < |ms| && ResultsFor(ms[1..1 + |calls|], calls) && Answered(ms[1 + |calls|..])
  }

  /** The history any turn leaves behind, whatever its status: a chain of
      rounds, each a reply followed by exactly one result per tool call, in
      call order. Only the last round may differ: a reply without tool calls,
      an empty stream's `None` and its error message, or a reply whose calls
      are answered up to the one that raised, then the error message. */
  predicate Chain(ms: seq<Message>)
    decreases |ms|
  {
    if ms == [] then true
    else if ms[0].NoResponse? then |ms| == 2 && ms[1].AiError?
    else if !ms[0].Ai? then false
    else
      var calls := ms[0].response.toolCalls;
      if calls == [] then |ms| == 1
      else if 2 <= |ms| <= 1 + |calls| && ms[|ms| - 1].AiError? then
        ResultsFor(ms[1..|ms| - 1], calls[..|ms| - 2])
      else 1 + |calls| <= |ms| && ResultsFor(ms[1..1 + |calls|], calls) && Chain(ms[1 + |calls|..])
  }

  /** Every turn, completed, failed or out of replies, leaves a chain behind:
      each reply but the last is followed by exactly its tool results. */
  lemma {:induction false} EveryTurnIsChain(rounds: seq<seq<Response>>, i: nat, merge: Merge, tools: Invoker)
    requires i <= |rounds|
    ensures Chain(Rounds(rounds, i, merge, tools).messages)
    decreases |rounds| - i
  {
    if i < |rounds| && rounds[i] != [] {
      var response := Merged(rounds[i], merge);
      var calls := response.toolCalls;
      if calls != [] {
        var d := DispatchAll(calls, tools);
        DispatchAllResults(calls, tools);
        if d.error.Some? {
          var ms := [Ai(response)] + d.messages + [AiError(ErrorText(d.error.value))];
          assert ms[1..|ms| - 1] == d.messages;
        } else {
          var rest := Rounds(rounds, i + 1, merge, tools);
          EveryTurnIsChain(rounds, i + 1, merge, tools);
          assert calls[..|d.messages|] == calls;
          var ms := [Ai(response)] + d.messages + rest.messages;
          assert ms[1..1 + |calls|] == d.messages;
          assert ms[1 + |calls|..] == rest.messages;
          if rest.messages == [] {
            assert ms[|ms| - 1] == d.messages[|calls| - 1];
          }
        }
      }
    }
  }

  /** A turn that completes leaves a well-formed exchange behind. */
  lemma {:induction false} CompletedIsAnswered(rounds: seq<seq<Response>>, i: nat, merge: Merge, tools: Invoker)
    requires i <= |rounds| && Rounds(rounds, i, merge, tools).status == Completed
    ensures Answered(Rounds(rounds, i, merge, tools).messages)
    decreases |rounds| - i
  {
    var stream := rounds[i];
    var response := Merged(stream, merge);
    if response.toolCalls != [] {
      var calls := response.toolCalls;
      var d := DispatchAll(calls, tools);
      var rest := Rounds(rounds, i + 1, merge, tools);
      CompletedIsAnswered(rounds, i + 1, merge, tools);
      DispatchAllResults(calls, tools);
      assert calls[..|d.messages|] == calls;
      var ms := [Ai(response)] + d.messages + rest.messages;
      assert ms[1..1 + |calls|] == d.messages;
      assert ms[1 + |calls|..] == rest.messages;
    }
  }

  /** The messages one round appends: the reply and its tool results, then
      an error message when the round fails. */
  lemma OneRoundShape(stream: seq<Response>, merge: Merge, tools: Invoker)
    ensures var step := OneRound(stream, merge, tools);
      && |step.messages| >= 1
      && (forall k :: 0 <= k < |step.messages| - 1 ==>
            step.messages[k].Ai? || step.messages[k].ToolResult? || step.messages[k].NoResponse?)
      && (step.stop == Some(Failed) <==> step.messages[|step.messages| - 1].AiError?)
      && (step.stop == Some(Failed) ==> ErrorPrefix <= step.messages[|step.messages| - 1].text)
      && (step.stop != Some(Failed) ==> step.messages[|step.messages| - 1].Ai? || step.messages[|step.messages| - 1].ToolResult?)
  {
    if stream != [] {
      var response := Merged(stream, merge);
      if response.toolCalls != [] {
        var d := DispatchAll(response.toolCalls, tools);
        DispatchAllResults(response.toolCalls, tools);
        var body := [Ai(response)] + d.messages;
        forall k | 0 <= k < |body|
          ensures body[k].Ai? || body[k].ToolResult?
        {
          if k > 0 { assert body[k] == d.messages[k - 1]; }
        }
        if d.error.Some? {
          var ms := body + [AiError(ErrorText(d.error.value))];
          forall k | 0 <= k < |ms| - 1
            ensures ms[k] == body[k]
          {
          }
        }
      }
    }
  }

  /** Within one round: only the loop's own message kinds appear, and an
      error message appears only as the last message of a round that fails. */
  lemma OneRoundMessages(stream: seq<Response>, merge: Merge, tools: Invoker)
    ensures var step := OneRound(stream, merge, tools);
      && (forall k :: 0 <= k < |step.messages| ==> !step.messages[k].Human? && !step.messages[k].SystemMsg?)
      && (forall k :: 0 <= k < |step.messages| && step.messages[k].AiError? ==>
            step.stop == Some(Failed) && k == |step.messages| - 1)
      && (step.stop == Some(Failed) ==>
            && |step.messages| >= 1 && step.messages[|step.messages| - 1].AiError?
            && ErrorPrefix <= step.messages[|step.messages| - 1].text)
  {
    OneRoundShape(stream, merge, tools);
  }

  /** An error message appears only in a failed turn, where it is the last
      message, the only one of its kind, and carries the `**Error**: ` prefix. */
  lemma {:induction false} ErrorIsLast(rounds: seq<seq<Response>>, i: nat, merge: Merge, tools: Invoker)
    requires i <= |rounds|
    ensures var t := Rounds(rounds, i, merge, tools);
      && (t.status == Failed ==> |t.messages| >= 1 && t.messages[|t.messages| - 1].AiError?
                                 && ErrorPrefix <= t.messages[|t.messages| - 1].text)
      && forall k :: 0 <= k < |t.messages| && t.messages[k].AiError? ==>
           t.status == Failed && k == |t.messages| - 1
    decreases |rounds| - i
  {
    if i < |rounds| {
      var step := OneRound(rounds[i], merge, tools);
      OneRoundMessages(rounds[i], merge, tools);
      if step.stop.None? {
        var rest := Rounds(rounds, i + 1, merge, tools);
        ErrorIsLast(rounds, i + 1, merge, tools);
        var ms := step.messages + rest.messages;
        forall k | 0 <= k < |ms| && ms[k].AiError?
          ensures rest.status == Failed && k == |ms| - 1
        {
          if k >= |step.messages| {
            assert ms[k] == rest.messages[k - |step.messages|];
          }
        }
        if rest.status == Failed {
          assert ms[|ms| - 1] == rest.messages[|rest.messages| - 1];
        }
      }
    }
  }

  /** The user's message is the only one a turn adds that is not produced by the loop itself. */
  lemma {:induction false} NoHumanMessages(rounds: seq<seq<Response>>, i: nat, merge: Merge, tools: Invoker)
    requires i <= |rounds|
    ensures forall k :: 0 <= k < |Rounds(rounds, i, merge, tools).messages| ==>
      && !Rounds(rounds, i, merge, tools).messages[k].Human?
      && !Rounds(rounds, i, merge, tools).messages[k].SystemMsg?
    decreases |rounds| - i
  {
    if i < |rounds| {
      var step := OneRound(rounds[i], merge, tools);
      OneRoundMessages(rounds[i], merge, tools);
      if step.stop.None? {
        var rest := Rounds(rounds, i + 1, merge, tools);
        NoHumanMessages(rounds, i + 1, merge, tools);
        var ms := step.messages + rest.messages;
        forall k | 0 <= k < |ms|
          ensures !ms[k].Human? && !ms[k].SystemMsg?
        {
          if k < |step.messages| {
            assert ms[k] == step.messages[k];
          } else {
            assert ms[k] == rest.messages[k - |step.messages|];
          }
        }
      }
    }
  }

  /** Every dashboard update other than a reset to `("", "")` comes right
      after the executor accepted the same query. */
  predicate Guarded(events: seq<Event>, db: QueryDb) {
    forall k :: 0 <= k < |events| && events[k].UpdatedDashboard? && events[k] != UpdatedDashboard("", "") ==>
      k > 0 && events[k - 1] == QueriedDb(events[k].query) && db(events[k].query).Success?
  }

  lemma GuardedAppend(a: seq<Event>, b: seq<Event>, db: QueryDb)
    requires Guarded(a, db) && Guarded(b, db)
    ensures Guarded(a + b, db)
  {
    forall k | |a| <= k < |a + b|
      ensures (a + b)[k] == b[k - |a|]
    {
    }
  }

  lemma {:induction false} YieldsGuarded(stream: seq<Response>, db: QueryDb)
    ensures Guarded(Yields(stream), db)
    ensures Guarded(RoundStart(stream), db)
  {
    YieldsFaithful(stream);
    assert forall k :: 0 <= k < |Yields(stream)| ==> Yields(stream)[k] in Yields(stream);
  }

  /** Every run of a bound tool keeps dashboard updates behind accepted queries. */
  ghost predicate GuardedTools(tools: Invoker, db: QueryDb) {
    forall call :: tools(call).Success? ==> Guarded(tools(call).value.events, db)
  }

  /** `update_dashboard` validates before updating, `reset_dashboard` only
      resets and `query` never updates, so the three tools are guarded. */
  lemma ToolsGuarded(db: QueryDb, sink: Sink)
    ensures GuardedTools(Tools(db, sink), db)
  {
    forall call | Tools(db, sink)(call).Success?
      ensures Guarded(Tools(db, sink)(call).value.events, db)
    {
      var events := Tools(db, sink)(call).value.events;
      if call.name == "update_dashboard" {
        var query := StringArg(call.args, "query", call.name).value;
        var title := StringArg(call.args, "title", call.name).value;
        UpdateDashboardEffects(query, title, db, sink);
        assert events == UpdateDashboard(query, title, db, sink).events;
      } else if call.name == "query" {
        var query := StringArg(call.args, "query", call.name).value;
        assert events == QueryTool(query, db).events;
      }
    }
  }

  lemma {:induction false} DispatchAllGuarded(calls: seq<LcToolCall>, tools: Invoker, db: QueryDb)
    requires GuardedTools(tools, db)
    ensures Guarded(DispatchAll(calls, tools).events, db)
    decreases |calls|
  {
    if calls != [] && tools(calls[0]).Success? {
      DispatchAllGuarded(calls[1..], tools, db);
      GuardedAppend(tools(calls[0]).value.events, DispatchAll(calls[1..], tools).events, db);
    }
  }

  /** Over a whole turn the dashboard never shows a query the executor rejected. */
  lemma {:induction false} RoundsGuarded(rounds: seq<seq<Response>>, i: nat, merge: Merge, tools: Invoker, db: QueryDb)
    requires i <= |rounds| && GuardedTools(tools, db)
    ensures Guarded(Rounds(rounds, i, merge, tools).events, db)
    decreases |rounds| - i
  {
    if i < |rounds| {
      YieldsGuarded(rounds[i], db);
      if rounds[i] != [] {
        var response := Merged(rounds[i], merge);
        if response.toolCalls != [] {
          var d := DispatchAll(response.toolCalls, tools);
          DispatchAllGuarded(response.toolCalls, tools, db);
          GuardedAppend(RoundStart(rounds[i]), d.events, db);
          if d.error.None? {
            RoundsGuarded(rounds, i + 1, merge, tools, db);
            GuardedAppend(RoundStart(rounds[i]) + d.events, Rounds(rounds, i + 1, merge, tools).events, db);
          }
        }
      }
    }
  }

  /** A turn in which the model resets the dashboard and then answers: the
      history gains the request, the tool's result and the answer, and the
      sink sees exactly one reset. */
  lemma ResetTurnExample(merge: Merge, db: QueryDb, sink: Sink)
    requires sink("", "") == None
    ensures var ask := Response("", [LcToolCall("call_1", "reset_dashboard", [])]);
      var answer := Response("Done.", []);
      Rounds([[ask], [answer]], 0, merge, Tools(db, sink))
      == Transcript([Ai(ask), ToolResult("call_1", "reset_dashboard", JNull), Ai(answer)],
                    [Progress("Thinking..."), UpdatedDashboard("", ""), Progress("Thinking..."), Yielded(answer)],
                    Completed)
  {
    var call := LcToolCall("call_1", "reset_dashboard", []);
    var ask := Response("", [call]);
    var answer := Response("Done.", []);
    var rounds := [[ask], [answer]];
    var tools := Tools(db, sink);
    assert "reset_dashboard" != "update_dashboard" by { assert |"reset_dashboard"| != |"update_dashboard"|; }
    assert InvokeTool(call, db, sink) == Success(Answer([UpdatedDashboard("", "")], JNull));
    assert [call][1..] == [];
    assert DispatchAll([call], tools) == Dispatched([ToolResult("call_1", "reset_dashboard", JNull)], [UpdatedDashboard("", "")], None);
    assert [ask][..0] == [] && [answer][..0] == [];
    assert Yields([ask]) == [];
    assert Yields([answer]) == [Yielded(answer)];
    assert OneRound([answer], merge, tools) == Step([Ai(answer)], [Progress("Thinking..."), Yielded(answer)], Some(Completed));
    assert Rounds(rounds, 1, merge, tools) == Transcript([Ai(answer)], [Progress("Thinking..."), Yielded(answer)], Completed);
  }

  /** A call to a tool that does not exist ends the turn with the KeyError's message. */
  lemma UnknownToolExample(merge: Merge, db: QueryDb, sink: Sink)
    ensures var ask := Response("", [LcToolCall("call_1", "drop_table", [])]);
      Rounds([[ask]], 0, merge, Tools(db, sink))
      == Transcript([Ai(ask), AiError("**Error**: 'drop_table'")], [Progress("Thinking...")], Failed)
  {
    var call := LcToolCall("call_1", "drop_table", []);
    var ask := Response("", [call]);
    DropTableDispatch(call, db, sink);
    assert Yields([ask]) == [] by {
      assert [ask][..0] == [];
    }
    assert OneRound([ask], merge, Tools(db, sink))
        == Step([Ai(ask), AiError(ErrorText(UnknownTool("drop_table")))], [Progress("Thinking...")], Some(Failed));
  }

  lemma DropTableDispatch(call: LcToolCall, db: QueryDb, sink: Sink)
    requires call.name == "drop_table"
    ensures DispatchAll([call], Tools(db, sink)) == Dispatched([], [], Some(UnknownTool("drop_table")))
    ensures ErrorText(UnknownTool("drop_table")) == "**Error**: 'drop_table'"
  {
    assert "drop_table" != "update_dashboard" by { assert |"drop_table"| != |"update_dashboard"|; }
    assert "drop_table" != "reset_dashboard" by { assert |"drop_table"| != |"reset_dashboard"|; }
    assert "drop_table" != "query" by { assert |"drop_table"| != |"query"|; }
    assert InvokeTool(call, db, sink) == Failure(UnknownTool("drop_table"));
  }

  /** The caller's message list and the trace of what the loop did. */
  class Conversation {
    var messages: seq<Message>
    var trace: seq<Event>

    constructor (history: seq<Message>)
      ensures messages == history && trace == []
    {
      messages := history;
      trace := [];
    }

    /** `async for chunk in stream`: yields the chunks with content and merges them all. */
    method Stream(stream: seq<Response>, merge: Merge) returns (response: Option<Response>)
      modifies this
      ensures messages == old(messages)
      ensures trace == old(trace) + Yields(stream)
      ensures response == if stream == [] then None else Some(Merged(stream, merge))
    {
      response := None;
      for k := 0 to |stream|
        invariant messages == old(messages)
        invariant trace == old(trace) + Yields(stream[..k])
        invariant response == if k == 0 then None else Some(Merged(stream[..k], merge))
      {
        var chunk := stream[k];
        assert stream[..k + 1][..k] == stream[..k];
        if chunk.content != "" {
          trace := trace + [Yielded(chunk)];
        }
        if response.None? {
          response := Some(chunk);
        } else {
          response := Some(merge(response.value, chunk));
        }
      }
      assert stream[..|stream|] == stream;
    }

    /** `for tool_call in response.tool_calls: messages.append(await ...)`,
        stopping at the first call that raises. */
    method RunCalls(calls: seq<LcToolCall>, tools: Invoker) returns (error: Option<LoopError>)
      modifies this
      ensures messages == old(messages) + DispatchAll(calls, tools).messages
      ensures trace == old(trace) + DispatchAll(calls, tools).events
      ensures error == DispatchAll(calls, tools).error
    {
      ghost var goal := DispatchAll(calls, tools);
      for j := 0 to |calls|
        invariant var rest := DispatchAll(calls[j..], tools);
          && messages + rest.messages == old(messages) + goal.messages
          && trace + rest.events == old(trace) + goal.events
          && rest.error == goal.error
      {
        var call := calls[j];
        DispatchSuffix(calls, j, tools);
        var r := tools(call);
        if r.Failure? {
          return Some(r.error);
        }
        messages := messages + [ToolResult(call.id, call.name, r.value.content)];
        trace := trace + r.value.events;
      }
      assert calls[|calls|..] == [];
      return None;
    }

    /** `perform_query(messages, user_input, query_db, on_update_dashboard=...)`:
        appends the user's message, then runs the rounds with the three
        tools bound to the executor and the sink. */
    method PerformQuery(userInput: string, rounds: seq<seq<Response>>, merge: Merge, db: QueryDb, sink: Sink)
      returns (status: Status)
      modifies this
      ensures messages == old(messages) + [Human(userInput)] + Rounds(rounds, 0, merge, Tools(db, sink)).messages
      ensures trace == old(trace) + Rounds(rounds, 0, merge, Tools(db, sink)).events
      ensures status == Rounds(rounds, 0, merge, Tools(db, sink)).status
    {
      messages := messages + [Human(userInput)];
      var tools := Tools(db, sink);
      status := RunRounds(rounds, merge, tools);
    }

    /** One round: announce, stream, append the reply, then either stop or
        dispatch its tool calls. */
    method RunRound(stream: seq<Response>, merge: Merge, tools: Invoker) returns (stop: Option<Status>)
      modifies this
      ensures messages == old(messages) + OneRound(stream, merge, tools).messages
      ensures trace == old(trace) + OneRound(stream, merge, tools).events
      ensures stop == OneRound(stream, merge, tools).stop
    {
      OneRoundSteps(messages, trace, stream, merge, tools);
      trace := trace + [Progress("Thinking...")];
      var response := Stream(stream, merge);
      if response.None? {
        messages := messages + [NoResponse];
        messages := messages + [AiError(ErrorText(NoneResponse))];
        return Some(Failed);
      }
      messages := messages + [Ai(response.value)];
      if |response.value.toolCalls| == 0 {
        return Some(Completed);
      }
      var error := RunCalls(response.value.toolCalls, tools);
      if error.Some? {
        messages := messages + [AiError(ErrorText(error.value))];
        return Some(Failed);
      }
      return None;
    }

    /** The `while True` loop: rounds run until one stops the loop. */
    method RunRounds(rounds: seq<seq<Response>>, merge: Merge, tools: Invoker) returns (status: Status)
      modifies this
      ensures messages == old(messages) + Rounds(rounds, 0, merge, tools).messages
      ensures trace == old(trace) + Rounds(rounds, 0, merge, tools).events
      ensures status == Rounds(rounds, 0, merge, tools).status
    {
      ghost var goal := Rounds(rounds, 0, merge, tools);
      ghost var goalMessages := messages + goal.messages;
      ghost var goalTrace := trace + goal.events;
      var i := 0;
      while i < |rounds|
        invariant 0 <= i <= |rounds|
        invariant messages + Rounds(rounds, i, merge, tools).messages == goalMessages
        invariant trace + Rounds(rounds, i, merge, tools).events == goalTrace
        invariant Rounds(rounds, i, merge, tools).status == goal.status
        decreases |rounds| - i
      {
        RoundsStep(messages, trace, rounds, i, merge, tools);
        var stop := RunRound(rounds[i], merge, tools);
        if stop.Some? {
          return stop.value;
        }
        i := i + 1;
      }
      return Exhausted;
    }
  }
}
