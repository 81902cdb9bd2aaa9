/** `tool`, `WrappedTool`, `toolinvoke` and `Toolbox` of tool.py: wrapping a
    function as a named tool with a descriptor, invoking it on a tool call
    from the model, and the registry that dispatches calls by name. */
module Tools {
  import opened Wrappers
  import opened JsonValues
  import opened TypeSchema
  import opened FuncSchema

  /** Awaiting a tool function on keyword arguments (a JSON object): the value it
      returns, or `str(e)` of the exception it raises. A return value that
      `json.dumps` cannot serialise counts as such an exception. */
  type ToolFunc = Json -> Result<Json, string>

  /** `json.loads`: the parsed value, or the message of the decode error. */
  type JsonLoads = string -> Result<Json, string>

  datatype WrappedTool = WrappedTool(sig: Signature, func: ToolFunc, name: string, schema: Json)

  /** `tool(func, name=name)`: the tool is named `name or func.__name__`, and its
      schema is derived at wrapping time, so an unsupported parameter type
      fails here rather than at call time. */
  function Tool(sig: Signature, func: ToolFunc, name: Option<string>): Result<WrappedTool, SchemaError> {
    var n := ToolName(name, sig.fname);
    var schema :- Descriptor(sig, Some(n));
    Success(WrappedTool(sig, func, n, schema))
  }

  /** Wrapping fails exactly when the descriptor cannot be derived; the tool's
      name is the given one when non-empty, else the function's, and its
      schema is the descriptor under that same name. */
  lemma ToolNaming(sig: Signature, func: ToolFunc, name: Option<string>)
    ensures Tool(sig, func, name).Success? <==> Descriptor(sig, name).Success?
    ensures Tool(sig, func, name).Success? ==>
      var t := Tool(sig, func, name).value;
      && t.name == (if name.Some? && name.value != "" then name.value else sig.fname)
      && t.schema == Descriptor(sig, name).value
      && Get(Get(t.schema, "function").value, "name") == Some(JString(t.name))
  {
    var n := ToolName(name, sig.fname);
    assert ToolName(Some(n), sig.fname) == n;
    assert Descriptor(sig, Some(n)) == Descriptor(sig, name);
    if Descriptor(sig, name).Success? {
      DescriptorShape(sig, name);
    }
  }

  /** The tool-call request the model emits; `arguments` is JSON text. */
  datatype ToolCall = ToolCall(id: string, name: string, arguments: string)

  /** What `toolinvoke` is handed to call: a function, or `None`. */
  datatype Callee = NoCallee | Callee(func: ToolFunc)

  /** The tool message `{tool_call_id, role, name, content}`; `content` is the
      value that `json.dumps` serialises. */
  datatype ToolMessage = ToolMessage(toolCallId: string, role: string, name: string, content: Json)

  const NotCallable := "'NoneType' object is not callable"
  const NotMapping := "argument after ** must be a mapping"

  /** `{"success": False, "error": str(e), "traceback": ...}`. */
  function ErrorContent(msg: string, traceback: string): Json {
    JObject([("success", JBool(false)), ("error", JString(msg)), ("traceback", JString(traceback))])
  }

  /** The body of `toolinvoke`'s `try`: parse the arguments, spread them as
      keyword arguments (which needs a mapping), then call and await. */
  function Attempt(callee: Callee, call: ToolCall, loads: JsonLoads): Result<Json, string> {
    var kwargs :- loads(call.arguments);
    if !kwargs.JObject? then Failure(NotMapping)
    else if callee.NoCallee? then Failure(NotCallable)
    else callee.func(kwargs)
  }

  /** `toolinvoke(func, tool_call)`; `traceback` stands for `traceback.format_exc()`. */
  function ToolInvoke(callee: Callee, call: ToolCall, loads: JsonLoads, traceback: string): (m: ToolMessage)
    ensures m.toolCallId == call.id && m.role == "tool" && m.name == call.name
  {
    var content := match Attempt(callee, call, loads)
      case Success(v) => v
      case Failure(e) => ErrorContent(e, traceback);
    ToolMessage(call.id, "tool", call.name, content)
  }

  lemma ErrorContentIsFailure(msg: string, traceback: string)
    ensures IsFailurePayload(ErrorContent(msg, traceback))
    ensures Get(ErrorContent(msg, traceback), "error") == Some(JString(msg))
  {
    var e := ErrorContent(msg, traceback).entries;
    assert e[1..] == [("error", JString(msg)), ("traceback", JString(traceback))];
    assert "success" != "error" by { assert |"success"| != |"error"|; }
    assert Lookup(e, "success") == Some(JBool(false));
    assert Lookup(e[1..], "error") == Some(JString(msg));
    assert Lookup(e, "error") == Lookup(e[1..], "error");
  }

  /** `toolinvoke` never raises: a parse failure, arguments that are not an
      object, or an exception from the function all become a `success: false`
      payload carrying the message; otherwise the content is the function's result. */
  lemma ToolInvokeOutcome(callee: Callee, call: ToolCall, loads: JsonLoads, traceback: string)
    ensures var m := ToolInvoke(callee, call, loads, traceback);
      && (loads(call.arguments).Failure? ==>
            m.content == ErrorContent(loads(call.arguments).error, traceback))
      && (loads(call.arguments).Success? && !loads(call.arguments).value.JObject? ==>
            m.content == ErrorContent(NotMapping, traceback))
      && (loads(call.arguments).Success? && loads(call.arguments).value.JObject? && callee.NoCallee? ==>
            m.content == ErrorContent(NotCallable, traceback))
      && (loads(call.arguments).Success? && loads(call.arguments).value.JObject? && callee.Callee? ==>
            m.content == match callee.func(loads(call.arguments).value)
                         case Success(v) => v
                         case Failure(e) => ErrorContent(e, traceback))
    ensures Attempt(callee, call, loads).Failure? ==>
      && IsFailurePayload(ToolInvoke(callee, call, loads, traceback).content)
      && Get(ToolInvoke(callee, call, loads, traceback).content, "error")
         == Some(JString(Attempt(callee, call, loads).error))
  {
    if Attempt(callee, call, loads).Failure? {
      ErrorContentIsFailure(Attempt(callee, call, loads).error, traceback);
    }
  }

  /** An argument handed to `Toolbox(...)`. */
  datatype ToolArg = Wrapped(tool: WrappedTool) | NotWrapped

  /** The registry: tools by name, and their schemas in argument order. */
  datatype Toolbox = Toolbox(tools: map<string, WrappedTool>, schema: seq<Json>)

  const NotATool := "Arguments to Toolbox() must be functions decorated with @tool"

  predicate AllWrapped(args: seq<ToolArg>) {
    forall i :: 0 <= i < |args| ==> args[i].Wrapped?
  }

  /** `{tool.name: tool for tool in tools}`: a later tool replaces an earlier one of the same name. */
  function ToolMap(ts: seq<WrappedTool>): map<string, WrappedTool>
    decreases |ts|
  {
    if ts == [] then map[] else ToolMap(ts[..|ts| - 1])[ts[|ts| - 1].name := ts[|ts| - 1]]
  }

  /** The registry holds exactly the names of the given tools. */
  lemma {:induction false} ToolMapKeys(ts: seq<WrappedTool>)
    ensures ToolMap(ts).Keys == set i | 0 <= i < |ts| :: ts[i].name
    decreases |ts|
  {
    if ts != [] {
      var init := ts[..|ts| - 1];
      ToolMapKeys(init);
      var names := set i | 0 <= i < |ts| :: ts[i].name;
      forall x | x in names
        ensures x in ToolMap(ts).Keys
      {
        var i :| 0 <= i < |ts| && ts[i].name == x;
        if i < |init| { assert init[i].name == x; }
      }
      forall x | x in ToolMap(ts).Keys
        ensures x in names
      {
        if x != ts[|ts| - 1].name {
          var i :| 0 <= i < |init| && init[i].name == x;
          assert ts[i].name == x;
        }
      }
    }
  }

  /** Each name maps to the last tool given under it. */
  lemma {:induction false} ToolMapLastWins(ts: seq<WrappedTool>, i: int)
    requires 0 <= i < |ts|
    requires forall j :: i < j < |ts| ==> ts[j].name != ts[i].name
    ensures ts[i].name in ToolMap(ts) && ToolMap(ts)[ts[i].name] == ts[i]
    decreases |ts|
  {
    if i < |ts| - 1 {
      var init := ts[..|ts| - 1];
      assert init[i] == ts[i];
      forall j | i < j < |init|
        ensures init[j].name != init[i].name
      {
        assert init[j] == ts[j];
      }
      ToolMapLastWins(init, i);
    }
  }

  /** `Toolbox(*args)`: checks every argument, then builds the map and the schema list. */
  method NewToolbox(args: seq<ToolArg>) returns (r: Result<Toolbox, string>)
    ensures r.Failure? <==> !AllWrapped(args)
    ensures r.Failure? ==> r.error == NotATool
    ensures r.Success? ==>
      && r.value.tools == ToolMap(seq(|args|, i requires 0 <= i < |args| && AllWrapped(args) => args[i].tool))
      && |r.value.schema| == |args|
      && forall i :: 0 <= i < |args| ==> r.value.schema[i] == args[i].tool.schema
  {
    for i := 0 to |args|
      invariant forall k :: 0 <= k < i ==> args[k].Wrapped?
    {
      if args[i].NotWrapped? {
        return Failure(NotATool);
      }
    }
    ghost var ts := seq(|args|, i requires 0 <= i < |args| && AllWrapped(args) => args[i].tool);
    var tools: map<string, WrappedTool> := map[];
    var schema: seq<Json> := [];
    for i := 0 to |args|
      invariant tools == ToolMap(ts[..i])
      invariant |schema| == i && forall k :: 0 <= k < i ==> schema[k] == args[k].tool.schema
    {
      assert ts[..i + 1][..i] == ts[..i];
      tools := tools[args[i].tool.name := args[i].tool];
      schema := schema + [args[i].tool.schema];
    }
    assert ts[..|args|] == ts;
    r := Success(Toolbox(tools, schema));
  }

  /** `Toolbox.__call__` as written: for an unknown name the result of the
      first `toolinvoke` (an error object, since awaiting the synchronous
      lambda's dict raises) is discarded and `None` is invoked instead. */
  function DispatchAsWritten(box: Toolbox, call: ToolCall, loads: JsonLoads, traceback: string): ToolMessage {
    if call.name in box.tools then ToolInvoke(Callee(box.tools[call.name].func), call, loads, traceback)
    else ToolInvoke(NoCallee, call, loads, traceback)
  }

  /** The unknown-tool reply the code evidently intends. As written, the
      lambda at the unknown-name branch is synchronous, so awaiting its dict
      raises `TypeError` and that first result could never be this reply; the
      intended behaviour needs an awaitable callee (an `async def`) whose
      result is returned. */
  function UnknownTool(name: string): ToolFunc {
    kwargs => Success(FailurePayload("Unknown tool: " + name))
  }

  /** `Toolbox.__call__` as evidently intended: an unknown name is invoked
      through an awaitable unknown-tool function and that reply is returned. */
  function Dispatch(box: Toolbox, call: ToolCall, loads: JsonLoads, traceback: string): ToolMessage {
    if call.name in box.tools then ToolInvoke(Callee(box.tools[call.name].func), call, loads, traceback)
    else ToolInvoke(Callee(UnknownTool(call.name)), call, loads, traceback)
  }

  /** As written, an unknown tool name still yields a well-formed `success: false`
      tool message for the call, never an exception. */
  lemma UnknownNameAsWritten(box: Toolbox, call: ToolCall, loads: JsonLoads, traceback: string)
    requires call.name !in box.tools
    ensures var m := DispatchAsWritten(box, call, loads, traceback);
      && m.toolCallId == call.id && m.role == "tool" && m.name == call.name
      && IsFailurePayload(m.content)
    ensures loads(call.arguments).Success? && loads(call.arguments).value.JObject? ==>
      Get(DispatchAsWritten(box, call, loads, traceback).content, "error") == Some(JString(NotCallable))
  {
    ToolInvokeOutcome(NoCallee, call, loads, traceback);
  }

  /** The registry with no tools and a call to "foo" with no arguments: the
      message says that None is not callable, not that "foo" is unknown. */
  lemma UnknownNameMessageLost(loads: JsonLoads, traceback: string)
    requires loads("{}") == Success(JObject([]))
    ensures Get(DispatchAsWritten(Toolbox(map[], []), ToolCall("1", "foo", "{}"), loads, traceback).content, "error")
      == Some(JString(NotCallable))
    ensures NotCallable != "Unknown tool: foo"
  {
    UnknownNameAsWritten(Toolbox(map[], []), ToolCall("1", "foo", "{}"), loads, traceback);
    assert NotCallable[0] != "Unknown tool: foo"[0];
  }

  /** With the unknown-tool result returned, the message names the unknown
      tool whenever the arguments parse to an object, and is `success: false` always. */
  lemma UnknownNameReported(box: Toolbox, call: ToolCall, loads: JsonLoads, traceback: string)
    requires call.name !in box.tools
    ensures var m := Dispatch(box, call, loads, traceback);
      && m.toolCallId == call.id && m.role == "tool" && m.name == call.name
      && IsFailurePayload(m.content)
    ensures loads(call.arguments).Success? && loads(call.arguments).value.JObject? ==>
      Dispatch(box, call, loads, traceback).content == FailurePayload("Unknown tool: " + call.name)
  {
    ToolInvokeOutcome(Callee(UnknownTool(call.name)), call, loads, traceback);
    FailurePayloadIsFailure("Unknown tool: " + call.name);
  }

  /** A known name is invoked through its own tool: the message content is the
      tool's result, or a `success: false` payload when anything raised. */
  lemma KnownNameDispatch(box: Toolbox, call: ToolCall, loads: JsonLoads, traceback: string)
    requires call.name in box.tools
    ensures var m := Dispatch(box, call, loads, traceback);
      var a := Attempt(Callee(box.tools[call.name].func), call, loads);
      && m == DispatchAsWritten(box, call, loads, traceback)
      && (a.Success? ==> m.content == a.value)
      && (a.Failure? ==> IsFailurePayload(m.content))
  {
    ToolInvokeOutcome(Callee(box.tools[call.name].func), call, loads, traceback);
  }
}
