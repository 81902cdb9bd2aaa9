/** `func_to_schema` of tool.py: the tool descriptor derived from a
    function's signature, docstring and type hints. */
module FuncSchema {
  import opened Wrappers
  import opened JsonValues
  import opened TypeSchema

  /** `inspect.Parameter.kind`. */
  datatype ParamKind = PositionalOnly | PositionalOrKeyword | VarPositional | KeywordOnly | VarKeyword

  /** One entry of `inspect.signature(func).parameters`. */
  datatype Param = Param(name: string, hasDefault: bool, kind: ParamKind)

  /** What introspection reports about a function: `__name__`, `__doc__`,
      its parameters in signature order, and `get_type_hints(func, include_extras=True)`
      in insertion order (the return annotation, when present, under "return"). */
  datatype Signature = Signature(fname: string, doc: Option<string>, params: seq<Param>, hints: seq<(string, PyType)>)

  /** A parameter is required when it has no default and is neither `*args` nor `**kwargs`. */
  predicate IsRequired(p: Param) {
    !p.hasDefault && p.kind != VarPositional && p.kind != VarKeyword
  }

  function RequiredNames(ps: seq<Param>): seq<string>
    decreases |ps|
  {
    if ps == [] then []
    else (if IsRequired(ps[0]) then [ps[0].name] else []) + RequiredNames(ps[1..])
  }

  /** The required names of a signature split in two are those of each part, in order. */
  lemma {:induction false} RequiredNamesAppend(a: seq<Param>, b: seq<Param>)
    ensures RequiredNames(a + b) == RequiredNames(a) + RequiredNames(b)
    decreases |a|
  {
    if a == [] {
      assert a + b == b;
    } else {
      assert (a + b)[1..] == a[1..] + b;
      RequiredNamesAppend(a[1..], b);
    }
  }

  /** A name is required exactly when some parameter of that name has no
      default and is not variadic. */
  lemma {:induction false} RequiredNamesMembership(ps: seq<Param>, x: string)
    ensures x in RequiredNames(ps) <==> exists i :: 0 <= i < |ps| && ps[i].name == x && IsRequired(ps[i])
    decreases |ps|
  {
    if ps != [] {
      RequiredNamesMembership(ps[1..], x);
      if x in RequiredNames(ps[1..]) {
        var i :| 0 <= i < |ps[1..]| && ps[1..][i].name == x && IsRequired(ps[1..][i]);
        assert ps[i + 1] == ps[1..][i];
      }
      if exists i :: 0 <= i < |ps| && ps[i].name == x && IsRequired(ps[i]) {
        var i :| 0 <= i < |ps| && ps[i].name == x && IsRequired(ps[i]);
        if i > 0 { assert ps[1..][i - 1] == ps[i]; }
      }
    }
  }

  /** The loop of func_to_schema that collects the required parameter names. */
  method RequiredParams(ps: seq<Param>) returns (required: seq<string>)
    ensures required == RequiredNames(ps)
  {
    required := [];
    var i := 0;
    while i < |ps|
      invariant 0 <= i <= |ps|
      invariant required == RequiredNames(ps[..i])
    {
      RequiredNamesAppend(ps[..i], [ps[i]]);
      assert ps[..i + 1] == ps[..i] + [ps[i]];
      if IsRequired(ps[i]) {
        required := required + [ps[i].name];
      }
      i := i + 1;
    }
    assert ps[..i] == ps;
  }

  /** The `properties` comprehension: one schema per type hint, skipping "return". */
  function PropertiesOf(hints: seq<(string, PyType)>): Result<seq<(string, Json)>, SchemaError>
    decreases |hints|
  {
    if hints == [] then Success([])
    else if hints[0].0 == "return" then PropertiesOf(hints[1..])
    else
      var s :- TypeToJsonSchema(hints[0].1, None);
      var rest :- PropertiesOf(hints[1..]);
      Success([(hints[0].0, s)] + rest)
  }

  /** The hints other than "return", in order. */
  function ParameterHints(hints: seq<(string, PyType)>): seq<(string, PyType)>
    decreases |hints|
  {
    if hints == [] then []
    else (if hints[0].0 == "return" then [] else [hints[0]]) + ParameterHints(hints[1..])
  }

  /** `name or func.__name__`: an absent or empty name falls back to the function's own. */
  function ToolName(name: Option<string>, fname: string): string {
    if name.Some? && name.value != "" then name.value else fname
  }

  /** The JSON array of the given names, in order. */
  function StringArray(ns: seq<string>): Json {
    JArray(seq(|ns|, i requires 0 <= i < |ns| => JString(ns[i])))
  }

  /** The descriptor's "parameters" object. */
  function ParametersObject(props: seq<(string, Json)>, required: seq<string>): Json {
    JObject([("type", JString("object")), ("properties", JObject(props)), ("required", StringArray(required))])
  }

  /** The descriptor's "function" object; "description" only when there is a docstring. */
  function FunctionObject(name: string, doc: Option<string>, parameters: Json): Json {
    JObject([("name", JString(name))] + DescriptionEntry(doc) + [("parameters", parameters)])
  }

  /** The descriptor func_to_schema returns. */
  function Descriptor(sig: Signature, name: Option<string>): Result<Json, SchemaError> {
    var props :- PropertiesOf(sig.hints);
    Success(JObject([
      ("type", JString("function")),
      ("function", FunctionObject(ToolName(name, sig.fname), sig.doc,
                                  ParametersObject(props, RequiredNames(sig.params))))]))
  }

  /** `func_to_schema(func, name)`. */
  method FuncToSchema(sig: Signature, name: Option<string>) returns (r: Result<Json, SchemaError>)
    ensures r == Descriptor(sig, name)
  {
    var required := RequiredParams(sig.params);
    var props := PropertiesOf(sig.hints);
    if props.Failure? {
      return Failure(props.error);
    }
    var fn := [("name", JString(ToolName(name, sig.fname)))];
    if sig.doc.Some? {
      fn := fn + [("description", JString(sig.doc.value))];
    }
    assert fn == [("name", JString(ToolName(name, sig.fname)))] + DescriptionEntry(sig.doc);
    fn := fn + [("parameters", ParametersObject(props.value, required))];
    r := Success(JObject([("type", JString("function")), ("function", JObject(fn))]));
  }

  /** Building the properties succeeds exactly when every hint but "return"
      is a supported type. */
  lemma {:induction false} PropertiesSucceedIffSupported(hints: seq<(string, PyType)>)
    ensures PropertiesOf(hints).Success? <==>
      forall k :: 0 <= k < |hints| && hints[k].0 != "return" ==> Supported(hints[k].1, None)
    decreases |hints|
  {
    if hints != [] {
      PropertiesSucceedIffSupported(hints[1..]);
      SucceedsIffSupported(hints[0].1, None);
      assert forall k :: 1 <= k < |hints| ==> hints[k] == hints[1..][k - 1];
    }
  }

  /** The properties are keyed by the parameter names, in hint order, each the
      schema of its hint; "return" is never among them. */
  lemma {:induction false} PropertiesOfEntries(hints: seq<(string, PyType)>)
    requires PropertiesOf(hints).Success?
    ensures var props := PropertiesOf(hints).value;
      var ph := ParameterHints(hints);
      && |props| == |ph|
      && "return" !in Keys(props)
      && forall k :: 0 <= k < |props| ==>
           props[k].0 == ph[k].0 && TypeToJsonSchema(ph[k].1, None) == Success(props[k].1)
    decreases |hints|
  {
    if hints != [] {
      PropertiesOfEntries(hints[1..]);
      var props := PropertiesOf(hints).value;
      var rest := PropertiesOf(hints[1..]).value;
      if hints[0].0 != "return" {
        assert props == [(hints[0].0, TypeToJsonSchema(hints[0].1, None).value)] + rest;
        assert ParameterHints(hints) == [hints[0]] + ParameterHints(hints[1..]);
      } else {
        assert ParameterHints(hints) == ParameterHints(hints[1..]);
      }
    }
  }

  lemma ParametersObjectEntries(props: seq<(string, Json)>, required: seq<string>)
    ensures var p := ParametersObject(props, required);
      && Get(p, "type") == Some(JString("object"))
      && Get(p, "properties") == Some(JObject(props))
      && Get(p, "required") == Some(StringArray(required))
  {
    var e := ParametersObject(props, required).entries;
    assert e[1..] == [("properties", JObject(props)), ("required", StringArray(required))];
    assert e[1..][1..] == [("required", StringArray(required))];
    assert "type" != "properties" by { assert |"type"| != |"properties"|; }
    assert "type" != "required" by { assert |"type"| != |"required"|; }
    assert "properties" != "required" by { assert |"properties"| != |"required"|; }
    assert Lookup(e[1..], "properties") == Some(JObject(props));
    assert Lookup(e[1..][1..], "required") == Some(StringArray(required));
    assert Lookup(e[1..], "required") == Some(StringArray(required));
    assert Lookup(e, "required") == Some(StringArray(required));
  }

  lemma FunctionObjectEntries(name: string, doc: Option<string>, parameters: Json)
    ensures var f := FunctionObject(name, doc, parameters);
      && Get(f, "name") == Some(JString(name))
      && Get(f, "description") == (if doc.None? then None else Some(JString(doc.value)))
      && Get(f, "parameters") == Some(parameters)
  {
    var head := [("name", JString(name))];
    var tail := DescriptionEntry(doc) + [("parameters", parameters)];
    assert FunctionObject(name, doc, parameters).entries == head + tail;
    LookupAppend(head, tail, "description");
    LookupAppend(head, tail, "parameters");
    LookupAppend(DescriptionEntry(doc), [("parameters", parameters)], "description");
    LookupAppend(DescriptionEntry(doc), [("parameters", parameters)], "parameters");
    assert "name" != "description" by { assert |"name"| != |"description"|; }
    assert "name" != "parameters" by { assert |"name"| != |"parameters"|; }
    assert "description" != "parameters" by { assert |"description"| != |"parameters"|; }
  }

  /** The descriptor names the tool (`name`, else the function's own name),
      carries "description" exactly when the docstring is not None, and its
      parameters object lists the parameter schemas and the required names. */
  lemma DescriptorShape(sig: Signature, name: Option<string>)
    requires Descriptor(sig, name).Success?
    ensures var d := Descriptor(sig, name).value;
      && Get(d, "type") == Some(JString("function"))
      && Get(d, "function").Some?
      && var f := Get(d, "function").value;
         && Get(f, "name") == Some(JString(ToolName(name, sig.fname)))
         && Get(f, "description") == (if sig.doc.None? then None else Some(JString(sig.doc.value)))
         && Get(f, "parameters").Some?
         && var p := Get(f, "parameters").value;
            && Get(p, "type") == Some(JString("object"))
            && Get(p, "required") == Some(StringArray(RequiredNames(sig.params)))
            && Get(p, "properties") == Some(JObject(PropertiesOf(sig.hints).value))
  {
    var p := ParametersObject(PropertiesOf(sig.hints).value, RequiredNames(sig.params));
    var f := FunctionObject(ToolName(name, sig.fname), sig.doc, p);
    ParametersObjectEntries(PropertiesOf(sig.hints).value, RequiredNames(sig.params));
    FunctionObjectEntries(ToolName(name, sig.fname), sig.doc, p);
    var d := Descriptor(sig, name).value;
    assert d == JObject([("type", JString("function")), ("function", f)]);
    assert d.entries[1..] == [("function", f)];
    assert Lookup(d.entries[1..], "function") == Some(f);
    assert "type" != "function" by { assert |"type"| != |"function"|; }
  }

  /** The signature of `foo(a: int, b: str = "blah", *args, c: Annotated[str, "The c string"], **kwargs) -> None`
      with its docstring, from tool.py's own test. */
  function FooSignature(): Signature {
    Signature("foo", Some("Docstring for the function"),
      [Param("a", false, PositionalOrKeyword), Param("b", true, PositionalOrKeyword),
       Param("args", false, VarPositional), Param("c", false, KeywordOnly), Param("kwargs", false, VarKeyword)],
      [("a", Int), ("b", Str), ("c", Annotated(Str, [MetaStr("The c string")])), ("return", NoneType)])
  }

  lemma FooRequired()
    ensures RequiredNames(FooSignature().params) == ["a", "c"]
  {
    var pa := FooSignature().params;
    assert RequiredNames(pa[4..]) == [];
    assert RequiredNames(pa[3..]) == ["c"];
    assert RequiredNames(pa[2..]) == ["c"];
    assert RequiredNames(pa[1..]) == ["c"];
  }

  lemma PropertiesStep(hints: seq<(string, PyType)>)
    requires hints != [] && hints[0].0 != "return"
    requires TypeToJsonSchema(hints[0].1, None).Success? && PropertiesOf(hints[1..]).Success?
    ensures PropertiesOf(hints)
      == Success([(hints[0].0, TypeToJsonSchema(hints[0].1, None).value)] + PropertiesOf(hints[1..]).value)
  {
  }

  lemma FooProperties()
    ensures PropertiesOf(FooSignature().hints) == Success([
      ("a", JObject([("type", JString("integer"))])),
      ("b", JObject([("type", JString("string"))])),
      ("c", JObject([("type", JString("string")), ("description", JString("The c string"))]))])
  {
    var h := FooSignature().hints;
    var sA, sB := JObject([("type", JString("integer"))]), JObject([("type", JString("string"))]);
    var sC := JObject([("type", JString("string")), ("description", JString("The c string"))]);
    PrimitiveSchemas(Int, None);
    PrimitiveSchemas(Str, None);
    PrimitiveSchemas(Str, Some("The c string"));
    assert "a" != "return" && "b" != "return" && "c" != "return" by { assert |"return"| == 6; }
    assert PropertiesOf(h[3..]) == Success([]);
    assert h[2..][1..] == h[3..] && h[1..][1..] == h[2..];
    assert TypeToJsonSchema(h[2].1, None) == Success(sC);
    PropertiesStep(h[2..]);
    assert h[2..][0] == h[2] && h[1..][0] == h[1];
    assert [("c", sC)] + [] == [("c", sC)];
    assert PropertiesOf(h[2..]) == Success([("c", sC)]);
    PropertiesStep(h[1..]);
    assert [("b", sB)] + [("c", sC)] == [("b", sB), ("c", sC)];
    assert PropertiesOf(h[1..]) == Success([("b", sB), ("c", sC)]);
    PropertiesStep(h);
    assert [("a", sA)] + [("b", sB), ("c", sC)] == [("a", sA), ("b", sB), ("c", sC)];
  }

  /** tool.py's test: `required` is ["a", "c"] and the descriptor is exactly the expected one. */
  lemma FooExample()
    ensures RequiredNames(FooSignature().params) == ["a", "c"]
    ensures Descriptor(FooSignature(), None) == Success(JObject([
      ("type", JString("function")),
      ("function", JObject([
         ("name", JString("foo")),
         ("description", JString("Docstring for the function")),
         ("parameters", JObject([
            ("type", JString("object")),
            ("properties", JObject([
               ("a", JObject([("type", JString("integer"))])),
               ("b", JObject([("type", JString("string"))])),
               ("c", JObject([("type", JString("string")), ("description", JString("The c string"))]))])),
            ("required", JArray([JString("a"), JString("c")]))]))]))]))
  {
    FooRequired();
    FooProperties();
    var sig := FooSignature();
    assert StringArray(["a", "c"]).items == [JString("a"), JString("c")];
    var p := ParametersObject(PropertiesOf(sig.hints).value, ["a", "c"]);
    var doc := "Docstring for the function";
    assert FunctionObject("foo", sig.doc, p).entries
        == [("name", JString("foo")), ("description", JString(doc)), ("parameters", p)];
  }
}
