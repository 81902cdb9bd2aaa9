/** `type_to_json_schema` and `type_dict` of tool.py: the mapping from the
    parameter types a tool may declare to JSON-schema fragments. */
module TypeSchema {
  import opened Wrappers
  import opened JsonValues

  /** One metadata argument of `Annotated[T, ...]`. */
  datatype Meta = MetaStr(text: string) | MetaOther

  /** One entry of a TypedDict's annotations. */
  datatype Field = Field(name: string, ty: PyType)

  /** The type language the deriver inspects. `ListOf` and `DictOf` carry the
      type arguments `get_args` returns (`typing.List` alone has none);
      `Other` is every type the deriver does not know (unions, tuples, classes). */
  datatype PyType =
    | Str | Int | Float | Bool | NoneType
    | BareList | BareDict
    | ListOf(args: seq<PyType>)
    | DictOf(args: seq<PyType>)
    | Annotated(base: PyType, meta: seq<Meta>)
    | TypedDict(fields: seq<Field>)
    | Other(repr: string)

  /** Which of the deriver's `assert` statements failed. */
  datatype Check =
    | AnnotatedArity | AnnotatedOuterDescription | AnnotatedMetadataNotStr
    | ListArity | DictArity | DictKeyNotStr

  /** `AssertionError` from one of the asserts, or the `ValueError` for an unsupported type. */
  datatype SchemaError = AssertionFailed(check: Check) | UnsupportedType(repr: string)

  /** `type_dict(type, description, **kwargs)`. */
  function TypeDict(kind: string, description: Option<string>, extra: seq<(string, Json)>): Json {
    JObject([("type", JString(kind))]
            + (if description.None? then [] else [("description", JString(description.value))])
            + extra)
  }

  predicate IsPrimitive(t: PyType) {
    t.Str? || t.Int? || t.Float? || t.Bool? || t.NoneType? || t.BareList? || t.BareDict?
  }

  /** The fixed schema type of each primitive, as the deriver's table states it. */
  function PrimitiveName(t: PyType): string
    requires IsPrimitive(t)
  {
    match t
    case Str => "string"
    case Int => "integer"
    case Float => "number"
    case Bool => "boolean"
    case NoneType => "null"
    case BareList => "array"
    case BareDict => "object"
  }

  /** `type_to_json_schema(t, desc)`. */
  function TypeToJsonSchema(t: PyType, desc: Option<string>): Result<Json, SchemaError>
    decreases t, 1
  {
    match t
    case Annotated(base, meta) =>
      if |meta| != 1 then Failure(AssertionFailed(AnnotatedArity))
      else if !(desc.None? || desc.value == "") then Failure(AssertionFailed(AnnotatedOuterDescription))
      else if !meta[0].MetaStr? then Failure(AssertionFailed(AnnotatedMetadataNotStr))
      else TypeToJsonSchema(base, Some(meta[0].text))
    case ListOf(args) =>
      if |args| != 1 then Failure(AssertionFailed(ListArity))
      else
        var items :- TypeToJsonSchema(args[0], None);
        Success(TypeDict("array", desc, [("items", items)]))
    case DictOf(args) =>
      if |args| != 2 then Failure(AssertionFailed(DictArity))
      else if args[0] != Str then Failure(AssertionFailed(DictKeyNotStr))
      else
        var values :- TypeToJsonSchema(args[1], None);
        Success(TypeDict("object", desc, [("additionalProperties", values)]))
    case TypedDict(fields) =>
      var props :- FieldSchemas(t, 0);
      Success(TypeDict("object", desc, [("properties", JObject(props))]))
    case BareDict => Success(TypeDict("object", desc, []))
    case BareList => Success(TypeDict("array", desc, []))
    case Str => Success(TypeDict("string", desc, []))
    case Int => Success(TypeDict("integer", desc, []))
    case Float => Success(TypeDict("number", desc, []))
    case Bool => Success(TypeDict("boolean", desc, []))
    case NoneType => Success(TypeDict("null", desc, []))
    case Other(r) => Failure(UnsupportedType(r))
  }

  /** The `properties` comprehension over a TypedDict's fields from index `i`
      on; the first field whose type fails makes the whole record fail. */
  function FieldSchemas(t: PyType, i: nat): Result<seq<(string, Json)>, SchemaError>
    requires t.TypedDict? && i <= |t.fields|
    decreases t, 0, |t.fields| - i
  {
    if i == |t.fields| then Success([])
    else
      var s :- TypeToJsonSchema(t.fields[i].ty, None);
      var rest :- FieldSchemas(t, i + 1);
      Success([(t.fields[i].name, s)] + rest)
  }

  /** `Annotated[base, *meta]` as Python's typing module builds it: an
      `Annotated` base is flattened into one `Annotated` whose metadata is
      the inner metadata followed by the outer. */
  function MkAnnotated(base: PyType, meta: seq<Meta>): (t: PyType)
    ensures t.Annotated? && (!(base.Annotated? && base.base.Annotated?) ==> !t.base.Annotated?)
  {
    if base.Annotated? then Annotated(base.base, base.meta + meta) else Annotated(base, meta)
  }

  /** The types the deriver accepts, stated without reference to the schema it builds. */
  predicate Supported(t: PyType, desc: Option<string>)
    decreases t
  {
    match t
    case Annotated(base, meta) =>
      |meta| == 1 && (desc.None? || desc.value == "") && meta[0].MetaStr?
      && Supported(base, Some(meta[0].text))
    case ListOf(args) => |args| == 1 && Supported(args[0], None)
    case DictOf(args) => |args| == 2 && args[0] == Str && Supported(args[1], None)
    case TypedDict(fields) => forall f | f in fields :: Supported(f.ty, None)
    case Other(_) => false
    case _ => true
  }

  /** The "type" entry of the schema derived for `t`. */
  function SchemaTypeName(t: PyType): string
    decreases t
  {
    match t
    case Annotated(base, _) => SchemaTypeName(base)
    case ListOf(_) => "array"
    case DictOf(_) => "object"
    case TypedDict(_) => "object"
    case Other(_) => ""
    case _ => PrimitiveName(t)
  }

  /** The description the schema carries: the innermost `Annotated` string, else `desc`. */
  function DescriptionOf(t: PyType, desc: Option<string>): Option<string>
    decreases t
  {
    if t.Annotated? && |t.meta| == 1 && t.meta[0].MetaStr? then DescriptionOf(t.base, Some(t.meta[0].text))
    else desc
  }

  function DescriptionEntry(description: Option<string>): seq<(string, Json)> {
    if description.None? then [] else [("description", JString(description.value))]
  }

  lemma TypeDictUnfold(kind: string, description: Option<string>, extra: seq<(string, Json)>)
    ensures TypeDict(kind, description, extra).entries == [("type", JString(kind))] + (DescriptionEntry(description) + extra)
    ensures extra == [] && description.None? ==> TypeDict(kind, description, extra) == JObject([("type", JString(kind))])
    ensures extra == [] && description.Some? ==>
      TypeDict(kind, description, extra) == JObject([("type", JString(kind)), ("description", JString(description.value))])
  {
  }

  lemma TypeDictEntries(kind: string, description: Option<string>, extra: seq<(string, Json)>)
    requires "type" !in Keys(extra) && "description" !in Keys(extra)
    ensures var j := TypeDict(kind, description, extra);
      && j.JObject? && j.entries[0] == ("type", JString(kind))
      && Get(j, "type") == Some(JString(kind))
      && Get(j, "description") == (if description.None? then None else Some(JString(description.value)))
  {
    var d := DescriptionEntry(description);
    var j := TypeDict(kind, description, extra);
    TypeDictUnfold(kind, description, extra);
    assert j.entries[1..] == d + extra;
    LookupAppend(d, extra, "description");
  }

  lemma TypeDictOther(kind: string, description: Option<string>, extra: seq<(string, Json)>, k: string)
    requires k != "type" && k != "description"
    ensures Get(TypeDict(kind, description, extra), k) == Lookup(extra, k)
  {
    var d := DescriptionEntry(description);
    var j := TypeDict(kind, description, extra);
    TypeDictUnfold(kind, description, extra);
    assert j.entries[1..] == d + extra;
    LookupAppend(d, extra, k);
  }

  lemma {:induction false} LookupAppend(a: seq<(string, Json)>, b: seq<(string, Json)>, k: string)
    ensures Lookup(a + b, k) == if k in Keys(a) then Lookup(a, k) else Lookup(b, k)
    decreases |a|
  {
    if a != [] {
      assert (a + b)[1..] == a[1..] + b;
      LookupAppend(a[1..], b, k);
    } else {
      assert a + b == b;
    }
  }

  /** Derivation succeeds exactly on the supported types: it is total there,
      and every other type raises. */
  lemma {:induction false} SucceedsIffSupported(t: PyType, desc: Option<string>)
    ensures TypeToJsonSchema(t, desc).Success? <==> Supported(t, desc)
    decreases t, 1
  {
    match t
    case Annotated(base, meta) =>
      if |meta| == 1 && (desc.None? || desc.value == "") && meta[0].MetaStr? {
        SucceedsIffSupported(base, Some(meta[0].text));
      }
    case ListOf(args) =>
      if |args| == 1 { SucceedsIffSupported(args[0], None); }
    case DictOf(args) =>
      if |args| == 2 { SucceedsIffSupported(args[1], None); }
    case TypedDict(fields) =>
      FieldsSucceedIffSupported(t, 0);
      assert (forall k | 0 <= k < |fields| :: Supported(fields[k].ty, None))
         <==> (forall f | f in fields :: Supported(f.ty, None));
    case _ =>
  }

  lemma {:induction false} FieldsSucceedIffSupported(t: PyType, i: nat)
    requires t.TypedDict? && i <= |t.fields|
    ensures FieldSchemas(t, i).Success? <==> forall k | i <= k < |t.fields| :: Supported(t.fields[k].ty, None)
    decreases t, 0, |t.fields| - i
  {
    if i < |t.fields| {
      SucceedsIffSupported(t.fields[i].ty, None);
      FieldsSucceedIffSupported(t, i + 1);
    }
  }

  /** Every derived schema is an object whose first entry and "type" entry give
      the JSON type of `t`, and whose "description" entry is present exactly
      when an `Annotated` string or an outer description supplies one. */
  lemma {:induction false} SchemaShape(t: PyType, desc: Option<string>)
    requires TypeToJsonSchema(t, desc).Success?
    ensures var j := TypeToJsonSchema(t, desc).value;
      && j.JObject? && |j.entries| >= 1
      && j.entries[0] == ("type", JString(SchemaTypeName(t)))
      && Get(j, "type") == Some(JString(SchemaTypeName(t)))
      && Get(j, "description") == (if DescriptionOf(t, desc).None? then None
                                   else Some(JString(DescriptionOf(t, desc).value)))
    decreases t
  {
    if t.Annotated? {
      SchemaShape(t.base, Some(t.meta[0].text));
    } else if IsPrimitive(t) {
      assert TypeToJsonSchema(t, desc).value == TypeDict(PrimitiveName(t), desc, []);
      TypeDictEntries(PrimitiveName(t), desc, []);
    } else {
      ContainerShape(t, desc);
    }
  }

  lemma ContainerShape(t: PyType, desc: Option<string>)
    requires t.ListOf? || t.DictOf? || t.TypedDict?
    requires TypeToJsonSchema(t, desc).Success?
    ensures var j := TypeToJsonSchema(t, desc).value;
      && j.JObject? && |j.entries| >= 1
      && j.entries[0] == ("type", JString(SchemaTypeName(t)))
      && Get(j, "type") == Some(JString(SchemaTypeName(t)))
      && Get(j, "description") == (if desc.None? then None else Some(JString(desc.value)))
  {
    match t
    case ListOf(args) =>
      var extra := [("items", TypeToJsonSchema(args[0], None).value)];
      assert TypeToJsonSchema(t, desc).value == TypeDict("array", desc, extra);
      TypeDictEntries("array", desc, extra);
    case DictOf(args) =>
      var extra := [("additionalProperties", TypeToJsonSchema(args[1], None).value)];
      assert TypeToJsonSchema(t, desc).value == TypeDict("object", desc, extra);
      TypeDictEntries("object", desc, extra);
    case TypedDict(fields) =>
      var extra := [("properties", JObject(FieldSchemas(t, 0).value))];
      assert TypeToJsonSchema(t, desc).value == TypeDict("object", desc, extra);
      TypeDictEntries("object", desc, extra);
  }

  /** Each primitive maps to its fixed schema type and carries nothing else
      but the description it is given. */
  lemma PrimitiveSchemas(t: PyType, desc: Option<string>)
    requires IsPrimitive(t)
    ensures TypeToJsonSchema(t, None) == Success(JObject([("type", JString(PrimitiveName(t)))]))
    ensures desc.Some? ==>
      TypeToJsonSchema(t, desc) == Success(JObject([("type", JString(PrimitiveName(t))), ("description", JString(desc.value))]))
  {
    TypeDictUnfold(PrimitiveName(t), None, []);
    TypeDictUnfold(PrimitiveName(t), desc, []);
  }

  /** `Annotated[T, s]` is T's schema with description `s`; any other arity,
      metadata that is not a string, or an outer description rejects it. */
  lemma AnnotatedRules(base: PyType, meta: seq<Meta>, desc: Option<string>)
    ensures |meta| != 1 ==> TypeToJsonSchema(Annotated(base, meta), desc) == Failure(AssertionFailed(AnnotatedArity))
    ensures |meta| == 1 && desc.Some? && desc.value != "" ==>
      TypeToJsonSchema(Annotated(base, meta), desc) == Failure(AssertionFailed(AnnotatedOuterDescription))
    ensures |meta| == 1 && desc.None? && meta[0].MetaOther? ==>
      TypeToJsonSchema(Annotated(base, meta), desc) == Failure(AssertionFailed(AnnotatedMetadataNotStr))
    ensures |meta| == 1 && desc.None? && meta[0].MetaStr? ==>
      TypeToJsonSchema(Annotated(base, meta), desc) == TypeToJsonSchema(base, Some(meta[0].text))
  {
  }

  /** Python never builds a nested `Annotated`: the flattened form has two
      metadata entries and fails the arity check. */
  lemma NestedAnnotatedRejected(base: PyType, inner: Meta, outer: Meta)
    ensures TypeToJsonSchema(MkAnnotated(MkAnnotated(base, [inner]), [outer]), None).Failure?
  {
    if base.Annotated? {
      assert |MkAnnotated(MkAnnotated(base, [inner]), [outer]).meta| == |base.meta| + 2;
    } else {
      assert MkAnnotated(MkAnnotated(base, [inner]), [outer]) == Annotated(base, [inner, outer]);
    }
  }

  /** `list[T]` is an array whose "items" entry is T's schema. */
  lemma ListSchema(elem: PyType, desc: Option<string>)
    requires TypeToJsonSchema(elem, None).Success?
    ensures TypeToJsonSchema(ListOf([elem]), desc).Success?
    ensures var j := TypeToJsonSchema(ListOf([elem]), desc).value;
      Get(j, "type") == Some(JString("array")) && Get(j, "items") == Some(TypeToJsonSchema(elem, None).value)
  {
    var e := TypeToJsonSchema(elem, None).value;
    assert TypeToJsonSchema(ListOf([elem]), desc) == Success(TypeDict("array", desc, [("items", e)]));
    TypeDictEntries("array", desc, [("items", e)]);
    TypeDictOther("array", desc, [("items", e)], "items");
  }

  /** `dict[K, V]` with a key type other than `str` is rejected. */
  lemma DictKeyRejected(key: PyType, elem: PyType, desc: Option<string>)
    requires key != Str
    ensures TypeToJsonSchema(DictOf([key, elem]), desc) == Failure(AssertionFailed(DictKeyNotStr))
  {
  }

  /** `dict[str, V]` is an object whose "additionalProperties" entry is V's schema. */
  lemma DictSchema(elem: PyType, desc: Option<string>)
    requires TypeToJsonSchema(elem, None).Success?
    ensures TypeToJsonSchema(DictOf([Str, elem]), desc).Success?
    ensures var j := TypeToJsonSchema(DictOf([Str, elem]), desc).value;
      && Get(j, "type") == Some(JString("object"))
      && Get(j, "additionalProperties") == Some(TypeToJsonSchema(elem, None).value)
  {
    var e := TypeToJsonSchema(elem, None).value;
    assert TypeToJsonSchema(DictOf([Str, elem]), desc) == Success(TypeDict("object", desc, [("additionalProperties", e)]));
    TypeDictEntries("object", desc, [("additionalProperties", e)]);
    TypeDictOther("object", desc, [("additionalProperties", e)], "additionalProperties");
  }

  /** A TypedDict becomes an object with one "properties" entry per field, in
      field order, each the field type's schema, and no "required" entry. */
  lemma TypedDictSchema(t: PyType, desc: Option<string>)
    requires t.TypedDict? && TypeToJsonSchema(t, desc).Success?
    ensures var j := TypeToJsonSchema(t, desc).value;
      && Get(j, "type") == Some(JString("object"))
      && Get(j, "required") == None
      && Get(j, "properties").Some? && Get(j, "properties").value.JObject?
      && var props := Get(j, "properties").value.entries;
         && |props| == |t.fields|
         && forall k :: 0 <= k < |props| ==>
              props[k].0 == t.fields[k].name
              && TypeToJsonSchema(t.fields[k].ty, None) == Success(props[k].1)
  {
    var props := FieldSchemas(t, 0).value;
    TypeDictEntries("object", desc, [("properties", JObject(props))]);
    TypeDictOther("object", desc, [("properties", JObject(props))], "properties");
    TypeDictOther("object", desc, [("properties", JObject(props))], "required");
    FieldSchemasEntries(t, 0);
  }

  lemma {:induction false} FieldSchemasEntries(t: PyType, i: nat)
    requires t.TypedDict? && i <= |t.fields| && FieldSchemas(t, i).Success?
    ensures var props := FieldSchemas(t, i).value;
      && |props| == |t.fields| - i
      && forall k :: 0 <= k < |props| ==>
           props[k].0 == t.fields[i + k].name
           && TypeToJsonSchema(t.fields[i + k].ty, None) == Success(props[k].1)
    decreases |t.fields| - i
  {
    if i < |t.fields| {
      FieldSchemasEntries(t, i + 1);
    }
  }

  lemma FieldSchemasStep(t: PyType, i: nat)
    requires t.TypedDict? && i < |t.fields|
    requires TypeToJsonSchema(t.fields[i].ty, None).Success? && FieldSchemas(t, i + 1).Success?
    ensures FieldSchemas(t, i)
      == Success([(t.fields[i].name, TypeToJsonSchema(t.fields[i].ty, None).value)] + FieldSchemas(t, i + 1).value)
  {
  }

  function UserRecord(): PyType {
    TypedDict([Field("name", Str), Field("age", Int), Field("email", Str),
               Field("is_active", Bool), Field("blah", NoneType)])
  }

  lemma UserFields()
    ensures FieldSchemas(UserRecord(), 0) == Success([
      ("name", JObject([("type", JString("string"))])),
      ("age", JObject([("type", JString("integer"))])),
      ("email", JObject([("type", JString("string"))])),
      ("is_active", JObject([("type", JString("boolean"))])),
      ("blah", JObject([("type", JString("null"))]))])
  {
    var t := UserRecord();
    PrimitiveSchemas(Str, None);
    PrimitiveSchemas(Int, None);
    PrimitiveSchemas(Bool, None);
    PrimitiveSchemas(NoneType, None);
    var sS, sI, sB, sN := JObject([("type", JString("string"))]), JObject([("type", JString("integer"))]),
                                JObject([("type", JString("boolean"))]), JObject([("type", JString("null"))]);
    assert FieldSchemas(t, 5) == Success([]);
    FieldSchemasStep(t, 4);
    assert FieldSchemas(t, 4).value == [("blah", sN)];
    FieldSchemasStep(t, 3);
    assert FieldSchemas(t, 3).value == [("is_active", sB), ("blah", sN)];
    FieldSchemasStep(t, 2);
    assert FieldSchemas(t, 2).value == [("email", sS), ("is_active", sB), ("blah", sN)];
    FieldSchemasStep(t, 1);
    assert FieldSchemas(t, 1).value == [("age", sI), ("email", sS), ("is_active", sB), ("blah", sN)];
    FieldSchemasStep(t, 0);
    assert FieldSchemas(t, 0).value == [("name", sS), ("age", sI), ("email", sS), ("is_active", sB), ("blah", sN)];
  }

  /** The record from tool.py's own test: five fields of distinct primitive
      types; and the bare `dict`. */
  lemma UserRecordExample()
    ensures TypeToJsonSchema(UserRecord(), None)
      == Success(JObject([("type", JString("object")),
                          ("properties", JObject([
                             ("name", JObject([("type", JString("string"))])),
                             ("age", JObject([("type", JString("integer"))])),
                             ("email", JObject([("type", JString("string"))])),
                             ("is_active", JObject([("type", JString("boolean"))])),
                             ("blah", JObject([("type", JString("null"))]))]))]))
    ensures TypeToJsonSchema(BareDict, None) == Success(JObject([("type", JString("object"))]))
  {
    var t := UserRecord();
    PrimitiveSchemas(BareDict, None);
    UserFields();
    var extra := [("properties", JObject(FieldSchemas(t, 0).value))];
    TypeDictUnfold("object", None, extra);
    assert [("type", JString("object"))] + ([] + extra) == [("type", JString("object")), extra[0]];
    assert TypeToJsonSchema(t, None) == Success(JObject([("type", JString("object")), extra[0]]));
  }
}
