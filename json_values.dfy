/** JSON-compatible values as Python builds them before `json.dumps`:
    an object is an insertion-ordered list of key/value entries, as a
    Python dict is. Floating-point numbers are not modelled. */
module JsonValues {
  import opened Wrappers

  datatype Json =
    | JNull
    | JBool(b: bool)
    | JInt(i: int)
    | JString(s: string)
    | JArray(items: seq<Json>)
    | JObject(entries: seq<(string, Json)>)

  /** The keys of an object's entries, in insertion order. */
  function Keys(entries: seq<(string, Json)>): (ks: seq<string>)
    ensures |ks| == |entries|
    ensures forall i :: 0 <= i < |entries| ==> ks[i] == entries[i].0
  {
    if entries == [] then [] else [entries[0].0] + Keys(entries[1..])
  }

  /** The value stored under `key` (the first entry with that key). */
  function Lookup(entries: seq<(string, Json)>, key: string): (r: Option<Json>)
    ensures r.None? <==> key !in Keys(entries)
  {
    if entries == [] then None
    else if entries[0].0 == key then Some(entries[0].1)
    else Lookup(entries[1..], key)
  }

  /** `j[key]` for an object `j`; `None` when `j` is not an object or lacks the key. */
  function Get(j: Json, key: string): Option<Json> {
    if j.JObject? then Lookup(j.entries, key) else None
  }

  /** The failure object `{"success": False, "error": msg}` the tool wrappers return. */
  function FailurePayload(msg: string): Json {
    JObject([("success", JBool(false)), ("error", JString(msg))])
  }

  /** True of the objects whose "success" entry is `false` and whose "error" entry is a string. */
  predicate IsFailurePayload(j: Json) {
    Get(j, "success") == Some(JBool(false)) && Get(j, "error").Some? && Get(j, "error").value.JString?
  }

  /** The failure object is one, and carries its message. */
  lemma FailurePayloadIsFailure(msg: string)
    ensures IsFailurePayload(FailurePayload(msg))
    ensures Get(FailurePayload(msg), "error") == Some(JString(msg))
  {
    var e := FailurePayload(msg).entries;
    assert e[1..] == [("error", JString(msg))];
    assert "success" != "error" by { assert |"success"| != |"error"|; }
    assert Lookup(e, "success") == Some(JBool(false));
    assert Lookup(e[1..], "error") == Some(JString(msg));
    assert Lookup(e, "error") == Lookup(e[1..], "error");
  }
}
