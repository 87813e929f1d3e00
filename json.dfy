/**
 * Parsed JSON documents, as both halves of the system see them: `serde_json::Value`
 * in the metadata worker and the result of `JSON.parse` in the browser.
 */
module Json {
  import opened Wrappers
  import Text

  /**
   * A JSON value. A number carries the text JavaScript's `String(n)` gives for it;
   * an object lists its members in document order.
   */
  datatype Json =
    | JNull
    | JBool(b: bool)
    | JNumber(repr: string)
    | JString(s: string)
    | JArray(items: seq<Json>)
    | JObject(members: seq<(string, Json)>)

  /** The value of the last member named `key` (a later duplicate overwrites an earlier one). */
  function LookupMember(members: seq<(string, Json)>, key: string): Option<Json> {
    if members == [] then None
    else
      var last := members[|members| - 1];
      if last.0 == key then Some(last.1) else LookupMember(members[..|members| - 1], key)
  }

  /** A member is found exactly when one has the key, and what is found is the last such member's value. */
  lemma {:induction false} LookupMemberFindsLast(members: seq<(string, Json)>, key: string)
    ensures var r := LookupMember(members, key);
      && (r.Some? <==> exists i :: 0 <= i < |members| && members[i].0 == key)
      && (r.Some? ==> exists i :: 0 <= i < |members| && members[i] == (key, r.value)
                       && forall j :: i < j < |members| ==> members[j].0 != key)
  {
    if members != [] && members[|members| - 1].0 != key {
      var init := members[..|members| - 1];
      LookupMemberFindsLast(init, key);
      var r := LookupMember(init, key);
      assert forall i :: 0 <= i < |init| ==> init[i] == members[i];
      if r.Some? {
        var i :| 0 <= i < |init| && init[i] == (key, r.value) && forall j :: i < j < |init| ==> init[j].0 != key;
        assert members[i] == (key, r.value);
      }
    }
  }

  /** `value.get(key)` of `serde_json`: a member of an object, and nothing for any other value. */
  function Get(v: Json, key: string): Option<Json> {
    if v.JObject? then LookupMember(v.members, key) else None
  }

  /** `value.get(key).and_then(|v| v.as_str())`: the member's text when it is a JSON string. */
  function GetStr(v: Json, key: string): (r: Option<string>)
    ensures r.Some? <==> Get(v, key).Some? && Get(v, key).value.JString?
    ensures r.Some? ==> Get(v, key) == Some(JString(r.value))
  {
    match Get(v, key)
    case Some(JString(s)) => Some(s)
    case _ => None
  }

  /**
   * JavaScript's `String(value)` for a parsed JSON value: arrays are joined with
   * commas (a `null` element contributes nothing) and objects print as `[object Object]`.
   */
  function JsString(v: Json): string
    decreases v
  {
    match v
    case JNull => "null"
    case JBool(b) => if b then "true" else "false"
    case JNumber(repr) => repr
    case JString(s) => s
    case JArray(items) =>
      Text.Join(seq(|items|, i requires 0 <= i < |items| =>
        if items[i].JNull? then "" else JsString(items[i])), ",")
    case JObject(_) => "[object Object]"
  }
}
