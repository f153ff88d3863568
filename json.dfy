/** JSON documents as values. Encoding and decoding (JavaScript's `JSON.parse` and
    `JSON.stringify`, Python's `json.loads`/`json.dumps`, Pydantic's JSON reader) are not
    defined here: every operation that parses takes the parser as a function-typed
    parameter, an arbitrary partial function from text to a document or an error message. */
module Json {
  import opened Wrappers

  datatype Json =
    | JNull
    | JBool(b: bool)
    | JNumber(n: int)
    | JString(s: string)
    | JArray(items: seq<Json>)
    | JObject(members: map<string, Json>)

  /** A parser: the document the text denotes, or the parser's error message. */
  type Parser = string -> Result<Json, string>

  /** `obj.key` / `obj[key]` on a parsed document: absent unless the document is an
      object holding that key. */
  function Member(j: Json, key: string): (r: Option<Json>)
    ensures r.Some? <==> j.JObject? && key in j.members
    ensures r.Some? ==> r.value == j.members[key]
  {
    if j.JObject? && key in j.members then Some(j.members[key]) else None
  }

  /** The strings of an array whose every element is a string, in order. */
  function StringItems(items: seq<Json>): (r: Option<seq<string>>)
    ensures r.Some? <==> forall i :: 0 <= i < |items| ==> items[i].JString?
    ensures r.Some? ==> |r.value| == |items| && forall i :: 0 <= i < |items| ==> r.value[i] == items[i].s
  {
    if forall i :: 0 <= i < |items| ==> items[i].JString? then
      Some(seq(|items|, i requires 0 <= i < |items| => items[i].s))
    else None
  }
}
