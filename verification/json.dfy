/**
 * JSON values as the two AI endpoints and the onboarding client exchange them. Decoding text
 * (`JSON.parse`) is not modelled: callers receive the decoder as a parameter.
 */
module Json {
  import opened Wrappers

  datatype Json =
    | JNull
    | JBool(b: bool)
    | JNumber(n: real)
    | JString(s: string)
    | JArray(items: seq<Json>)
    | JObject(fields: seq<(string, Json)>)

  /** `obj[key]` for a list of members: the last member with that key wins, as in `JSON.parse`. */
  function Lookup(fields: seq<(string, Json)>, key: string): (r: Option<Json>)
    ensures r.Some? ==> exists i :: 0 <= i < |fields| && fields[i] == (key, r.value)
    ensures r.None? ==> forall i :: 0 <= i < |fields| ==> fields[i].0 != key
  {
    if fields == [] then None
    else if fields[|fields| - 1].0 == key then Some(fields[|fields| - 1].1)
    else Lookup(fields[..|fields| - 1], key)
  }

  /** `value.key` for any value: only objects have members. */
  function Member(value: Json, key: string): Option<Json> {
    if value.JObject? then Lookup(value.fields, key) else None
  }
}
