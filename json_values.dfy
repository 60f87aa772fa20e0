/** Decoded JSON values as Ruby holds them after `JSON.parse`, and the two
    Ruby operations the library applies to such values: indexing with a
    string key (`value["key"]`) and `to_i`. */
module JsonValues {
  import opened Ruby
  import opened Strings

  /** Objects become Ruby Hashes (keyed lookup, no order relied on); numbers
      are integers. */
  datatype Json =
    | JNull
    | JBool(b: bool)
    | JNumber(n: int)
    | JString(s: string)
    | JArray(items: seq<Json>)
    | JObject(fields: map<string, Json>)

  /** Ruby truthiness: only nil and false are false. */
  predicate Truthy(j: Json) {
    !(j.JNull? || j == JBool(false))
  }

  /** `Hash#[]` on a decoded object: nil for a missing key. */
  function Get(m: map<string, Json>, key: string): (r: Json)
    ensures key in m ==> r == m[key]
    ensures key !in m ==> r == JNull
  {
    if key in m then m[key] else JNull
  }

  /** `value[key]` for a string key, by the kind of the receiver: a Hash
      looks the key up; a String answers the key itself when it occurs in
      the text and nil otherwise; an Array or an Integer cannot take a
      string index (TypeError); nil and booleans have no `[]`. */
  function Index(j: Json, key: string): (r: Result<Json>)
    ensures r.Ok? <==> j.JObject? || j.JString?
    ensures j.JObject? ==> r.value == Get(j.fields, key)
    ensures j.JString? ==> r.value == (if Contains(j.s, key) then JString(key) else JNull)
    ensures (j.JArray? || j.JNumber?) ==> r == Raise(TypeError)
  {
    match j
    case JObject(m) => Ok(Get(m, key))
    case JString(s) => Ok(if Contains(s, key) then JString(key) else JNull)
    case JArray(_) => Raise(TypeError)
    case JNumber(_) => Raise(TypeError)
    case _ => Raise(NoMethodError("[]"))
  }

  /** `to_i`: nil is 0, an Integer is itself, a String is read by
      `String#to_i`; booleans, Arrays and Hashes have no `to_i`. */
  function ToI(j: Json): (r: Result<int>)
    ensures j.JNull? ==> r == Ok(0)
    ensures j.JNumber? ==> r == Ok(j.n)
    ensures j.JString? ==> r == Ok(StrToI(j.s))
    ensures r.Raise? <==> (j.JBool? || j.JArray? || j.JObject?)
  {
    match j
    case JNull => Ok(0)
    case JNumber(n) => Ok(n)
    case JString(s) => Ok(StrToI(s))
    case _ => Raise(NoMethodError("to_i"))
  }
}
