/**
 * JSON documents as trees. Printing and parsing JSON text is not modelled; a number is a
 * `real` because a JSON number carries no integer/floating distinction (Foundation's encoder
 * writes the Double 3.0 as `3`, and both Swift's decoder and JavaScript read `3` back as an
 * integer).
 */
module Json {
  import opened Wrappers

  datatype Json =
    | JNull
    | JBool(b: bool)
    | JNum(n: real)
    | JString(s: string)
    | JArray(items: seq<Json>)
    | JObject(fields: map<string, Json>)

  /** A number with no fractional part: what Swift decodes as `Int` and zod's `.int()` accepts. */
  predicate IsIntegral(r: real) {
    r.Floor as real == r
  }

  /** The integer a JSON number stands for, if it is integral. */
  function AsInt(j: Json): (r: Option<int>)
    ensures r.Some? <==> j.JNum? && IsIntegral(j.n)
    ensures r.Some? ==> j == JNum(r.value as real)
  {
    if j.JNum? && IsIntegral(j.n) then Some(j.n.Floor) else None
  }

  function Field(j: Json, key: string): Option<Json> {
    if j.JObject? && key in j.fields then Some(j.fields[key]) else None
  }

  /** The typed readers below succeed exactly when the key is present with a value of that type. */
  function IntField(j: Json, key: string): Option<int> {
    match Field(j, key)
    case Some(v) => AsInt(v)
    case None => None
  }

  function NumField(j: Json, key: string): Option<real> {
    match Field(j, key)
    case Some(JNum(n)) => Some(n)
    case _ => None
  }

  function BoolField(j: Json, key: string): Option<bool> {
    match Field(j, key)
    case Some(JBool(b)) => Some(b)
    case _ => None
  }

  function StringField(j: Json, key: string): Option<string> {
    match Field(j, key)
    case Some(JString(s)) => Some(s)
    case _ => None
  }

  /**
   * Swift's `decodeIfPresent` for a `String?`: an absent key or `null` is `nil`, a string is
   * that string, and any other value fails the decode (outer None).
   */
  function OptionalStringField(j: Json, key: string): Option<Option<string>> {
    match Field(j, key)
    case None => Some(None)
    case Some(JNull) => Some(None)
    case Some(JString(s)) => Some(Some(s))
    case Some(_) => None
  }

  /** The fields of an object for an optional string: omitted when nil (`encodeIfPresent`). */
  function WithOptionalString(fields: map<string, Json>, key: string, v: Option<string>): map<string, Json> {
    if v.Some? then fields[key := JString(v.value)] else fields
  }

  /** A JSON object whose every value is a string, read as a string dictionary. */
  function AsStringMap(j: Json): (r: Option<map<string, string>>)
    ensures r.Some? <==> j.JObject? && forall k :: k in j.fields ==> j.fields[k].JString?
    ensures r.Some? ==> r.value.Keys == j.fields.Keys
  {
    if j.JObject? && forall k :: k in j.fields ==> j.fields[k].JString? then
      Some(map k | k in j.fields :: j.fields[k].s)
    else
      None
  }

  function StringMapJson(m: map<string, string>): Json {
    JObject(map k | k in m :: JString(m[k]))
  }

  lemma StringMapRoundTrip(m: map<string, string>)
    ensures AsStringMap(StringMapJson(m)) == Some(m)
  {
    var j := StringMapJson(m);
    assert forall k :: k in j.fields ==> j.fields[k].JString?;
    var back := AsStringMap(j).value;
    assert back.Keys == m.Keys;
    assert forall k :: k in m ==> back[k] == m[k];
    assert back == m;
  }
}
