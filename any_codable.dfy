/**
 * `AnyCodable` (Sources/ContextKit/Core/ContextEvent.swift): the type-erased property values
 * of an event and their JSON coding.
 */
module AnyCodable {
  import opened Wrappers
  import opened Json

  /**
   * A property value handed to the SDK as `Any`. `AOther` is any other Swift value, with
   * whether it conforms to `CustomStringConvertible`.
   */
  datatype AnyValue =
    | ABool(b: bool)
    | AInt(i: int)
    | ADouble(d: real)
    | AString(s: string)
    | AArray(items: seq<AnyValue>)
    | ADict(entries: map<string, AnyValue>)
    | AOther(typeName: string, convertible: bool)

  /** The values `encode(to:)` accepts: everything but `AOther`, at any depth. */
  predicate Supported(v: AnyValue) {
    match v
    case AOther(_, _) => false
    case AArray(items) => forall i :: 0 <= i < |items| ==> Supported(items[i])
    case ADict(entries) => forall k :: k in entries ==> Supported(entries[k])
    case _ => true
  }

  /** `encode(to:)`: the first matching case of its `switch`; an unsupported value throws. */
  function Encode(v: AnyValue): (r: Result<Json, string>)
    ensures r.Ok? <==> Supported(v)
    ensures r.Ok? ==> r.value != JNull
  {
    match v
    case ABool(b) => Ok(JBool(b))
    case AInt(i) => Ok(JNum(i as real))
    case ADouble(d) => Ok(JNum(d))
    case AString(s) => Ok(JString(s))
    case AArray(items) =>
      if forall i :: 0 <= i < |items| ==> Encode(items[i]).Ok? then
        Ok(JArray(seq(|items|, i requires 0 <= i < |items| => Encode(items[i]).value)))
      else Err("Unsupported type")
    case ADict(entries) =>
      if forall k :: k in entries ==> Encode(entries[k]).Ok? then
        Ok(JObject(map k | k in entries :: Encode(entries[k]).value))
      else Err("Unsupported type")
    case AOther(_, _) => Err("Unsupported type")
  }

  /**
   * `init(from:)`: Bool, then Int (an integral number), then Double, then String, then an
   * array, then an object; `null` matches none of them and throws.
   */
  function Decode(j: Json): (r: Result<AnyValue, string>)
    ensures r.Ok? <==> NullFree(j)
  {
    match j
    case JBool(b) => Ok(ABool(b))
    case JNum(n) => if IsIntegral(n) then Ok(AInt(n.Floor)) else Ok(ADouble(n))
    case JString(s) => Ok(AString(s))
    case JArray(items) =>
      if forall i :: 0 <= i < |items| ==> Decode(items[i]).Ok? then
        Ok(AArray(seq(|items|, i requires 0 <= i < |items| => Decode(items[i]).value)))
      else Err("Unsupported type")
    case JObject(fields) =>
      if forall k :: k in fields ==> Decode(fields[k]).Ok? then
        Ok(ADict(map k | k in fields :: Decode(fields[k]).value))
      else Err("Unsupported type")
    case JNull => Err("Unsupported type")
  }

  /** A document with no `null` at any depth. */
  predicate NullFree(j: Json) {
    match j
    case JNull => false
    case JArray(items) => forall i :: 0 <= i < |items| ==> NullFree(items[i])
    case JObject(fields) => forall k :: k in fields ==> NullFree(fields[k])
    case _ => true
  }

  /** What a value reads back as: a Double with no fractional part comes back as an Int. */
  function Normalize(v: AnyValue): AnyValue {
    match v
    case ADouble(d) => if IsIntegral(d) then AInt(d.Floor) else v
    case AArray(items) => AArray(seq(|items|, i requires 0 <= i < |items| => Normalize(items[i])))
    case ADict(entries) => ADict(map k | k in entries :: Normalize(entries[k]))
    case _ => v
  }

  /** Encoding then decoding gives back the value, up to integral Doubles becoming Ints. */
  lemma {:induction false} DecodeEncode(v: AnyValue)
    requires Supported(v)
    ensures Decode(Encode(v).value) == Ok(Normalize(v))
  {
    match v
    case AArray(items) =>
      forall i | 0 <= i < |items| {
        DecodeEncode(items[i]);
      }
      var encoded := Encode(v).value.items;
      assert forall i :: 0 <= i < |items| ==> Decode(encoded[i]) == Ok(Normalize(items[i]));
      assert Decode(Encode(v).value).value.items == Normalize(v).items;
    case ADict(entries) =>
      forall k | k in entries {
        DecodeEncode(entries[k]);
      }
      var encoded := Encode(v).value.fields;
      assert forall k :: k in entries ==> Decode(encoded[k]) == Ok(Normalize(entries[k]));
      assert Decode(Encode(v).value).value.entries == Normalize(v).entries;
    case _ =>
  }

  /** Decoding then encoding gives back the document exactly. */
  lemma {:induction false} EncodeDecode(j: Json)
    requires NullFree(j)
    ensures Encode(Decode(j).value) == Ok(j)
  {
    match j
    case JArray(items) =>
      forall i | 0 <= i < |items| {
        EncodeDecode(items[i]);
      }
      var decoded := Decode(j).value.items;
      assert forall i :: 0 <= i < |items| ==> Encode(decoded[i]) == Ok(items[i]);
      assert Encode(Decode(j).value).value.items == items;
    case JObject(fields) =>
      forall k | k in fields {
        EncodeDecode(fields[k]);
      }
      var decoded := Decode(j).value.entries;
      assert forall k :: k in fields ==> Encode(decoded[k]) == Ok(fields[k]);
      assert Encode(Decode(j).value).value.fields == fields;
    case _ =>
  }

  /** Property maps: `encode` of `[String: AnyCodable]`, failing if any value is unsupported. */
  function EncodeProperties(props: map<string, AnyValue>): (r: Result<map<string, Json>, string>)
    ensures r.Ok? <==> forall k :: k in props ==> Supported(props[k])
    ensures r.Ok? ==> r.value.Keys == props.Keys
  {
    if forall k :: k in props ==> Encode(props[k]).Ok? then
      Ok(map k | k in props :: Encode(props[k]).value)
    else Err("Unsupported type")
  }

  function DecodeProperties(j: Json): (r: Option<map<string, AnyValue>>)
    ensures r.Some? ==> j.JObject? && r.value.Keys == j.fields.Keys
  {
    if j.JObject? && forall k :: k in j.fields ==> Decode(j.fields[k]).Ok? then
      Some(map k | k in j.fields :: Decode(j.fields[k]).value)
    else None
  }

  function NormalizeProperties(props: map<string, AnyValue>): (n: map<string, AnyValue>)
    ensures n.Keys == props.Keys && forall k :: k in n ==> n[k] == Normalize(props[k])
  {
    map k | k in props :: Normalize(props[k])
  }

  lemma PropertiesRoundTrip(props: map<string, AnyValue>)
    requires forall k :: k in props ==> Supported(props[k])
    ensures DecodeProperties(JObject(EncodeProperties(props).value)) == Some(NormalizeProperties(props))
  {
    var fields := EncodeProperties(props).value;
    forall k | k in props {
      DecodeEncode(props[k]);
    }
    assert forall k :: k in fields ==> Decode(fields[k]) == Ok(Normalize(props[k]));
    assert DecodeProperties(JObject(fields)).value == NormalizeProperties(props);
  }
}
