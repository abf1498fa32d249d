/** Tracked events and their coding (Sources/ContextKit/Core/ContextEvent.swift). */
module Event {
  import opened Wrappers
  import opened Json
  import opened AnyCodable
  import opened Snapshot

  datatype ContextEvent = ContextEvent(
    id: string,
    name: string,
    properties: map<string, AnyValue>,
    context: ContextSnapshot,
    timestamp: real)

  /** `ContextEvent.init`: a fresh UUID, the given name, properties and context, stamped now. */
  function NewEvent(name: string, properties: map<string, AnyValue>, context: ContextSnapshot, freshId: Uuid, now: real): (e: ContextEvent)
    ensures |e.id| == 36 && e.id == freshId
    ensures e.name == name && e.properties == properties && e.context == context && e.timestamp == now
  {
    ContextEvent(freshId, name, properties, context, now)
  }

  /** The event object built from its already encoded parts (keys id, name, properties, context, timestamp). */
  function EventObject(id: string, name: string, properties: map<string, Json>, context: Json, timestamp: Json): (j: Json)
    ensures StringField(j, "id") == Some(id) && StringField(j, "name") == Some(name)
    ensures Field(j, "properties") == Some(JObject(properties))
    ensures Field(j, "context") == Some(context) && Field(j, "timestamp") == Some(timestamp)
  {
    JObject(map[
      "id" := JString(id),
      "name" := JString(name),
      "properties" := JObject(properties),
      "context" := context,
      "timestamp" := timestamp])
  }

  /** Encoding fails exactly when a property holds a value `AnyCodable` cannot encode. */
  function Encode(e: ContextEvent, strategy: DateStrategy): (r: Result<Json, string>)
    ensures r.Ok? <==> forall k :: k in e.properties ==> Supported(e.properties[k])
  {
    var properties :- EncodeProperties(e.properties);
    Ok(EventObject(e.id, e.name, properties, Snapshot.Encode(e.context, strategy), EncodeDate(e.timestamp, strategy)))
  }

  function Decode(j: Json): Option<ContextEvent> {
    var id :- StringField(j, "id");
    var name :- StringField(j, "name");
    var props :- Field(j, "properties");
    var properties :- DecodeProperties(props);
    var context :- Field(j, "context");
    var c :- Snapshot.Decode(context);
    var timestamp :- Field(j, "timestamp");
    var t :- DecodeDate(timestamp);
    Some(ContextEvent(id, name, properties, c, t))
  }

  /** What an event reads back as: its properties normalised, everything else as it was. */
  function Normalized(e: ContextEvent): (n: ContextEvent)
    ensures n.id == e.id && n.name == e.name && n.context == e.context && n.timestamp == e.timestamp
    ensures n.properties.Keys == e.properties.Keys
  {
    e.(properties := NormalizeProperties(e.properties))
  }

  /** Decoding an event object reads back each of its parts. */
  lemma DecodeEventObject(id: string, name: string, properties: map<string, Json>, context: Json, timestamp: Json)
    requires DecodeProperties(JObject(properties)).Some? && Snapshot.Decode(context).Some? && DecodeDate(timestamp).Some?
    ensures Decode(EventObject(id, name, properties, context, timestamp))
      == Some(ContextEvent(id, name, DecodeProperties(JObject(properties)).value, Snapshot.Decode(context).value, DecodeDate(timestamp).value))
  {
  }

  lemma RoundTrip(e: ContextEvent)
    requires Encode(e, DeferredToDate).Ok?
    ensures Decode(Encode(e, DeferredToDate).value) == Some(Normalized(e))
  {
    var props := EncodeProperties(e.properties).value;
    var context := Snapshot.Encode(e.context, DeferredToDate);
    PropertiesRoundTrip(e.properties);
    Snapshot.RoundTrip(e.context);
    DecodeEventObject(e.id, e.name, props, context, JNum(e.timestamp));
  }

  /** The persisted queue: an array of events, or an error if any event cannot be encoded. */
  function EncodeQueue(q: seq<ContextEvent>, strategy: DateStrategy): (r: Result<Json, string>)
    ensures r.Ok? <==> forall i :: 0 <= i < |q| ==> Encode(q[i], strategy).Ok?
    ensures r.Ok? ==> r.value.JArray? && |r.value.items| == |q|
    ensures r.Ok? ==> forall i :: 0 <= i < |q| ==> r.value.items[i] == Encode(q[i], strategy).value
  {
    if forall i :: 0 <= i < |q| ==> Encode(q[i], strategy).Ok? then
      Ok(JArray(seq(|q|, i requires 0 <= i < |q| => Encode(q[i], strategy).value)))
    else
      Err("Unsupported type")
  }

  function DecodeQueue(j: Json): (r: Option<seq<ContextEvent>>)
    ensures r.Some? ==> j.JArray? && |r.value| == |j.items|
  {
    if j.JArray? && forall i :: 0 <= i < |j.items| ==> Decode(j.items[i]).Some? then
      Some(seq(|j.items|, i requires 0 <= i < |j.items| => Decode(j.items[i]).value))
    else
      None
  }

  function NormalizedQueue(q: seq<ContextEvent>): (n: seq<ContextEvent>)
    ensures |n| == |q| && forall i :: 0 <= i < |q| ==> n[i] == Normalized(q[i])
  {
    seq(|q|, i requires 0 <= i < |q| => Normalized(q[i]))
  }

  /** A persisted queue restores to the same events, in order, with normalised properties. */
  lemma QueueRoundTrip(q: seq<ContextEvent>)
    requires EncodeQueue(q, DeferredToDate).Ok?
    ensures DecodeQueue(EncodeQueue(q, DeferredToDate).value) == Some(NormalizedQueue(q))
  {
    var items := EncodeQueue(q, DeferredToDate).value.items;
    forall i | 0 <= i < |q|
      ensures Decode(items[i]) == Some(Normalized(q[i]))
    {
      RoundTrip(q[i]);
    }
    assert DecodeQueue(EncodeQueue(q, DeferredToDate).value).value == NormalizedQueue(q);
  }

  /** `ScreenViewEvent` (the `duration` defaults to nil). */
  datatype ScreenViewEvent = ScreenViewEvent(screenName: string, duration: Option<real>, context: ContextSnapshot, timestamp: real)

  function NewScreenViewEvent(screenName: string, context: ContextSnapshot, now: real, duration: Option<real> := None): (e: ScreenViewEvent)
    ensures e.screenName == screenName && e.context == context && e.timestamp == now && e.duration == duration
  {
    ScreenViewEvent(screenName, duration, context, now)
  }

  lemma ScreenViewDurationDefault(screenName: string, context: ContextSnapshot, now: real)
    ensures NewScreenViewEvent(screenName, context, now).duration == None
  {
  }
}
