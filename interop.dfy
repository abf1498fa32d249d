/**
 * What the SDK sends against what the collector accepts: the client's JSON encodings
 * (Sources/ContextKit) checked against the zod schemas (backend/src/schemas.ts).
 */
module Interop {
  import opened Wrappers
  import opened Json
  import opened Schemas
  import Time
  import Geo
  import Device
  import User
  import Session
  import Snapshot
  import Event
  import AnyCodable
  import Api

  /** The ranges the calendar guarantees for a captured time context. */
  predicate TimeInRange(t: Time.TimeContext) {
    0 <= t.hour <= 23 && 1 <= t.dayOfWeek <= 7
  }

  lemma TimeEncodingAccepted(t: Time.TimeContext)
    requires TimeInRange(t)
    ensures TimeContextValid(Time.Encode(t))
  {
    var j := Time.Encode(t);
    assert Field(j, "hour") == Some(JNum(t.hour as real));
    assert Field(j, "day_of_week") == Some(JNum(t.dayOfWeek as real));
    assert Field(j, "day_period") == Some(JString(Time.PeriodName(t.dayPeriod)));
    assert Time.PeriodName(t.dayPeriod) in DayPeriods;
  }

  /**
   * Every time context the SDK captures from calendar readings in range, and the empty one
   * sent when time collection is off, passes the time schema.
   */
  lemma CapturedTimeAccepted(hour: Option<int>, weekday: Option<int>, timezone: string, clock: Time.ClockReading)
    requires hour.Some? ==> 0 <= hour.value <= 23
    requires weekday.Some? ==> 1 <= weekday.value <= 7
    ensures TimeContextValid(Time.Encode(Time.Capture(hour, weekday, timezone, clock)))
    ensures TimeContextValid(Time.Encode(Time.Empty()))
  {
    Time.CaptureInRange(hour, weekday, timezone, clock);
    TimeEncodingAccepted(Time.Capture(hour, weekday, timezone, clock));
    TimeEncodingAccepted(Time.Empty());
  }

  /** Out-of-range hours are refused: the schema is stricter than the SDK's record type. */
  lemma HourOutOfRangeRefused(t: Time.TimeContext)
    requires t.hour < 0 || t.hour > 23
    ensures !TimeContextValid(Time.Encode(t))
  {
    assert Field(Time.Encode(t), "hour") == Some(JNum(t.hour as real));
  }

  lemma GeoEncodingAccepted(g: Geo.GeoContext)
    ensures GeoContextValid(Geo.Encode(g))
  {
  }

  /** The readings of an encoded device record: its two texts and four dimensions. */
  lemma DeviceReadingsAccepted(d: Device.DeviceContext)
    ensures var j := Device.Encode(d);
      StringAt(j, "model") && StringAt(j, "os_version") && NumberAt(j, "screen_width")
      && NumberAt(j, "screen_height") && NumberAt(j, "screen_scale") && NumberAt(j, "battery_level")
  {
    Device.EncodeTextFields(d);
    Device.EncodeScreenFields(d);
  }

  /** The states of an encoded device record: its two enums, the power mode and the two capacities. */
  lemma DeviceStatesAccepted(d: Device.DeviceContext)
    ensures var j := Device.Encode(d);
      OneOf(j, "battery_state", BatteryStates) && OneOf(j, "network_type", NetworkTypes)
      && BoolAt(j, "is_low_power_mode") && NumberAt(j, "available_disk_space") && NumberAt(j, "total_memory")
  {
    Device.EncodeTextFields(d);
    Device.EncodeResourceFields(d);
    DeviceEnumsMatch();
  }

  lemma DeviceEncodingAccepted(d: Device.DeviceContext)
    ensures DeviceContextValid(Device.Encode(d))
  {
    DeviceReadingsAccepted(d);
    DeviceStatesAccepted(d);
  }

  lemma UserEncodingAccepted(u: User.UserContext)
    ensures UserContextValid(User.Encode(u))
  {
    User.RoundTrip(u);
  }

  lemma SessionEncodingAccepted(s: Session.SessionContext)
    ensures SessionContextValid(Session.Encode(s))
  {
    Session.RoundTrip(s);
  }

  /** A snapshot with its time in range, encoded with ISO-8601 dates as uploads are, passes the snapshot schema. */
  lemma SnapshotEncodingAccepted(s: Snapshot.ContextSnapshot)
    requires TimeInRange(s.time)
    ensures ContextSnapshotValid(Snapshot.Encode(s, Snapshot.Iso8601))
  {
    TimeEncodingAccepted(s.time);
    GeoEncodingAccepted(s.geo);
    DeviceEncodingAccepted(s.device);
    UserEncodingAccepted(s.user);
    SessionEncodingAccepted(s.session);
  }

  /** The persisted form writes dates as numbers, which the schema's date strings refuse. */
  lemma PersistedSnapshotRefused(s: Snapshot.ContextSnapshot)
    ensures !ContextSnapshotValid(Snapshot.Encode(s, Snapshot.DeferredToDate))
  {
  }

  predicate Uploadable(e: Event.ContextEvent) {
    TimeInRange(e.context.time) && forall k :: k in e.properties ==> AnyCodable.Supported(e.properties[k])
  }

  lemma EventEncodingAccepted(e: Event.ContextEvent)
    requires Uploadable(e)
    ensures Event.Encode(e, Snapshot.Iso8601).Ok?
    ensures ContextEventValid(Event.Encode(e, Snapshot.Iso8601).value)
  {
    SnapshotEncodingAccepted(e.context);
  }

  /** A queue of uploadable events encodes to an array whose every item passes the event schema. */
  lemma QueueEncodingAccepted(events: seq<Event.ContextEvent>)
    requires forall i :: 0 <= i < |events| ==> Uploadable(events[i])
    ensures Event.EncodeQueue(events, Snapshot.Iso8601).Ok?
    ensures Event.EncodeQueue(events, Snapshot.Iso8601).value.JArray?
    ensures |Event.EncodeQueue(events, Snapshot.Iso8601).value.items| == |events|
    ensures forall i :: 0 <= i < |events| ==> ContextEventValid(Event.EncodeQueue(events, Snapshot.Iso8601).value.items[i])
  {
    forall i | 0 <= i < |events|
      ensures Event.Encode(events[i], Snapshot.Iso8601).Ok?
      ensures ContextEventValid(Event.Encode(events[i], Snapshot.Iso8601).value)
    {
      EventEncodingAccepted(events[i]);
    }
  }

  /**
   * The collector accepts a batch the SDK uploads exactly when it holds 1 to 100 events and
   * the API key has the "ck_live_"/"ck_test_" prefix: the SDK sends its whole queue, so a
   * queue past 100 events is refused as a whole.
   */
  lemma BatchAcceptedIff(apiKey: string, events: seq<Event.ContextEvent>, now: real)
    requires forall i :: 0 <= i < |events| ==> Uploadable(events[i])
    ensures Api.BatchPayload(apiKey, events, now).Ok?
    ensures EventBatchPayloadValid(Api.BatchPayload(apiKey, events, now).value) <==> ApiKeyPattern(apiKey) && 1 <= |events| <= 100
  {
    QueueEncodingAccepted(events);
    var queue := Event.EncodeQueue(events, Snapshot.Iso8601).value;
    var j := Api.BatchPayload(apiKey, events, now).value;
    assert Field(j, "events") == Some(queue);
    assert EventArrayValid(queue) <==> 1 <= |events| <= 100;
  }

  /**
   * The Swift `Recommendation` decoder under `convertFromSnakeCase`. The keys "action",
   * "confidence" and "benchmark" hold no underscore and reach their coding keys unchanged
   * (SnakeCase.PlainKeyUnchanged); the coding key "expected_impact" is matched by no converted
   * key (SnakeCase.NothingConvertsToExpectedImpact), so `decodeIfPresent` finds nothing for it.
   */
  function DecodeRecommendation(j: Json): (r: Option<Api.Recommendation>)
    ensures r.Some? <==> (StringField(j, "action").Some? && NumField(j, "confidence").Some?
      && OptionalStringField(j, "benchmark").Some?)
    ensures r.Some? ==> StringField(j, "action") == Some(r.value.action) && NumField(j, "confidence") == Some(r.value.confidence)
    ensures r.Some? ==> OptionalStringField(j, "benchmark") == Some(r.value.benchmark) && r.value.expectedImpact == None
  {
    var action :- StringField(j, "action");
    var confidence :- NumField(j, "confidence");
    var benchmark :- OptionalStringField(j, "benchmark");
    Some(Api.Recommendation(action, confidence, benchmark, None))
  }

  /** Every recommendation the collector's schema allows decodes in the SDK, with its confidence in [0, 1]. */
  lemma RecommendationDecodes(j: Json)
    requires RecommendationValid(j)
    ensures DecodeRecommendation(j).Some?
    ensures 0.0 <= DecodeRecommendation(j).value.confidence <= 1.0
  {
  }

  /**
   * The collector's "expected_impact" never reaches the SDK: whatever the key holds, even a
   * value of the wrong type, the decoded recommendation is the same and has no expected impact.
   */
  lemma ExpectedImpactIgnored(fields: map<string, Json>, impact: Json)
    ensures DecodeRecommendation(JObject(fields["expected_impact" := impact])) == DecodeRecommendation(JObject(fields))
    ensures DecodeRecommendation(JObject(fields)).Some? ==> DecodeRecommendation(JObject(fields)).value.expectedImpact == None
  {
    var j, k := JObject(fields), JObject(fields["expected_impact" := impact]);
    assert Field(k, "action") == Field(j, "action");
    assert Field(k, "confidence") == Field(j, "confidence");
    assert Field(k, "benchmark") == Field(j, "benchmark");
  }
}
