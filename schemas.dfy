/**
 * The collector's zod schemas (backend/src/schemas.ts) as predicates over JSON trees.
 * `z.object` accepts keys it does not declare, so each predicate constrains only the keys it
 * names; `.int()` is an integral number, `.optional()` an absent key and `.nullable()` a `null`.
 */
module Schemas {
  import opened Wrappers
  import opened Json
  import Time
  import Device

  const DayPeriods: set<string> := {"morning", "afternoon", "evening", "night"}
  const BatteryStates: set<string> := {"unknown", "unplugged", "charging", "full"}
  const NetworkTypes: set<string> := {"unknown", "wifi", "cellular", "offline"}
  const InsightTypes: set<string> := {"anomaly", "trend", "benchmark", "opportunity"}
  const Severities: set<string> := {"low", "medium", "high", "critical"}

  // Field checks shared by the schemas.

  predicate StringAt(j: Json, key: string) {
    StringField(j, key).Some?
  }

  predicate NumberAt(j: Json, key: string) {
    NumField(j, key).Some?
  }

  predicate BoolAt(j: Json, key: string) {
    BoolField(j, key).Some?
  }

  /** `z.number().int()`. */
  predicate IntAt(j: Json, key: string) {
    IntField(j, key).Some?
  }

  /** `z.number().int().min(lo).max(hi)`. */
  predicate IntInRange(j: Json, key: string, lo: int, hi: int) {
    IntField(j, key).Some? && lo <= IntField(j, key).value <= hi
  }

  /** `z.enum([...])`. */
  predicate OneOf(j: Json, key: string, names: set<string>) {
    StringField(j, key).Some? && StringField(j, key).value in names
  }

  /** `z.string().optional()`: absent, or a string. */
  predicate OptionalString(j: Json, key: string) {
    Field(j, key).None? || Field(j, key).value.JString?
  }

  /** `z.string().optional().nullable()`: absent, `null` or a string. */
  predicate NullishString(j: Json, key: string) {
    OptionalStringField(j, key).Some?
  }

  /** `z.record(z.string()).optional()`: absent, or an object whose every value is a string. */
  predicate OptionalStringRecord(j: Json, key: string) {
    Field(j, key).None? || AsStringMap(Field(j, key).value).Some?
  }

  /** A nested object checked by `valid`. */
  predicate ObjectAt(j: Json, key: string, valid: Json -> bool) {
    Field(j, key).Some? && valid(Field(j, key).value)
  }

  predicate TimeContextValid(j: Json) {
    IntInRange(j, "hour", 0, 23) && IntInRange(j, "day_of_week", 1, 7) && BoolAt(j, "is_weekend")
    && StringAt(j, "timezone") && StringAt(j, "local_time") && OneOf(j, "day_period", DayPeriods)
  }

  predicate GeoContextValid(j: Json) {
    StringAt(j, "country_code") && StringAt(j, "region") && StringAt(j, "locale_identifier")
    && StringAt(j, "currency_code") && StringAt(j, "language_code")
  }

  predicate DeviceContextValid(j: Json) {
    StringAt(j, "model") && StringAt(j, "os_version") && NumberAt(j, "screen_width")
    && NumberAt(j, "screen_height") && NumberAt(j, "screen_scale") && NumberAt(j, "battery_level")
    && OneOf(j, "battery_state", BatteryStates) && OneOf(j, "network_type", NetworkTypes)
    && BoolAt(j, "is_low_power_mode") && NumberAt(j, "available_disk_space") && NumberAt(j, "total_memory")
  }

  predicate UserContextValid(j: Json) {
    j.JObject? && NullishString(j, "user_id") && NullishString(j, "segment") && IntAt(j, "session_count")
    && IntAt(j, "days_since_install") && OptionalStringRecord(j, "custom_properties")
  }

  predicate SessionContextValid(j: Json) {
    StringAt(j, "session_id") && NumberAt(j, "duration") && IntAt(j, "screen_view_count")
    && IntAt(j, "event_count") && NullishString(j, "entry_screen")
  }

  predicate ContextSnapshotValid(j: Json) {
    ObjectAt(j, "time", TimeContextValid) && ObjectAt(j, "geo", GeoContextValid)
    && ObjectAt(j, "device", DeviceContextValid) && ObjectAt(j, "user", UserContextValid)
    && ObjectAt(j, "session", SessionContextValid) && StringAt(j, "sdk_version") && StringAt(j, "captured_at")
  }

  /** `properties: z.record(z.any()).optional()`: absent, or any object. */
  predicate ContextEventValid(j: Json) {
    StringAt(j, "id") && StringAt(j, "name")
    && (Field(j, "properties").None? || Field(j, "properties").value.JObject?)
    && ObjectAt(j, "context", ContextSnapshotValid) && StringAt(j, "timestamp")
  }

  /** `/^ck_(live|test)_/`: anchored at the start only, so anything may follow the prefix. */
  predicate ApiKeyPattern(s: string) {
    |s| >= 8 && (s[..8] == "ck_live_" || s[..8] == "ck_test_")
  }

  /** The events of a batch: an array of 1 to 100 valid events. */
  predicate EventArrayValid(j: Json) {
    j.JArray? && 1 <= |j.items| <= 100 && forall i :: 0 <= i < |j.items| ==> ContextEventValid(j.items[i])
  }

  predicate EventBatchPayloadValid(j: Json) {
    StringAt(j, "api_key") && ApiKeyPattern(StringField(j, "api_key").value)
    && ObjectAt(j, "events", EventArrayValid) && StringAt(j, "sdk_version") && StringAt(j, "uploaded_at")
  }

  datatype AppEnvironment = Production | Test

  function EnvironmentName(e: AppEnvironment): string {
    match e
    case Production => "production"
    case Test => "test"
  }

  datatype Registration = Registration(name: string, environment: AppEnvironment)

  /**
   * `RegisterAppSchema.parse`: a name of 1 to 255 characters and an environment that is
   * "production" when absent. `.default` applies to an absent key only, so `null` fails.
   */
  function ParseRegisterApp(j: Json): (r: Option<Registration>)
    ensures r.Some? <==> (StringField(j, "name").Some? && 1 <= |StringField(j, "name").value| <= 255
      && (Field(j, "environment").None? || Field(j, "environment") == Some(JString("production"))
        || Field(j, "environment") == Some(JString("test"))))
    ensures r.Some? ==> 1 <= |r.value.name| <= 255 && StringField(j, "name") == Some(r.value.name)
    ensures r.Some? && Field(j, "environment").None? ==> r.value.environment == Production
    ensures r.Some? && Field(j, "environment").Some? ==> Field(j, "environment") == Some(JString(EnvironmentName(r.value.environment)))
  {
    var name :- StringField(j, "name");
    if !(1 <= |name| <= 255) then None
    else match Field(j, "environment")
      case None => Some(Registration(name, Production))
      case Some(JString("production")) => Some(Registration(name, Production))
      case Some(JString("test")) => Some(Registration(name, Test))
      case Some(_) => None
  }

  /**
   * Without an environment a name of 1 to 255 characters registers a production app; an
   * explicit `null` or an unknown environment name is refused.
   */
  lemma RegisterAppCases(name: string)
    ensures ParseRegisterApp(JObject(map["name" := JString(name)])) ==
      (if 1 <= |name| <= 255 then Some(Registration(name, Production)) else None)
    ensures ParseRegisterApp(JObject(map["name" := JString(name), "environment" := JNull])) == None
    ensures ParseRegisterApp(JObject(map["name" := JString(name), "environment" := JString("staging")])) == None
  {
    var plain := JObject(map["name" := JString(name)]);
    assert Field(plain, "environment").None?;
  }

  predicate AppResponseValid(j: Json) {
    StringAt(j, "id") && StringAt(j, "name") && StringAt(j, "api_key") && StringAt(j, "environment") && NumberAt(j, "created_at")
  }

  predicate InsightValid(j: Json) {
    OneOf(j, "type", InsightTypes) && StringAt(j, "message") && OneOf(j, "severity", Severities)
    && OptionalStringRecord(j, "affected_context") && OptionalString(j, "recommendation")
  }

  predicate RecommendationValid(j: Json) {
    StringAt(j, "action") && NumberAt(j, "confidence") && 0.0 <= NumField(j, "confidence").value <= 1.0
    && OptionalString(j, "benchmark") && OptionalString(j, "expected_impact")
  }

  /**
   * A time context the schema accepts is one the SDK's decoder reads back, with the hour and
   * the weekday in range and the day period one of the four.
   */
  lemma TimeSchemaBounds(j: Json)
    requires TimeContextValid(j)
    ensures Time.Decode(j).Some?
    ensures 0 <= Time.Decode(j).value.hour <= 23 && 1 <= Time.Decode(j).value.dayOfWeek <= 7
  {
    var name := StringField(j, "day_period").value;
    assert name in DayPeriods;
    assert Time.PeriodFromName(name).Some?;
  }

  /** The battery and network enums list exactly the names the SDK's enums encode to. */
  lemma DeviceEnumsMatch()
    ensures forall s: Device.BatteryState :: Device.BatteryStateName(s) in BatteryStates
    ensures forall n :: n in BatteryStates ==> Device.BatteryStateFromName(n).Some?
    ensures forall t: Device.NetworkType :: Device.NetworkTypeName(t) in NetworkTypes
    ensures forall n :: n in NetworkTypes ==> Device.NetworkTypeFromName(n).Some?
  {
  }

  /** The key pattern has no end anchor: whatever follows an accepted prefix is accepted too. */
  lemma ApiKeyPatternOpenEnded(key: string, suffix: string)
    requires ApiKeyPattern(key)
    ensures ApiKeyPattern(key + suffix)
    ensures ApiKeyPattern("ck_live_" + suffix) && ApiKeyPattern("ck_test_" + suffix)
    ensures !ApiKeyPattern("ck_prod_" + suffix) && !ApiKeyPattern("ck_live")
  {
    assert (key + suffix)[..8] == key[..8];
    assert ("ck_live_" + suffix)[..8] == "ck_live_";
    assert ("ck_test_" + suffix)[..8] == "ck_test_";
    assert ("ck_prod_" + suffix)[..8] == "ck_prod_";
  }

  /** A batch of more than 100 events, or of none, fails the schema whatever else it holds. */
  lemma BatchSizeBounds(j: Json)
    requires Field(j, "events").Some? && Field(j, "events").value.JArray?
    requires |Field(j, "events").value.items| == 0 || |Field(j, "events").value.items| > 100
    ensures !EventBatchPayloadValid(j)
  {
  }
}
