/**
 * The collector's data layer (backend/src/database.ts). The D1 tables become fields of a
 * `Database` object; SQL aggregate queries become oracle parameters; the clock, UUIDs and
 * random bytes are inputs.
 */
module Db {
  import opened Wrappers
  import opened Json
  import opened Text
  import opened Schemas

  datatype App = App(id: string, name: string, apiKey: string, environment: string, createdAt: int, updatedAt: int, settings: Option<string>)

  /** An `events` row. The timestamp keeps the event's ISO-8601 text; its conversion to seconds is not modelled. */
  datatype EventRow = EventRow(id: string, appId: string, eventName: string, properties: Json, context: Json, timestamp: string, createdAt: int)

  /** A `users` row; the table is keyed by (app id, user id), so the key is not repeated in the row. */
  datatype UserRow = UserRow(id: string, firstSeen: int, lastSeen: int, sessionCount: int, totalEvents: nat, properties: Json)

  datatype UsageRow = UsageRow(id: string, appId: string, endpoint: string, httpMethod: string, statusCode: int, timestamp: int)

  datatype FunnelStep = FunnelStep(step: string, index: nat, count: nat, dropoff: real)

  // API keys

  /** Lower-case hexadecimal text of bytes, two zero-padded digits each (`toString(16).padStart(2, '0')` joined). */
  function HexText(bytes: seq<byte>): (s: string)
    ensures |s| == 2 * |bytes| && forall i :: 0 <= i < |s| ==> IsLowerHex(s[i])
  {
    if |bytes| == 0 then "" else HexByte(bytes[0]) + HexText(bytes[1..])
  }

  /** Reads hexadecimal text back into bytes: the inverse of `HexText`. */
  function ParseHex(s: string): Option<seq<byte>>
    decreases |s|
  {
    if |s| == 0 then Some([])
    else if |s| == 1 || !IsLowerHex(s[0]) || !IsLowerHex(s[1]) then None
    else
      var rest :- ParseHex(s[2..]);
      Some([(HexValue(s[0]) * 16 + HexValue(s[1])) as byte] + rest)
  }

  lemma HexDigitValue(d: int)
    requires 0 <= d < 16
    ensures HexValue(HexDigit(d)) == d
  {
  }

  lemma {:induction false} HexRoundTrip(bytes: seq<byte>)
    ensures ParseHex(HexText(bytes)) == Some(bytes)
  {
    if |bytes| > 0 {
      var b := bytes[0];
      var s := HexText(bytes);
      assert s == HexByte(b) + HexText(bytes[1..]);
      assert s[2..] == HexText(bytes[1..]);
      HexDigitValue(b as int / 16);
      HexDigitValue(b as int % 16);
      HexRoundTrip(bytes[1..]);
      assert [bytes[0]] + bytes[1..] == bytes;
    }
  }

  /** `generateApiKey`: "ck_live" for production, "ck_test" otherwise, "_", then the random bytes in hex. */
  function GenerateApiKey(environment: AppEnvironment, random: seq<byte>): (key: string)
    ensures |key| == 8 + 2 * |random|
    ensures key[..8] == if environment == Production then "ck_live_" else "ck_test_"
    ensures forall i :: 8 <= i < |key| ==> IsLowerHex(key[i])
  {
    var prefix := if environment == Production then "ck_live" else "ck_test";
    var key := prefix + "_" + HexText(random);
    assert key[..8] == prefix + "_";
    key
  }

  /** A generated key passes the batch schema's key pattern, and its random part reads back as the bytes. */
  lemma GeneratedKeyWellFormed(environment: AppEnvironment, random: seq<byte>)
    ensures ApiKeyPattern(GenerateApiKey(environment, random))
    ensures ParseHex(GenerateApiKey(environment, random)[8..]) == Some(random)
  {
    var key := GenerateApiKey(environment, random);
    assert key[8..] == HexText(random);
    HexRoundTrip(random);
  }

  /** Keys from different random bytes differ. */
  lemma GeneratedKeysDistinct(e1: AppEnvironment, r1: seq<byte>, e2: AppEnvironment, r2: seq<byte>)
    requires r1 != r2
    ensures GenerateApiKey(e1, r1) != GenerateApiKey(e2, r2)
  {
    GeneratedKeyWellFormed(e1, r1);
    GeneratedKeyWellFormed(e2, r2);
  }

  // Context breakdowns

  /** A JSON path `$.<section>.<key>` into a stored context. */
  datatype JsonPath = JsonPath(section: string, key: string)

  function PathText(p: JsonPath): string {
    "$." + p.section + "." + p.key
  }

  const Dimensions: set<string> := {"country", "dayPeriod", "device", "region"}

  /** The `getEventsByContext` switch from a dimension name to the path it groups by. */
  function JsonPathFor(dimension: string): JsonPath {
    if dimension == "dayPeriod" then JsonPath("time", "day_period")
    else if dimension == "device" then JsonPath("device", "model")
    else if dimension == "region" then JsonPath("geo", "region")
    else JsonPath("geo", "country_code")
  }

  lemma CountryPathText()
    ensures PathText(JsonPathFor("country")) == "$.geo.country_code"
  {
  }

  lemma DayPeriodPathText()
    ensures PathText(JsonPathFor("dayPeriod")) == "$.time.day_period"
  {
  }

  lemma DevicePathText()
    ensures PathText(JsonPathFor("device")) == "$.device.model"
  {
  }

  lemma RegionPathText()
    ensures PathText(JsonPathFor("region")) == "$.geo.region"
  {
  }

  /** Four dimensions with their own distinct path; every other value falls back to the country path. */
  lemma DimensionPaths()
    ensures PathText(JsonPathFor("country")) == "$.geo.country_code"
    ensures PathText(JsonPathFor("dayPeriod")) == "$.time.day_period"
    ensures PathText(JsonPathFor("device")) == "$.device.model"
    ensures PathText(JsonPathFor("region")) == "$.geo.region"
    ensures forall d, e :: d in Dimensions && e in Dimensions && d != e ==> JsonPathFor(d) != JsonPathFor(e)
    ensures forall d :: d !in Dimensions ==> JsonPathFor(d) == JsonPathFor("country")
  {
    CountryPathText();
    DayPeriodPathText();
    DevicePathText();
    RegionPathText();
    assert "region" != "country_code";
  }

  // Funnels

  /** `count?.count || 0`: no row and a zero count both read as 0. */
  function CountOrZero(row: Option<nat>): nat {
    match row
    case Some(n) => n
    case None => 0
  }

  /** The percentage lost from the previous step; 0 when the previous step had nobody. */
  function Dropoff(previous: nat, current: nat): (d: real)
    ensures previous == 0 ==> d == 0.0
    ensures previous > 0 && current <= previous ==> 0.0 <= d <= 100.0
    ensures previous > 0 && current == 0 ==> d == 100.0
    ensures previous > 0 && current > previous ==> d < 0.0
  {
    if previous > 0 then ((previous - current) as real / previous as real) * 100.0 else 0.0
  }

  /**
   * `getConversionFunnel`: one entry per step in order, with its position, its distinct-user
   * count from `countUsers` (the SQL query) and the dropoff from the step before it.
   */
  method GetConversionFunnel(appId: string, steps: seq<string>, countUsers: (string, string) -> Option<nat>)
    returns (results: seq<FunnelStep>)
    ensures |results| == |steps|
    ensures forall i :: 0 <= i < |steps| ==>
      results[i].step == steps[i] && results[i].index == i && results[i].count == CountOrZero(countUsers(appId, steps[i]))
    ensures |results| > 0 ==> results[0].dropoff == 0.0
    ensures forall i :: 0 < i < |steps| ==> results[i].dropoff == Dropoff(results[i - 1].count, results[i].count)
  {
    results := [];
    var i := 0;
    while i < |steps|
      invariant 0 <= i <= |steps| && |results| == i
      invariant forall k :: 0 <= k < i ==>
        results[k].step == steps[k] && results[k].index == k && results[k].count == CountOrZero(countUsers(appId, steps[k]))
      invariant i > 0 ==> results[0].dropoff == 0.0
      invariant forall k :: 0 < k < i ==> results[k].dropoff == Dropoff(results[k - 1].count, results[k].count)
    {
      var count := CountOrZero(countUsers(appId, steps[i]));
      var dropoff := if i > 0 && results[i - 1].count > 0 then ((results[i - 1].count - count) as real / results[i - 1].count as real) * 100.0 else 0.0;
      results := results + [FunnelStep(steps[i], i, count, dropoff)];
      i := i + 1;
    }
  }

  // Ingested events and users

  /** The `user` object of an event's context, or `null` when there is none. */
  function UserOf(event: Json): Json {
    match Field(event, "context")
    case Some(context) => Field(context, "user").GetOr(JNull)
    case None => JNull
  }

  /** The user id of an event when it is truthy: a string other than "". */
  function UserIdOf(event: Json): (id: Option<string>)
    ensures id.Some? ==> id.value != ""
  {
    match Field(UserOf(event), "user_id")
    case Some(JString(s)) => if s != "" then Some(s) else None
    case _ => None
  }

  /** `custom_properties || {}`. */
  function CustomPropertiesOf(event: Json): Json {
    Field(UserOf(event), "custom_properties").GetOr(JObject(map[]))
  }

  function SessionCountOf(event: Json): int
    requires ContextEventValid(event)
  {
    IntField(UserOf(event), "session_count").value
  }

  /** The row `insertEvents` writes for one event: its own id, `properties || {}` and the whole context. */
  function EventRowFor(appId: string, event: Json, now: int): (row: EventRow)
    requires ContextEventValid(event)
    ensures StringField(event, "id") == Some(row.id) && StringField(event, "name") == Some(row.eventName)
    ensures row.appId == appId && Field(event, "context") == Some(row.context)
  {
    EventRow(StringField(event, "id").value, appId, StringField(event, "name").value,
      Field(event, "properties").GetOr(JObject(map[])), Field(event, "context").value,
      StringField(event, "timestamp").value, now)
  }

  function EventRows(appId: string, events: seq<Json>, now: int): (rows: seq<EventRow>)
    requires forall e :: e in events ==> ContextEventValid(e)
    ensures |rows| == |events|
    ensures forall i :: 0 <= i < |events| ==> rows[i] == EventRowFor(appId, events[i], now)
  {
    if |events| == 0 then [] else [EventRowFor(appId, events[0], now)] + EventRows(appId, events[1..], now)
  }

  /**
   * The row after one `upsertUser`: a new (app, user) pair is inserted with one event; an
   * existing row keeps its id and first sighting, counts one more event and takes the new
   * last sighting, session count and properties.
   */
  function Upserted(users: map<(string, string), UserRow>, appId: string, userId: string, sessionCount: int,
                    properties: Json, rowId: string, now: int): (row: UserRow)
    ensures row.lastSeen == now
    ensures row.sessionCount == sessionCount && row.properties == properties
    ensures (appId, userId) !in users ==> row.totalEvents == 1 && row.firstSeen == now && row.id == rowId
    ensures (appId, userId) in users ==> (row.totalEvents == users[(appId, userId)].totalEvents + 1
      && row.firstSeen == users[(appId, userId)].firstSeen && row.id == users[(appId, userId)].id)
  {
    if (appId, userId) in users then
      var existing := users[(appId, userId)];
      existing.(lastSeen := now, sessionCount := sessionCount, totalEvents := existing.totalEvents + 1, properties := properties)
    else
      UserRow(rowId, now, now, sessionCount, 1, properties)
  }

  /** The first app holding a key (`SELECT ... .first()`). */
  function FindApp(apps: seq<App>, apiKey: string): (app: Option<App>)
    ensures app.Some? ==> app.value in apps && app.value.apiKey == apiKey
    ensures app.None? ==> forall a :: a in apps ==> a.apiKey != apiKey
  {
    if |apps| == 0 then None
    else if apps[0].apiKey == apiKey then Some(apps[0])
    else FindApp(apps[1..], apiKey)
  }

  class Database {
    var apps: seq<App>
    var events: seq<EventRow>
    var users: map<(string, string), UserRow>
    var usage: seq<UsageRow>

    constructor(apps: seq<App>, events: seq<EventRow>, users: map<(string, string), UserRow>, usage: seq<UsageRow>)
      ensures this.apps == apps && this.events == events && this.users == users && this.usage == usage
    {
      this.apps := apps;
      this.events := events;
      this.users := users;
      this.usage := usage;
    }

    /** `getAppByApiKey`: the app holding the key, if any. */
    function GetAppByApiKey(apiKey: string): (app: Option<App>)
      reads this
      ensures app.Some? ==> app.value in apps && app.value.apiKey == apiKey
      ensures app.None? <==> forall a :: a in apps ==> a.apiKey != apiKey
    {
      FindApp(apps, apiKey)
    }

    /** `createApp`: a new app with a generated key, created and updated now, no settings. */
    method CreateApp(name: string, environment: AppEnvironment, id: string, random: seq<byte>, now: int) returns (app: App)
      modifies this
      ensures app == App(id, name, GenerateApiKey(environment, random), EnvironmentName(environment), now, now, None)
      ensures apps == old(apps) + [app]
      ensures events == old(events) && users == old(users) && usage == old(usage)
    {
      app := App(id, name, GenerateApiKey(environment, random), EnvironmentName(environment), now, now, None);
      apps := apps + [app];
    }

    /** `insertEvents`: one row per event, in order, in a single batch. */
    method InsertEvents(appId: string, batch: seq<Json>, now: int)
      requires forall i :: 0 <= i < |batch| ==> ContextEventValid(batch[i])
      modifies this
      ensures events == old(events) + EventRows(appId, batch, now)
      ensures apps == old(apps) && users == old(users) && usage == old(usage)
    {
      events := events + EventRows(appId, batch, now);
    }

    /** `upsertUser`: the (app, user) row becomes `Upserted`; every other row is unchanged. */
    method UpsertUser(appId: string, userId: string, sessionCount: int, properties: Json, rowId: string, now: int)
      modifies this
      ensures users == old(users)[(appId, userId) := Upserted(old(users), appId, userId, sessionCount, properties, rowId, now)]
      ensures apps == old(apps) && events == old(events) && usage == old(usage)
    {
      users := users[(appId, userId) := Upserted(users, appId, userId, sessionCount, properties, rowId, now)];
    }

    /** `logApiUsage`: one more usage row. */
    method LogApiUsage(appId: string, endpoint: string, httpMethod: string, statusCode: int, id: string, now: int)
      modifies this
      ensures usage == old(usage) + [UsageRow(id, appId, endpoint, httpMethod, statusCode, now)]
      ensures apps == old(apps) && events == old(events) && users == old(users)
    {
      usage := usage + [UsageRow(id, appId, endpoint, httpMethod, statusCode, now)];
    }
  }
}
