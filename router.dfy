/**
 * The collector's request handler (backend/src/index.ts). URL parsing is done: a request
 * arrives with its path and query parameters. Every database call of a handler throws when
 * `dbFault` is set; the clock, new ids and random bytes come in with the request.
 */
module Router {
  import opened Wrappers
  import opened Json
  import opened Text
  import opened Schemas
  import Db

  // Paths

  predicate StartsWith(s: string, prefix: string) {
    |prefix| <= |s| && s[..|prefix|] == prefix
  }

  predicate EndsWith(s: string, suffix: string) {
    |suffix| <= |s| && s[|s| - |suffix|..] == suffix
  }

  /** JavaScript's `s.split(sep)` for a one-character separator. */
  function Split(s: string, sep: char): (parts: seq<string>)
    ensures |parts| >= 1
  {
    if |s| == 0 then [""]
    else
      var rest := Split(s[1..], sep);
      if s[0] == sep then [""] + rest else [[s[0]] + rest[0]] + rest[1..]
  }

  lemma {:induction false} SplitWithoutSeparator(s: string, sep: char)
    requires sep !in s
    ensures Split(s, sep) == [s]
  {
    if |s| > 0 {
      SplitWithoutSeparator(s[1..], sep);
      assert [s[0]] + s[1..] == s;
    }
  }

  lemma {:induction false} SplitAt(a: string, sep: char, b: string)
    requires sep !in a
    ensures Split(a + [sep] + b, sep) == [a] + Split(b, sep)
  {
    var s := a + [sep] + b;
    if |a| == 0 {
      assert s[1..] == b;
    } else {
      assert s[1..] == a[1..] + [sep] + b;
      SplitAt(a[1..], sep, b);
      assert [a[0]] + a[1..] == a;
    }
  }

  const AppsPrefix := "/v1/apps/"

  /** A path under `/v1/apps/` splits into "", "v1", "apps" and the pieces of the rest. */
  lemma SplitAppsPath(rest: string)
    ensures Split(AppsPrefix + rest, '/') == ["", "v1", "apps"] + Split(rest, '/')
  {
    assert AppsPrefix + rest == "" + ['/'] + ("v1" + ['/'] + ("apps" + ['/'] + rest));
    SplitAt("", '/', "v1" + ['/'] + ("apps" + ['/'] + rest));
    SplitAt("v1", '/', "apps" + ['/'] + rest);
    SplitAt("apps", '/', rest);
  }

  /** `path.split('/')[3]`: the fourth '/'-separated piece of the path. */
  function AppIdOf(path: string): (appId: string)
    requires StartsWith(path, AppsPrefix)
    ensures |Split(path, '/')| >= 4 && appId == Split(path, '/')[3] && appId == Split(path[|AppsPrefix|..], '/')[0]
  {
    assert path == AppsPrefix + path[|AppsPrefix|..];
    SplitAppsPath(path[|AppsPrefix|..]);
    Split(path, '/')[3]
  }

  // Routing

  datatype Route =
    | ToPreflight
    | ToIngest
    | ToSummary(appId: string)
    | ToInsights(appId: string)
    | ToEventList(appId: string)
    | ToRegister
    | ToHealth
    | Unrouted

  /** `path.startsWith('/v1/apps/') && path.endsWith(suffix)`. */
  predicate AppRoute(path: string, suffix: string) {
    StartsWith(path, AppsPrefix) && EndsWith(path, suffix)
  }

  /** The `fetch` if-chain: OPTIONS first, then each route in order; anything else is unrouted. */
  function RouteOf(httpMethod: string, path: string): (r: Route)
    ensures r == ToPreflight <==> httpMethod == "OPTIONS"
    ensures r == ToIngest || r == ToRegister ==> httpMethod == "POST"
    ensures r.ToSummary? || r.ToInsights? || r.ToEventList? || r == ToHealth ==> httpMethod == "GET"
    ensures r.ToSummary? ==> AppRoute(path, "/summary") && r.appId == AppIdOf(path)
    ensures r.ToInsights? ==> AppRoute(path, "/insights") && r.appId == AppIdOf(path)
    ensures r.ToEventList? ==> AppRoute(path, "/events") && r.appId == AppIdOf(path)
  {
    if httpMethod == "OPTIONS" then ToPreflight
    else if path == "/v1/events" && httpMethod == "POST" then ToIngest
    else if AppRoute(path, "/summary") && httpMethod == "GET" then ToSummary(AppIdOf(path))
    else if AppRoute(path, "/insights") && httpMethod == "GET" then ToInsights(AppIdOf(path))
    else if AppRoute(path, "/events") && httpMethod == "GET" then ToEventList(AppIdOf(path))
    else if path == "/v1/auth/register" && httpMethod == "POST" then ToRegister
    else if path == "/v1/health" && httpMethod == "GET" then ToHealth
    else Unrouted
  }

  /** The app routes read their id from the fourth piece of the path. */
  lemma SummaryRoute(appId: string)
    requires '/' !in appId
    ensures RouteOf("GET", AppsPrefix + appId + "/summary") == ToSummary(appId)
  {
    var p := AppsPrefix + appId + "/summary";
    assert p == AppsPrefix + appId + "/" + "summary";
    AppPath(appId, "summary");
  }

  lemma InsightsRoute(appId: string)
    requires '/' !in appId
    ensures RouteOf("GET", AppsPrefix + appId + "/insights") == ToInsights(appId)
  {
    var p := AppsPrefix + appId + "/insights";
    assert p == AppsPrefix + appId + "/" + "insights";
    AppPath(appId, "insights");
    assert p[|p| - 1] == 's';
    assert !EndsWith(p, "/summary");
  }

  lemma EventListRoute(appId: string)
    requires '/' !in appId
    ensures RouteOf("GET", AppsPrefix + appId + "/events") == ToEventList(appId)
    ensures RouteOf("POST", AppsPrefix + appId + "/events") == Unrouted
  {
    var p := AppsPrefix + appId + "/events";
    assert p == AppsPrefix + appId + "/" + "events";
    AppPath(appId, "events");
    assert p[|p| - 1] == 's';
    assert !EndsWith(p, "/summary");
    assert p[|p| - 7] == '/';
    assert !EndsWith(p, "/insights");
  }

  /** Whatever sits in the fourth piece is the id: `/v1/apps/summary` asks for the summary of an app called "summary". */
  lemma SummaryOfAppNamedSummary()
    ensures RouteOf("GET", AppsPrefix + "summary") == ToSummary("summary")
  {
    var p := AppsPrefix + "summary";
    assert p[|AppsPrefix|..] == "summary";
    SplitWithoutSeparator("summary", '/');
    assert p[|p| - 8..] == "/summary";
    assert AppRoute(p, "/summary");
  }

  lemma AppPath(appId: string, tail: string)
    requires '/' !in appId && '/' !in tail
    ensures var p := AppsPrefix + appId + "/" + tail;
      StartsWith(p, AppsPrefix) && EndsWith(p, "/" + tail) && |Split(p, '/')| >= 4 && Split(p, '/')[3] == appId
      && p != "/v1/events" && p != "/v1/auth/register" && p != "/v1/health"
  {
    var p := AppsPrefix + appId + "/" + tail;
    assert p == AppsPrefix + (appId + ['/'] + tail);
    assert p[|AppsPrefix|..] == appId + ['/'] + tail;
    assert p[|p| - |"/" + tail|..] == "/" + tail;
    SplitAt(appId, '/', tail);
    SplitAppsPath(appId + ['/'] + tail);
    assert p[..|AppsPrefix|] == AppsPrefix;
    assert p[4] == 'a' && p[5] == 'p';
  }

  // Query parameters

  /** A JavaScript number as `parseInt` and `Math.min` produce it: an integer or NaN. */
  datatype JsNumber = Finite(value: int) | NaN

  predicate IsSpace(c: char) {
    c == ' ' || c == '\t' || c == '\n' || c == '\r' || c == '\U{B}' || c == '\U{C}'
  }

  function SkipSpaces(s: string): (t: string)
    ensures |t| <= |s| && t == s[|s| - |t|..]
    ensures |t| > 0 ==> !IsSpace(t[0])
  {
    if |s| > 0 && IsSpace(s[0]) then SkipSpaces(s[1..]) else s
  }

  /** The leading decimal digits of `s`. */
  function DecimalRun(s: string): (ds: string)
    ensures |ds| <= |s| && ds == s[..|ds|]
    ensures forall i :: 0 <= i < |ds| ==> IsDigit(ds[i])
  {
    if |s| > 0 && IsDigit(s[0]) then [s[0]] + DecimalRun(s[1..]) else []
  }

  predicate IsAnyHex(c: char) {
    IsDigit(c) || 'a' <= c <= 'f' || 'A' <= c <= 'F'
  }

  /** The leading hexadecimal digits of `s`, in either case. */
  function HexRun(s: string): (ds: string)
    ensures |ds| <= |s| && ds == s[..|ds|]
    ensures forall i :: 0 <= i < |ds| ==> IsAnyHex(ds[i])
  {
    if |s| > 0 && IsAnyHex(s[0]) then [s[0]] + HexRun(s[1..]) else []
  }

  function AnyHexValue(c: char): (d: nat)
    requires IsAnyHex(c)
    ensures d < 16
  {
    if IsDigit(c) then DigitValue(c) else if 'a' <= c <= 'f' then c as int - 87 else c as int - 55
  }

  /** The number decimal digits stand for, most significant first. */
  function DecimalValue(ds: string): nat
    requires forall i :: 0 <= i < |ds| ==> IsDigit(ds[i])
    decreases |ds|
  {
    if |ds| == 0 then 0 else DecimalValue(ds[..|ds| - 1]) * 10 + DigitValue(ds[|ds| - 1])
  }

  function HexNumberValue(ds: string): nat
    requires forall i :: 0 <= i < |ds| ==> IsAnyHex(ds[i])
    decreases |ds|
  {
    if |ds| == 0 then 0 else HexNumberValue(ds[..|ds| - 1]) * 16 + AnyHexValue(ds[|ds| - 1])
  }

  /** The magnitude `parseInt` reads after the sign: "0x"/"0X" and hexadecimal digits, or decimal digits. */
  function UnsignedValue(u: string): Option<nat> {
    if |u| >= 2 && u[0] == '0' && (u[1] == 'x' || u[1] == 'X') then
      var ds := HexRun(u[2..]);
      if |ds| == 0 then None else Some(HexNumberValue(ds))
    else
      var ds := DecimalRun(u);
      if |ds| == 0 then None else Some(DecimalValue(ds))
  }

  /**
   * `parseInt(s)` without a radix: leading white space, an optional sign, then the magnitude;
   * NaN when there are no digits.
   */
  function ParseInt(s: string): JsNumber {
    var t := SkipSpaces(s);
    var signed := |t| > 0 && (t[0] == '-' || t[0] == '+');
    match UnsignedValue(if signed then t[1..] else t)
    case None => NaN
    case Some(m) => Finite(if signed && t[0] == '-' then -(m as int) else m)
  }

  lemma {:induction false} NatTextValue(n: nat)
    ensures DecimalValue(NatText(n)) == n
    decreases n
  {
    var s := NatText(n);
    if n >= 10 {
      assert s[..|s| - 1] == NatText(n / 10);
      NatTextValue(n / 10);
    }
  }

  lemma {:induction false} DecimalRunOfDigits(s: string)
    requires forall i :: 0 <= i < |s| ==> IsDigit(s[i])
    ensures DecimalRun(s) == s
  {
    if |s| > 0 {
      DecimalRunOfDigits(s[1..]);
      assert [s[0]] + s[1..] == s;
    }
  }

  lemma NatTextUnsigned(n: nat)
    ensures UnsignedValue(NatText(n)) == Some(n)
  {
    var u := NatText(n);
    assert !(|u| >= 2 && (u[1] == 'x' || u[1] == 'X')) by {
      if |u| >= 2 {
        assert IsDigit(u[1]);
      }
    }
    DecimalRunOfDigits(u);
    NatTextValue(n);
  }

  lemma ParseIntUnsigned(t: string, m: nat)
    requires |t| > 0 && IsDigit(t[0]) && UnsignedValue(t) == Some(m)
    ensures ParseInt(t) == Finite(m)
  {
    assert !IsSpace(t[0]) && t[0] != '-' && t[0] != '+';
    assert SkipSpaces(t) == t;
  }

  lemma ParseIntMinus(t: string, m: nat)
    requires |t| > 0 && t[0] == '-' && UnsignedValue(t[1..]) == Some(m)
    ensures ParseInt(t) == Finite(-(m as int))
  {
    assert SkipSpaces(t) == t;
  }

  lemma ParseIntNatText(n: nat)
    ensures ParseInt(NatText(n)) == Finite(n)
  {
    NatTextUnsigned(n);
    ParseIntUnsigned(NatText(n), n);
  }

  lemma ParseIntNegativeText(i: int)
    requires i < 0
    ensures ParseInt("-" + NatText(-i)) == Finite(i)
  {
    var t := "-" + NatText(-i);
    assert t[1..] == NatText(-i);
    NatTextUnsigned(-i);
    ParseIntMinus(t, -i);
  }

  /** `parseInt` reads back the decimal text of every integer. */
  lemma ParseIntText(i: int)
    ensures ParseInt(IntText(i)) == Finite(i)
  {
    if i < 0 {
      assert IntText(i) == "-" + NatText(-i);
      ParseIntNegativeText(i);
    } else {
      assert IntText(i) == NatText(i);
      ParseIntNatText(i);
    }
  }

  /** `url.searchParams.get(key) || fallback`: an absent or empty parameter takes the fallback. */
  function ParamOr(query: map<string, string>, key: string, fallback: string): (v: string)
    ensures v == fallback <==> key !in query || query[key] == "" || query[key] == fallback
    ensures key in query && query[key] != "" ==> v == query[key]
  {
    if key in query && query[key] != "" then query[key] else fallback
  }

  /** `Math.min(parseInt(limit || '100'), 1000)`: at most 1000, NaN for text without digits, negatives kept. */
  function EventLimit(query: map<string, string>): (limit: JsNumber)
    ensures limit.Finite? ==> limit.value <= 1000
    ensures limit.NaN? <==> ParseInt(ParamOr(query, "limit", "100")).NaN?
  {
    match ParseInt(ParamOr(query, "limit", "100"))
    case NaN => NaN
    case Finite(n) => Finite(if n < 1000 then n else 1000)
  }

  /** Without a usable parameter the limit is 100. */
  lemma EventLimitDefault()
    ensures EventLimit(map[]) == Finite(100)
    ensures EventLimit(map["limit" := ""]) == Finite(100)
  {
    assert NatText(1) == "1";
    assert NatText(10) == NatText(1) + "0" == "10";
    assert NatText(100) == NatText(10) + "0" == "100";
    ParseIntText(100);
  }

  /** A written integer is capped at 1000 and kept as it is below that, negatives included. */
  lemma EventLimitOfText(n: int)
    ensures EventLimit(map["limit" := IntText(n)]) == Finite(if n < 1000 then n else 1000)
  {
    var text := IntText(n);
    assert |text| > 0 by {
      assert |NatText(if n < 0 then -n else n)| > 0;
    }
    ParseIntText(n);
    assert ParamOr(map["limit" := text], "limit", "100") == text;
  }

  /** Text without digits gives NaN, which `Math.min` passes on. */
  lemma EventLimitWithoutDigits()
    ensures EventLimit(map["limit" := "many"]) == NaN
  {
    assert SkipSpaces("many") == "many";
    assert DecimalRun("many") == [];
    assert ParseInt("many") == NaN;
  }

  // Replies

  datatype Request = Request(httpMethod: string, path: string, query: map<string, string>, apiKey: Option<string>, body: Option<Json>)

  /** What the handlers take from outside: a database that throws, the clock, new ids and random bytes. */
  datatype Services = Services(dbFault: bool, nowSeconds: int, nowMillis: int, newAppId: string, random: seq<byte>,
                               userRowId: nat -> string, usageId: string)

  /** The responses, by what they report; query results the SQL computes are not part of them. */
  datatype Reply =
    | Preflight
    | Failure(status: int, error: string)
    | Ingested(eventsReceived: nat, appId: string)
    | Summary(appId: string, eventName: string, dimension: Db.JsonPath)
    | InsightList(appId: string)
    | EventList(appId: string, limit: JsNumber)
    | Registered(app: Db.App)
    | Healthy(timestamp: int)

  function Status(r: Reply): int {
    match r
    case Failure(status, _) => status
    case Registered(_) => 201
    case _ => 200
  }

  const CorsHeaders: map<string, string> := map[
    "Access-Control-Allow-Origin" := "*",
    "Access-Control-Allow-Methods" := "GET, POST, PUT, DELETE, OPTIONS",
    "Access-Control-Allow-Headers" := "Content-Type, X-API-Key",
    "Access-Control-Max-Age" := "86400"]

  /** Every response carries the CORS headers; all but the preflight are JSON. */
  function Headers(r: Reply): (h: map<string, string>)
    ensures forall k :: k in CorsHeaders ==> k in h && h[k] == CorsHeaders[k]
    ensures "Content-Type" in h <==> !r.Preflight?
  {
    if r.Preflight? then CorsHeaders else map["Content-Type" := "application/json"] + CorsHeaders
  }

  const ServerError := Failure(500, "Internal server error")

  /** `!apiKey`: no header, or an empty one. */
  predicate MissingKey(req: Request) {
    req.apiKey.None? || req.apiKey.value == ""
  }

  /** The key check of the three read endpoints: 401 without a key, 403 unless the key's app is the path's app. */
  function Authorize(db: Db.Database, req: Request, appId: string, dbFault: bool): (failure: Option<Reply>)
    reads db
    ensures failure.None? <==> (!MissingKey(req) && !dbFault
      && db.GetAppByApiKey(req.apiKey.value).Some? && db.GetAppByApiKey(req.apiKey.value).value.id == appId)
    ensures failure.Some? ==> failure.value.Failure? && failure.value.status in {401, 403, 500}
    ensures MissingKey(req) ==> failure == Some(Failure(401, "Missing API key"))
    ensures !MissingKey(req) && dbFault ==> failure == Some(ServerError)
  {
    if MissingKey(req) then Some(Failure(401, "Missing API key"))
    else if dbFault then Some(ServerError)
    else
      var app := db.GetAppByApiKey(req.apiKey.value);
      if app.None? || app.value.id != appId then Some(Failure(403, "Unauthorized")) else None
  }

  // Ingestion

  /** The users table after the ingestion loop over `events`, one upsert per event with a truthy user id. */
  function UpsertAll(users: map<(string, string), Db.UserRow>, appId: string, events: seq<Json>, rowId: nat -> string, now: int)
    : map<(string, string), Db.UserRow>
    requires forall e :: e in events ==> ContextEventValid(e)
    decreases |events|
  {
    if |events| == 0 then users
    else
      var before := UpsertAll(users, appId, events[..|events| - 1], rowId, now);
      var e := events[|events| - 1];
      match Db.UserIdOf(e)
      case None => before
      case Some(u) => before[(appId, u) := Db.Upserted(before, appId, u, Db.SessionCountOf(e), Db.CustomPropertiesOf(e), rowId(|events| - 1), now)]
  }

  /** How many of the events carry the user id `u`. */
  function EventsOf(events: seq<Json>, u: string): nat
    decreases |events|
  {
    if |events| == 0 then 0
    else EventsOf(events[..|events| - 1], u) + (if Db.UserIdOf(events[|events| - 1]) == Some(u) then 1 else 0)
  }

  /**
   * After ingestion a user has a row exactly when it had one or sent an event; its event total
   * grows by the number of its events, and an existing row keeps its id and first sighting.
   * Other apps' rows are untouched.
   */
  lemma {:induction false} UpsertAllCounts(users: map<(string, string), Db.UserRow>, appId: string, events: seq<Json>,
                                           rowId: nat -> string, now: int, u: string)
    requires forall e :: e in events ==> ContextEventValid(e)
    ensures var after := UpsertAll(users, appId, events, rowId, now);
      && ((appId, u) in after <==> (appId, u) in users || EventsOf(events, u) > 0)
      && ((appId, u) in users ==> (after[(appId, u)].totalEvents == users[(appId, u)].totalEvents + EventsOf(events, u)
           && after[(appId, u)].firstSeen == users[(appId, u)].firstSeen && after[(appId, u)].id == users[(appId, u)].id))
      && ((appId, u) !in users && EventsOf(events, u) > 0 ==> after[(appId, u)].totalEvents == EventsOf(events, u))
    decreases |events|
  {
    if |events| > 0 {
      UpsertAllCounts(users, appId, events[..|events| - 1], rowId, now, u);
    }
  }

  lemma {:induction false} UpsertAllOtherApps(users: map<(string, string), Db.UserRow>, appId: string, events: seq<Json>,
                                              rowId: nat -> string, now: int, key: (string, string))
    requires forall e :: e in events ==> ContextEventValid(e)
    requires key.0 != appId
    ensures var after := UpsertAll(users, appId, events, rowId, now);
      (key in after <==> key in users) && (key in users ==> after[key] == users[key])
    decreases |events|
  {
    if |events| > 0 {
      UpsertAllOtherApps(users, appId, events[..|events| - 1], rowId, now, key);
    }
  }

  /** The loop of `handleEventIngestion`: one `upsertUser` per event whose user id is truthy, in event order. */
  method UpsertUsers(db: Db.Database, appId: string, events: seq<Json>, rowId: nat -> string, now: int)
    requires forall e :: e in events ==> ContextEventValid(e)
    modifies db
    ensures db.users == UpsertAll(old(db.users), appId, events, rowId, now)
    ensures db.apps == old(db.apps) && db.events == old(db.events) && db.usage == old(db.usage)
  {
    var i := 0;
    while i < |events|
      invariant 0 <= i <= |events|
      invariant db.users == UpsertAll(old(db.users), appId, events[..i], rowId, now)
      invariant db.apps == old(db.apps) && db.events == old(db.events) && db.usage == old(db.usage)
    {
      var e := events[i];
      assert events[..i + 1][..i] == events[..i];
      var userId := Db.UserIdOf(e);
      if userId.Some? {
        db.UpsertUser(appId, userId.value, Db.SessionCountOf(e), Db.CustomPropertiesOf(e), rowId(i), now);
      }
      i := i + 1;
    }
    assert events[..i] == events;
  }

  /** The events of a payload the batch schema accepted. */
  function BatchEvents(body: Json): (events: seq<Json>)
    requires EventBatchPayloadValid(body)
    ensures 1 <= |events| <= 100 && forall e :: e in events ==> ContextEventValid(e)
  {
    Field(body, "events").value.items
  }

  /**
   * The reply of `handleEventIngestion` for an apps table: 401 without a key, 500 when the
   * database throws, 401 for an unknown key, 400 for an invalid body, else the count received.
   */
  function IngestionReply(apps: seq<Db.App>, req: Request, s: Services): (reply: Reply)
    ensures reply.Failure? || reply.Ingested?
    ensures reply.Ingested? <==> (!MissingKey(req) && !s.dbFault && Db.FindApp(apps, req.apiKey.value).Some?
      && req.body.Some? && EventBatchPayloadValid(req.body.value))
    ensures reply.Ingested? ==> (reply.appId == Db.FindApp(apps, req.apiKey.value).value.id
      && reply.eventsReceived == |BatchEvents(req.body.value)|)
    ensures reply.Failure? ==> reply.status in {400, 401, 500}
  {
    if MissingKey(req) then Failure(401, "Missing API key")
    else if s.dbFault then ServerError
    else
      match Db.FindApp(apps, req.apiKey.value)
      case None => Failure(401, "Invalid API key")
      case Some(app) =>
        if req.body.None? || !EventBatchPayloadValid(req.body.value) then Failure(400, "Invalid payload")
        else Ingested(|BatchEvents(req.body.value)|, app.id)
  }

  /**
   * `handleEventIngestion`: 401 without a key or with an unknown one, 400 for a body that is
   * not a valid batch, else the events are stored, the users upserted, the call logged and
   * the number of events reported.
   */
  method HandleEventIngestion(db: Db.Database, req: Request, s: Services) returns (reply: Reply)
    modifies db
    ensures reply == IngestionReply(old(db.apps), req, s)
    ensures MissingKey(req) ==> reply == Failure(401, "Missing API key")
    ensures !MissingKey(req) && s.dbFault ==> reply == ServerError
    ensures !MissingKey(req) && !s.dbFault && old(db.GetAppByApiKey(req.apiKey.value)).None? ==> reply == Failure(401, "Invalid API key")
    ensures (!MissingKey(req) && !s.dbFault && old(db.GetAppByApiKey(req.apiKey.value)).Some?
      && (req.body.None? || !EventBatchPayloadValid(req.body.value))) ==> reply == Failure(400, "Invalid payload")
    ensures reply.Failure? || reply.Ingested?
    ensures reply.Failure? ==> reply.status in {400, 401, 500}
    ensures !reply.Ingested? ==> unchanged(db)
    ensures reply.Ingested? ==> (!MissingKey(req) && !s.dbFault && req.body.Some? && EventBatchPayloadValid(req.body.value)
      && var app := old(db.GetAppByApiKey(req.apiKey.value));
      var events := BatchEvents(req.body.value);
      && app.Some? && reply == Ingested(|events|, app.value.id)
      && db.events == old(db.events) + Db.EventRows(app.value.id, events, s.nowSeconds)
      && db.users == UpsertAll(old(db.users), app.value.id, events, s.userRowId, s.nowSeconds)
      && db.usage == old(db.usage) + [Db.UsageRow(s.usageId, app.value.id, "/v1/events", "POST", 200, s.nowSeconds)]
      && db.apps == old(db.apps))
  {
    if MissingKey(req) {
      return Failure(401, "Missing API key");
    }
    if s.dbFault {
      return ServerError;
    }
    var app := db.GetAppByApiKey(req.apiKey.value);
    if app.None? {
      return Failure(401, "Invalid API key");
    }
    if req.body.None? || !EventBatchPayloadValid(req.body.value) {
      return Failure(400, "Invalid payload");
    }
    var events := BatchEvents(req.body.value);
    db.InsertEvents(app.value.id, events, s.nowSeconds);
    UpsertUsers(db, app.value.id, events, s.userRowId, s.nowSeconds);
    db.LogApiUsage(app.value.id, "/v1/events", "POST", 200, s.usageId, s.nowSeconds);
    reply := Ingested(|events|, app.value.id);
  }

  /** The reply of `handleRegisterApp`: 400 for an invalid body, 500 when the database throws, else the new app. */
  function RegisterReply(req: Request, s: Services): (reply: Reply)
    ensures reply.Failure? || reply.Registered?
    ensures reply.Registered? <==> req.body.Some? && ParseRegisterApp(req.body.value).Some? && !s.dbFault
    ensures reply.Registered? ==> (var r := ParseRegisterApp(req.body.value).value;
      reply.app == Db.App(s.newAppId, r.name, Db.GenerateApiKey(r.environment, s.random), EnvironmentName(r.environment),
        s.nowSeconds, s.nowSeconds, None))
    ensures reply.Failure? ==> reply.status in {400, 500}
  {
    if req.body.None? || ParseRegisterApp(req.body.value).None? then Failure(400, "Invalid payload")
    else if s.dbFault then ServerError
    else
      var r := ParseRegisterApp(req.body.value).value;
      Registered(Db.App(s.newAppId, r.name, Db.GenerateApiKey(r.environment, s.random), EnvironmentName(r.environment),
        s.nowSeconds, s.nowSeconds, None))
  }

  /** `handleRegisterApp`: 400 for an invalid body, else a new app and 201. */
  method HandleRegisterApp(db: Db.Database, req: Request, s: Services) returns (reply: Reply)
    modifies db
    ensures reply == RegisterReply(req, s)
    ensures req.body.None? || ParseRegisterApp(req.body.value).None? ==> reply == Failure(400, "Invalid payload")
    ensures req.body.Some? && ParseRegisterApp(req.body.value).Some? && s.dbFault ==> reply == ServerError
    ensures reply.Failure? || reply.Registered?
    ensures reply.Failure? ==> reply.status in {400, 500}
    ensures !reply.Registered? ==> unchanged(db)
    ensures reply.Registered? ==> (req.body.Some? && ParseRegisterApp(req.body.value).Some? && !s.dbFault
      && var r := ParseRegisterApp(req.body.value).value;
      && reply.app == Db.App(s.newAppId, r.name, Db.GenerateApiKey(r.environment, s.random), EnvironmentName(r.environment), s.nowSeconds, s.nowSeconds, None)
      && db.apps == old(db.apps) + [reply.app]
      && db.events == old(db.events) && db.users == old(db.users) && db.usage == old(db.usage))
  {
    if req.body.None? || ParseRegisterApp(req.body.value).None? {
      return Failure(400, "Invalid payload");
    }
    if s.dbFault {
      return ServerError;
    }
    var r := ParseRegisterApp(req.body.value).value;
    var app := db.CreateApp(r.name, r.environment, s.newAppId, s.random, s.nowSeconds);
    reply := Registered(app);
  }

  /**
   * `fetch`: the preflight before anything else, then the routed handler; the three read
   * endpoints only authorize and read, and an unrouted request is a 404.
   */
  method Fetch(db: Db.Database, req: Request, s: Services) returns (reply: Reply)
    modifies db
    ensures req.httpMethod == "OPTIONS" ==> reply == Preflight && unchanged(db)
    ensures RouteOf(req.httpMethod, req.path) == Unrouted ==> reply == Failure(404, "Not found")
    ensures !(reply.Ingested? || reply.Registered?) ==> unchanged(db)
    ensures Status(reply) in {200, 201, 400, 401, 403, 404, 500}
    ensures reply.Ingested? ==> RouteOf(req.httpMethod, req.path) == ToIngest
    ensures reply.Registered? ==> RouteOf(req.httpMethod, req.path) == ToRegister
    ensures RouteOf(req.httpMethod, req.path) == ToIngest ==> reply == IngestionReply(old(db.apps), req, s)
    ensures RouteOf(req.httpMethod, req.path) == ToIngest && reply.Ingested? ==> (
      var events := BatchEvents(req.body.value);
      && db.events == old(db.events) + Db.EventRows(reply.appId, events, s.nowSeconds)
      && db.users == UpsertAll(old(db.users), reply.appId, events, s.userRowId, s.nowSeconds)
      && db.usage == old(db.usage) + [Db.UsageRow(s.usageId, reply.appId, "/v1/events", "POST", 200, s.nowSeconds)]
      && db.apps == old(db.apps))
    ensures RouteOf(req.httpMethod, req.path) == ToRegister ==> reply == RegisterReply(req, s)
    ensures RouteOf(req.httpMethod, req.path) == ToRegister && reply.Registered? ==> (
      db.apps == old(db.apps) + [reply.app]
      && db.events == old(db.events) && db.users == old(db.users) && db.usage == old(db.usage))
    ensures RouteOf(req.httpMethod, req.path).ToEventList? ==>
      var appId := RouteOf(req.httpMethod, req.path).appId;
      reply == Authorize(db, req, appId, s.dbFault).GetOr(EventList(appId, EventLimit(req.query)))
    ensures RouteOf(req.httpMethod, req.path).ToSummary? ==>
      var appId := RouteOf(req.httpMethod, req.path).appId;
      reply == Authorize(db, req, appId, s.dbFault).GetOr(
        Summary(appId, ParamOr(req.query, "event", "paywall_viewed"), Db.JsonPathFor(ParamOr(req.query, "dimension", "country"))))
    ensures RouteOf(req.httpMethod, req.path).ToInsights? ==>
      var appId := RouteOf(req.httpMethod, req.path).appId;
      reply == Authorize(db, req, appId, s.dbFault).GetOr(InsightList(appId))
    ensures RouteOf(req.httpMethod, req.path) == ToHealth ==> reply == Healthy(s.nowMillis)
  {
    match RouteOf(req.httpMethod, req.path)
    case ToPreflight =>
      reply := Preflight;
    case ToIngest =>
      reply := HandleEventIngestion(db, req, s);
    case ToSummary(appId) =>
      var failure := Authorize(db, req, appId, s.dbFault);
      reply := failure.GetOr(Summary(appId, ParamOr(req.query, "event", "paywall_viewed"), Db.JsonPathFor(ParamOr(req.query, "dimension", "country"))));
    case ToInsights(appId) =>
      var failure := Authorize(db, req, appId, s.dbFault);
      reply := failure.GetOr(InsightList(appId));
    case ToEventList(appId) =>
      var failure := Authorize(db, req, appId, s.dbFault);
      reply := failure.GetOr(EventList(appId, EventLimit(req.query)));
    case ToRegister =>
      reply := HandleRegisterApp(db, req, s);
    case ToHealth =>
      reply := Healthy(s.nowMillis);
    case Unrouted =>
      reply := Failure(404, "Not found");
  }
}
