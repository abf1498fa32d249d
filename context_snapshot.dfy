/** The complete context attached to an event (Sources/ContextKit/Context/ContextSnapshot.swift). */
module Snapshot {
  import opened Wrappers
  import opened Json
  import Text
  import Time
  import Geo
  import Device
  import User
  import Session
  import opened Config

  /** `ContextKitSDK.version`. */
  const SdkVersion := "1.0.0"

  datatype ContextSnapshot = ContextSnapshot(
    time: Time.TimeContext,
    geo: Geo.GeoContext,
    device: Device.DeviceContext,
    user: User.UserContext,
    session: Session.SessionContext,
    sdkVersion: string,
    capturedAt: real)

  /**
   * How a `Date` is written: Foundation's default (seconds as a number, used for the
   * persisted queue) or `.iso8601` (a string, used for uploads).
   */
  datatype DateStrategy = DeferredToDate | Iso8601

  /**
   * The ISO-8601 text of a date. Calendar formatting is not modelled: the text stands for the
   * whole seconds of the date, which is all `.iso8601` keeps.
   */
  function IsoText(seconds: real): (s: string)
    ensures |s| > 0 && s[|s| - 1] == 'Z'
  {
    Text.IntText(seconds.Floor) + "Z"
  }

  lemma IsoTextDropsFraction(a: real, b: real)
    requires a.Floor == b.Floor
    ensures IsoText(a) == IsoText(b)
  {
  }

  function EncodeDate(seconds: real, strategy: DateStrategy): (j: Json)
    ensures strategy == DeferredToDate ==> j == JNum(seconds)
    ensures strategy == Iso8601 ==> j.JString?
  {
    match strategy
    case DeferredToDate => JNum(seconds)
    case Iso8601 => JString(IsoText(seconds))
  }

  /** A date as the default decoder reads it. */
  function DecodeDate(j: Json): (r: Option<real>)
    ensures r.Some? <==> j.JNum?
    ensures r.Some? ==> EncodeDate(r.value, DeferredToDate) == j
  {
    if j.JNum? then Some(j.n) else None
  }

  /** What the platform reports for the device: through UIKit, or without it (macOS). */
  datatype DevicePlatform =
    | OnUIKit(readings: Device.UIKitReadings)
    | WithoutUIKit(osVersionString: string, disk: Device.DiskQuery, physicalMemory: nat)

  predicate ReadableDevice(p: DevicePlatform) {
    p.OnUIKit? ==> Device.NonNegativeBytes(p.readings.machine)
  }

  function CaptureDevice(p: DevicePlatform): Device.DeviceContext
    requires ReadableDevice(p)
  {
    match p
    case OnUIKit(r) => Device.Capture(r)
    case WithoutUIKit(os, disk, memory) => Device.FallbackCapture(os, disk, memory)
  }

  /** Readings of the calendar, the locale and the device at capture time. */
  datatype Environment = Environment(
    hour: Option<int>,
    weekday: Option<int>,
    timezone: string,
    clock: Time.ClockReading,
    regionId: Option<string>,
    localeId: string,
    currency: Option<string>,
    language: Option<string>,
    device: DevicePlatform)

  /**
   * The snapshot `ContextSnapshot.capture(...)` builds from the readings and the user and
   * session records: each of time, geo and device is captured when enabled and the empty
   * record otherwise.
   */
  function Assemble(config: ContextKitConfig, env: Environment, user: User.UserContext, session: Session.SessionContext, now: real): (s: ContextSnapshot)
    requires ReadableDevice(env.device)
    ensures s.time == if config.enableTime then Time.Capture(env.hour, env.weekday, env.timezone, env.clock) else Time.Empty()
    ensures s.geo == if config.enableGeo then Geo.Capture(env.regionId, env.localeId, env.currency, env.language) else Geo.Empty()
    ensures s.device == if config.enableDevice then CaptureDevice(env.device) else Device.Empty()
    ensures s.user == user && s.session == session
    ensures s.sdkVersion == SdkVersion && s.capturedAt == now
  {
    var time := if config.enableTime then Time.Capture(env.hour, env.weekday, env.timezone, env.clock) else Time.Empty();
    var geo := if config.enableGeo then Geo.Capture(env.regionId, env.localeId, env.currency, env.language) else Geo.Empty();
    var device := if config.enableDevice then CaptureDevice(env.device) else Device.Empty();
    ContextSnapshot(time, geo, device, user, session, SdkVersion, now)
  }

  /** `ContextSnapshot.capture(...)`: user and session always come from their managers. */
  function Capture(config: ContextKitConfig, users: User.UserContextManager, sessions: Session.SessionManager, env: Environment, now: real): (s: ContextSnapshot)
    requires ReadableDevice(env.device)
    reads users, users.defaults, sessions
    ensures s == Assemble(config, env, users.Capture(now), sessions.Capture(now), now)
    ensures s.time == if config.enableTime then Time.Capture(env.hour, env.weekday, env.timezone, env.clock) else Time.Empty()
    ensures s.geo == if config.enableGeo then Geo.Capture(env.regionId, env.localeId, env.currency, env.language) else Geo.Empty()
    ensures s.device == if config.enableDevice then CaptureDevice(env.device) else Device.Empty()
    ensures s.user == users.Capture(now) && s.session == sessions.Capture(now)
    ensures s.sdkVersion == SdkVersion && s.capturedAt == now
  {
    Assemble(config, env, users.Capture(now), sessions.Capture(now), now)
  }

  /**
   * A disabled geo context can be told from a captured one: its region is not one of the
   * computed labels, while a captured region always is.
   */
  lemma DisabledGeoIsRecognisable(config: ContextKitConfig, users: User.UserContextManager, sessions: Session.SessionManager, env: Environment, now: real)
    requires ReadableDevice(env.device)
    ensures Capture(config, users, sessions, env, now).geo.region in Geo.RegionLabels <==> config.enableGeo
  {
  }

  // Coding keys: time, geo, device, user, session, sdk_version, captured_at.

  /** The snapshot object built from its already encoded parts. */
  function SnapshotObject(time: Json, geo: Json, device: Json, user: Json, session: Json, version: string, captured: Json): (j: Json)
    ensures Field(j, "time") == Some(time) && Field(j, "geo") == Some(geo) && Field(j, "device") == Some(device)
    ensures Field(j, "user") == Some(user) && Field(j, "session") == Some(session)
    ensures StringField(j, "sdk_version") == Some(version) && Field(j, "captured_at") == Some(captured)
  {
    JObject(map[
      "time" := time,
      "geo" := geo,
      "device" := device,
      "user" := user,
      "session" := session,
      "sdk_version" := JString(version),
      "captured_at" := captured])
  }

  function Encode(s: ContextSnapshot, strategy: DateStrategy): (j: Json)
    ensures j.JObject?
  {
    SnapshotObject(Time.Encode(s.time), Geo.Encode(s.geo), Device.Encode(s.device), User.Encode(s.user),
      Session.Encode(s.session), s.sdkVersion, EncodeDate(s.capturedAt, strategy))
  }

  function Decode(j: Json): Option<ContextSnapshot> {
    var time :- Field(j, "time");
    var t :- Time.Decode(time);
    var geo :- Field(j, "geo");
    var g :- Geo.Decode(geo);
    var device :- Field(j, "device");
    var d :- Device.Decode(device);
    var user :- Field(j, "user");
    var u :- User.Decode(user);
    var session :- Field(j, "session");
    var se :- Session.Decode(session);
    var version :- StringField(j, "sdk_version");
    var captured :- Field(j, "captured_at");
    var at :- DecodeDate(captured);
    Some(ContextSnapshot(t, g, d, u, se, version, at))
  }

  /** The persisted form of a snapshot reads back as the same snapshot. */
  lemma RoundTrip(s: ContextSnapshot)
    ensures Decode(Encode(s, DeferredToDate)) == Some(s)
  {
    Time.RoundTrip(s.time);
    Geo.RoundTrip(s.geo);
    Device.RoundTrip(s.device);
    User.RoundTrip(s.user);
    Session.RoundTrip(s.session);
  }
}
