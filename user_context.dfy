/** User identity, segment and persisted properties (Sources/ContextKit/Context/UserContext.swift). */
module User {
  import opened Wrappers
  import opened Json
  import opened Store
  import Text
  import opened AnyCodable

  datatype UserContext = UserContext(
    userId: Option<string>,
    segment: Option<string>,
    sessionCount: int,
    daysSinceInstall: int,
    customProperties: map<string, string>)

  const InstallDateKey := "ContextKit.installDate"
  const SessionCountKey := "ContextKit.sessionCount"
  const UserIdKey := "ContextKit.userId"
  const UserSegmentKey := "ContextKit.userSegment"
  const UserPropertiesKey := "ContextKit.userProperties"

  const SecondsPerDay: real := 86400.0

  /** Whole days from `install` to `now`, rounded toward zero as a calendar day difference is. */
  function DaysBetween(install: real, now: real): (days: int)
    ensures now >= install ==> days >= 0 && days as real * SecondsPerDay <= now - install < (days + 1) as real * SecondsPerDay
    ensures now < install ==> days <= 0 && (days - 1) as real * SecondsPerDay < now - install <= days as real * SecondsPerDay
  {
    var elapsed := (now - install) / SecondsPerDay;
    if elapsed >= 0.0 then elapsed.Floor else -((-elapsed).Floor)
  }

  /** The properties the manager loads at start-up: the stored blob if it decodes as a string dictionary. */
  function LoadedProperties(values: map<string, StoreValue>): (props: map<string, string>)
    ensures UserPropertiesKey !in values ==> props == map[]
  {
    if UserPropertiesKey in values && values[UserPropertiesKey].SData? && AsStringMap(values[UserPropertiesKey].json).Some? then
      AsStringMap(values[UserPropertiesKey].json).value
    else
      map[]
  }

  /** What `setProperties` stores is exactly what the next start-up loads. */
  lemma LoadAfterStore(values: map<string, StoreValue>, props: map<string, string>)
    ensures LoadedProperties(values[UserPropertiesKey := SData(StringMapJson(props))]) == props
  {
    StringMapRoundTrip(props);
  }

  /** A value `setProperties` keeps: a String, or any `CustomStringConvertible` value. */
  predicate Describable(v: AnyValue) {
    !(v.AOther? && !v.convertible)
  }

  /**
   * The persisted text of a kept value: a String as is, a Bool or Int by its `description`;
   * the `description` of other values (Double formatting, collections) is the platform's
   * `describe`.
   */
  function Describe(v: AnyValue, describe: AnyValue -> string): (s: string)
    ensures v.AString? ==> s == v.s
    ensures v.ABool? ==> (s == "true" <==> v.b) && (s == "false" <==> !v.b)
  {
    match v
    case AString(s) => s
    case ABool(b) => if b then "true" else "false"
    case AInt(i) => Text.IntText(i)
    case _ => describe(v)
  }

  /** `compactMapValues` of `setProperties`: the describable values, as text. */
  function Stringified(props: map<string, AnyValue>, describe: AnyValue -> string): (m: map<string, string>)
    ensures forall k :: k in m <==> k in props && Describable(props[k])
    ensures forall k :: k in m ==> m[k] == Describe(props[k], describe)
  {
    map k | k in props && Describable(props[k]) :: Describe(props[k], describe)
  }

  /** Merging with `{ _, new in new }`: a new value wins, keys not given keep their old value. */
  lemma MergeKeepsAndOverrides(old_: map<string, string>, props: map<string, AnyValue>, describe: AnyValue -> string, k: string)
    ensures k in props && props[k].AString? ==> (old_ + Stringified(props, describe))[k] == props[k].s
    ensures (k !in props || !Describable(props[k])) && k in old_ ==> (old_ + Stringified(props, describe))[k] == old_[k]
    ensures k in old_ + Stringified(props, describe) <==> k in old_ || (k in props && Describable(props[k]))
  {
  }

  class UserContextManager {
    const defaults: Defaults
    var currentUserId: Option<string>
    var currentSegment: Option<string>
    var currentProperties: map<string, string>

    /**
     * Records the install date on first launch only, then loads the persisted id, segment
     * and properties.
     */
    constructor(defaults: Defaults, now: real)
      modifies defaults
      ensures this.defaults == defaults
      ensures InstallDateKey in old(defaults.values) ==> defaults.values == old(defaults.values)
      ensures InstallDateKey !in old(defaults.values) ==> defaults.values == old(defaults.values)[InstallDateKey := SDate(now)]
      ensures currentUserId == defaults.StringFor(UserIdKey)
      ensures currentSegment == defaults.StringFor(UserSegmentKey)
      ensures currentProperties == LoadedProperties(defaults.values)
    {
      this.defaults := defaults;
      if !defaults.Has(InstallDateKey) {
        defaults.Set(InstallDateKey, SDate(now));
      }
      currentUserId := defaults.StringFor(UserIdKey);
      currentSegment := defaults.StringFor(UserSegmentKey);
      currentProperties := LoadedProperties(defaults.values);
    }

    method IncrementSessionCount()
      modifies defaults
      ensures defaults.values == old(defaults.values)[SessionCountKey := SInt(old(defaults.Integer(SessionCountKey)) + 1)]
    {
      var count := defaults.Integer(SessionCountKey) + 1;
      defaults.Set(SessionCountKey, SInt(count));
    }

    method SetUserId(userId: string)
      modifies this, defaults
      ensures currentUserId == Some(userId)
      ensures currentSegment == old(currentSegment) && currentProperties == old(currentProperties)
      ensures defaults.values == old(defaults.values)[UserIdKey := SString(userId)]
    {
      currentUserId := Some(userId);
      defaults.Set(UserIdKey, SString(userId));
    }

    method SetSegment(segment: string)
      modifies this, defaults
      ensures currentSegment == Some(segment)
      ensures currentUserId == old(currentUserId) && currentProperties == old(currentProperties)
      ensures defaults.values == old(defaults.values)[UserSegmentKey := SString(segment)]
    {
      currentSegment := Some(segment);
      defaults.Set(UserSegmentKey, SString(segment));
    }

    /** Merges the describable properties into the current ones and persists the result. */
    method SetProperties(props: map<string, AnyValue>, describe: AnyValue -> string)
      modifies this, defaults
      ensures currentProperties == old(currentProperties) + Stringified(props, describe)
      ensures currentUserId == old(currentUserId) && currentSegment == old(currentSegment)
      ensures defaults.values == old(defaults.values)[UserPropertiesKey := SData(StringMapJson(currentProperties))]
      ensures LoadedProperties(defaults.values) == currentProperties
    {
      currentProperties := currentProperties + Stringified(props, describe);
      defaults.Set(UserPropertiesKey, SData(StringMapJson(currentProperties)));
      LoadAfterStore(old(defaults.values), currentProperties);
    }

    /** `daysSinceInstall` is 0 when no install date is stored. */
    function DaysSinceInstall(now: real): (days: int)
      reads this, defaults
      ensures defaults.DateFor(InstallDateKey).None? ==> days == 0
      ensures defaults.DateFor(InstallDateKey).Some? ==> days == DaysBetween(defaults.DateFor(InstallDateKey).value, now)
    {
      match defaults.DateFor(InstallDateKey)
      case None => 0
      case Some(install) => DaysBetween(install, now)
    }

    function Capture(now: real): (u: UserContext)
      reads this, defaults
      ensures u.userId == currentUserId && u.segment == currentSegment
      ensures u.sessionCount == defaults.Integer(SessionCountKey)
      ensures u.daysSinceInstall == DaysSinceInstall(now)
      ensures u.customProperties == currentProperties
    {
      UserContext(currentUserId, currentSegment, defaults.Integer(SessionCountKey), DaysSinceInstall(now), currentProperties)
    }
  }

  /** After the first launch the install date never moves, and the first day counts as day 0. */
  method FirstLaunch(defaults: Defaults, now: real, later: real) returns (days: int, again: int)
    requires InstallDateKey !in defaults.values
    requires now <= later < now + SecondsPerDay
    modifies defaults
    ensures days == 0 && again == 0
    ensures defaults.DateFor(InstallDateKey) == Some(now)
  {
    var m := new UserContextManager(defaults, now);
    var u := m.Capture(now);
    days := u.daysSinceInstall;
    m.IncrementSessionCount();
    var restarted := new UserContextManager(defaults, later);
    var v := restarted.Capture(later);
    again := v.daysSinceInstall;
  }

  // Coding keys: user_id, segment, session_count, days_since_install, custom_properties.
  // The two optional strings use `encodeIfPresent`/`decodeIfPresent`.

  function Encode(u: UserContext): (j: Json)
    ensures j.JObject?
    ensures {"session_count", "days_since_install", "custom_properties"} <= j.fields.Keys
    ensures ("user_id" in j.fields <==> u.userId.Some?) && ("segment" in j.fields <==> u.segment.Some?)
    ensures u.userId.Some? ==> j.fields["user_id"] == JString(u.userId.value)
    ensures u.segment.Some? ==> j.fields["segment"] == JString(u.segment.value)
  {
    var base := map[
      "session_count" := JNum(u.sessionCount as real),
      "days_since_install" := JNum(u.daysSinceInstall as real),
      "custom_properties" := StringMapJson(u.customProperties)];
    JObject(WithOptionalString(WithOptionalString(base, "user_id", u.userId), "segment", u.segment))
  }

  function Decode(j: Json): Option<UserContext> {
    var userId :- OptionalStringField(j, "user_id");
    var segment :- OptionalStringField(j, "segment");
    var sessionCount :- IntField(j, "session_count");
    var days :- IntField(j, "days_since_install");
    var props :- Field(j, "custom_properties");
    var custom :- AsStringMap(props);
    Some(UserContext(userId, segment, sessionCount, days, custom))
  }

  lemma RoundTrip(u: UserContext)
    ensures Decode(Encode(u)) == Some(u)
  {
    var f := Encode(u).fields;
    assert "user_id" in f <==> u.userId.Some?;
    assert "segment" in f <==> u.segment.Some?;
    assert u.userId.Some? ==> f["user_id"] == JString(u.userId.value);
    assert u.segment.Some? ==> f["segment"] == JString(u.segment.value);
    assert f["session_count"] == JNum(u.sessionCount as real);
    assert f["days_since_install"] == JNum(u.daysSinceInstall as real);
    assert f["custom_properties"] == StringMapJson(u.customProperties);
    StringMapRoundTrip(u.customProperties);
  }
}
