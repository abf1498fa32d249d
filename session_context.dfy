/** Session identity and counters (Sources/ContextKit/Context/SessionContext.swift). */
module Session {
  import opened Wrappers
  import opened Json

  datatype SessionContext = SessionContext(
    sessionId: string,
    duration: real,
    screenViewCount: int,
    eventCount: int,
    entryScreen: Option<string>)

  /**
   * The session record right after `trackScreenView(_:)`, from the record and the active flag
   * before it: the active session with one more view, or a fresh one whose first screen this is.
   */
  function AfterScreenView(before: SessionContext, wasActive: bool, screenName: string, freshId: Uuid): SessionContext {
    if wasActive then
      SessionContext(before.sessionId, before.duration, before.screenViewCount + 1, before.eventCount,
        if before.entryScreen.None? then Some(screenName) else before.entryScreen)
    else
      SessionContext(freshId, 0.0, 1, 0, Some(screenName))
  }

  /**
   * The session state. A new session identifier and the current time come from the platform
   * (`UUID()`, `Date()`), so the operations that may start a session take them as parameters.
   */
  class SessionManager {
    var currentSessionId: string
    var sessionStartTime: real
    var screenViewCount: int
    var eventCount: int
    var entryScreen: Option<string>
    var isActive: bool

    /** Counters are never negative, and an entry screen is recorded exactly when a screen was viewed. */
    predicate Valid()
      reads this
    {
      screenViewCount >= 0 && eventCount >= 0 && (entryScreen.None? <==> screenViewCount == 0)
    }

    /** A manager starts inactive, with a fresh identifier and zero counters. */
    constructor(freshId: Uuid, now: real)
      ensures Valid() && !isActive
      ensures currentSessionId == freshId && sessionStartTime == now
      ensures screenViewCount == 0 && eventCount == 0 && entryScreen == None
    {
      currentSessionId := freshId;
      sessionStartTime := now;
      screenViewCount := 0;
      eventCount := 0;
      entryScreen := None;
      isActive := false;
    }

    /** `startSession()`: resets everything, but only when no session is active. */
    method StartSession(freshId: Uuid, now: real)
      requires Valid()
      modifies this
      ensures Valid() && isActive
      ensures old(isActive) ==> unchanged(this)
      ensures !old(isActive) ==> (currentSessionId == freshId && sessionStartTime == now
        && screenViewCount == 0 && eventCount == 0 && entryScreen == None)
    {
      if !isActive {
        currentSessionId := freshId;
        sessionStartTime := now;
        screenViewCount := 0;
        eventCount := 0;
        entryScreen := None;
        isActive := true;
      }
    }

    /** `endSession()` only clears the flag: identifier and counters survive until the next start. */
    method EndSession()
      requires Valid()
      modifies this
      ensures Valid() && !isActive
      ensures currentSessionId == old(currentSessionId) && sessionStartTime == old(sessionStartTime)
      ensures screenViewCount == old(screenViewCount) && eventCount == old(eventCount) && entryScreen == old(entryScreen)
    {
      isActive := false;
    }

    /** `trackScreenView(_:)`: starts a session if needed, counts the view, keeps the first screen. */
    method TrackScreenView(screenName: string, freshId: Uuid, now: real)
      requires Valid()
      modifies this
      ensures Valid() && isActive
      ensures old(isActive) ==> (currentSessionId == old(currentSessionId) && sessionStartTime == old(sessionStartTime)
        && screenViewCount == old(screenViewCount) + 1 && eventCount == old(eventCount)
        && entryScreen == (if old(entryScreen).None? then Some(screenName) else old(entryScreen)))
      ensures !old(isActive) ==> (currentSessionId == freshId && sessionStartTime == now
        && screenViewCount == 1 && eventCount == 0 && entryScreen == Some(screenName))
      ensures Capture(now) == AfterScreenView(old(Capture(now)), old(isActive), screenName, freshId)
    {
      if !isActive {
        StartSession(freshId, now);
      }
      screenViewCount := screenViewCount + 1;
      if entryScreen.None? {
        entryScreen := Some(screenName);
      }
    }

    /** `incrementEventCount()`: starts a session if needed and counts one event. */
    method IncrementEventCount(freshId: Uuid, now: real)
      requires Valid()
      modifies this
      ensures Valid() && isActive
      ensures old(isActive) ==> (currentSessionId == old(currentSessionId) && sessionStartTime == old(sessionStartTime)
        && screenViewCount == old(screenViewCount) && eventCount == old(eventCount) + 1 && entryScreen == old(entryScreen))
      ensures !old(isActive) ==> (currentSessionId == freshId && sessionStartTime == now
        && screenViewCount == 0 && eventCount == 1 && entryScreen == None)
    {
      if !isActive {
        StartSession(freshId, now);
      }
      eventCount := eventCount + 1;
    }

    /** `capture()`: the counters, and the time elapsed since the session started. */
    function Capture(now: real): (s: SessionContext)
      reads this
      ensures s.sessionId == currentSessionId && s.duration == now - sessionStartTime
      ensures s.screenViewCount == screenViewCount && s.eventCount == eventCount && s.entryScreen == entryScreen
      ensures Valid() ==> s.screenViewCount >= 0 && s.eventCount >= 0 && (s.entryScreen.Some? <==> s.screenViewCount > 0)
    {
      SessionContext(currentSessionId, now - sessionStartTime, screenViewCount, eventCount, entryScreen)
    }

    function CurrentSessionId(): (id: string)
      reads this
      ensures id == Capture(sessionStartTime).sessionId
    {
      currentSessionId
    }

    function IsSessionActive(): (active: bool)
      reads this
      ensures active == isActive
    {
      isActive
    }
  }

  /**
   * The entry screen is the first screen of a session: later screens are counted but do not
   * replace it, and ending then resuming with a screen view begins a new session whose entry
   * is the new screen.
   */
  method EntryScreenScenario(id1: Uuid, id2: Uuid, id3: Uuid, now: real)
    returns (first: SessionContext, resumed: SessionContext)
    ensures first.entryScreen == Some("home") && first.screenViewCount == 2 && first.sessionId == id2
    ensures resumed.entryScreen == Some("settings") && resumed.screenViewCount == 1 && resumed.sessionId == id3
    ensures resumed.eventCount == 0
  {
    var m := new SessionManager(id1, now);
    m.TrackScreenView("home", id2, now);
    m.IncrementEventCount(id1, now);
    m.TrackScreenView("paywall", id1, now + 1.0);
    first := m.Capture(now + 2.0);
    m.EndSession();
    m.TrackScreenView("settings", id3, now + 3.0);
    resumed := m.Capture(now + 4.0);
  }

  /** Starting an already active session changes nothing: it is not a reset. */
  method StartIsNotReset(id1: Uuid, id2: Uuid, now: real) returns (before: SessionContext, after: SessionContext)
    ensures before == after && after.eventCount == 1
  {
    var m := new SessionManager(id1, now);
    m.IncrementEventCount(id1, now);
    before := m.Capture(now + 5.0);
    m.StartSession(id2, now + 5.0);
    after := m.Capture(now + 5.0);
  }

  // Coding keys: session_id, duration, screen_view_count, event_count, entry_screen (optional).

  function Encode(s: SessionContext): (j: Json)
    ensures j.JObject? && {"session_id", "duration", "screen_view_count", "event_count"} <= j.fields.Keys
    ensures "entry_screen" in j.fields <==> s.entryScreen.Some?
    ensures s.entryScreen.Some? ==> j.fields["entry_screen"] == JString(s.entryScreen.value)
  {
    var base := map[
      "session_id" := JString(s.sessionId),
      "duration" := JNum(s.duration),
      "screen_view_count" := JNum(s.screenViewCount as real),
      "event_count" := JNum(s.eventCount as real)];
    JObject(WithOptionalString(base, "entry_screen", s.entryScreen))
  }

  function Decode(j: Json): Option<SessionContext> {
    var sessionId :- StringField(j, "session_id");
    var duration :- NumField(j, "duration");
    var screenViews :- IntField(j, "screen_view_count");
    var events :- IntField(j, "event_count");
    var entry :- OptionalStringField(j, "entry_screen");
    Some(SessionContext(sessionId, duration, screenViews, events, entry))
  }

  lemma RoundTrip(s: SessionContext)
    ensures Decode(Encode(s)) == Some(s)
  {
    var f := Encode(s).fields;
    assert "entry_screen" in f <==> s.entryScreen.Some?;
    assert f["session_id"] == JString(s.sessionId);
    assert f["duration"] == JNum(s.duration);
    assert f["screen_view_count"] == JNum(s.screenViewCount as real);
    assert f["event_count"] == JNum(s.eventCount as real);
  }
}
