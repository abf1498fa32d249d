/**
 * The event queue and batch uploader (Sources/ContextKit/Core/EventTracker.swift). The upload
 * is split at its `await` into `BeginUpload` and `FinishUpload`, so that a `Track` can run in
 * between as the actor allows; `UploadEvents` runs the two back to back. Timers and
 * notification observers are left out: the lifecycle handlers are called directly.
 */
module Tracker {
  import opened Wrappers
  import opened Json
  import opened Store
  import opened AnyCodable
  import opened Config
  import Snapshot
  import User
  import Session
  import opened Event
  import Api

  const QueueKey := "ContextKit.eventQueue"
  const ScreenViewName := "screen_view"

  /** The queue `restorePersistedEvents` reads: the stored blob if it decodes, else nothing. */
  function RestoredQueue(values: map<string, StoreValue>): (q: seq<ContextEvent>)
    ensures QueueKey !in values ==> q == []
  {
    if QueueKey in values && values[QueueKey].SData? && DecodeQueue(values[QueueKey].json).Some? then
      DecodeQueue(values[QueueKey].json).value
    else
      []
  }

  /** Persisting a queue and restoring it gives the same events, in order (properties normalised). */
  lemma RestoreAfterPersist(values: map<string, StoreValue>, q: seq<ContextEvent>)
    requires EncodeQueue(q, Snapshot.DeferredToDate).Ok?
    ensures RestoredQueue(values[QueueKey := SData(EncodeQueue(q, Snapshot.DeferredToDate).value)]) == NormalizedQueue(q)
  {
    QueueRoundTrip(q);
  }

  /** Only the queue's key may differ between two store states. */
  predicate OthersUnchanged(before: map<string, StoreValue>, after: map<string, StoreValue>) {
    before.Keys - {QueueKey} == after.Keys - {QueueKey}
    && forall key :: key in before && key != QueueKey ==> key in after && before[key] == after[key]
  }

  lemma OthersUnchangedTransitive(a: map<string, StoreValue>, b: map<string, StoreValue>, c: map<string, StoreValue>)
    requires OthersUnchanged(a, b) && OthersUnchanged(b, c)
    ensures OthersUnchanged(a, c)
  {
  }

  /** The properties of the screen-view event: the screen name, and the time since that screen was last shown if it was. */
  function ScreenViewProperties(screenName: string, lastShown: Option<real>, now: real): (props: map<string, AnyValue>)
    ensures "screen_name" in props && props["screen_name"] == AString(screenName)
    ensures "duration" in props <==> lastShown.Some?
    ensures lastShown.Some? ==> props["duration"] == ADouble(now - lastShown.value)
    ensures props.Keys <= {"screen_name", "duration"}
  {
    match lastShown
    case Some(start) => map["screen_name" := AString(screenName), "duration" := ADouble(now - start)]
    case None => map["screen_name" := AString(screenName)]
  }

  class EventTracker {
    var queue: seq<ContextEvent>
    var screenViews: map<string, real>
    var isUploading: bool
    const config: ContextKitConfig
    const users: User.UserContextManager
    const sessions: Session.SessionManager
    const client: Api.ApiClient
    /** `UserDefaults.standard`, the same store the user manager writes. */
    const defaults: Defaults

    predicate Valid()
      reads this, sessions
    {
      sessions.Valid() && defaults == users.defaults
    }

    /** The stored blob holds the queue whenever the queue can be encoded. */
    predicate Persisted()
      reads this, defaults
    {
      EncodeQueue(queue, Snapshot.DeferredToDate).Ok? ==>
        QueueKey in defaults.values && defaults.values[QueueKey] == SData(EncodeQueue(queue, Snapshot.DeferredToDate).value)
    }

    /** `init`: restores the persisted queue; a missing or corrupt blob gives an empty queue. */
    constructor(config: ContextKitConfig, users: User.UserContextManager, sessions: Session.SessionManager, client: Api.ApiClient)
      requires sessions.Valid()
      ensures Valid() && !isUploading && screenViews == map[]
      ensures this.config == config && this.users == users && this.sessions == sessions && this.client == client
      ensures queue == RestoredQueue(users.defaults.values)
    {
      this.config := config;
      this.users := users;
      this.sessions := sessions;
      this.client := client;
      this.defaults := users.defaults;
      screenViews := map[];
      isUploading := false;
      queue := RestoredQueue(users.defaults.values);
    }

    function QueueSize(): (n: nat)
      reads this
      ensures n == |queue|
    {
      |queue|
    }

    function AllEvents(): (events: seq<ContextEvent>)
      reads this
      ensures events == queue
    {
      queue
    }

    /** `persistEvents()`: stores the encoded queue, or does nothing if encoding fails. */
    method Persist()
      modifies defaults
      ensures Persisted()
      ensures EncodeQueue(queue, Snapshot.DeferredToDate).Ok? ==>
        defaults.values == old(defaults.values)[QueueKey := SData(EncodeQueue(queue, Snapshot.DeferredToDate).value)]
        && RestoredQueue(defaults.values) == NormalizedQueue(queue)
      ensures EncodeQueue(queue, Snapshot.DeferredToDate).Err? ==> defaults.values == old(defaults.values)
      ensures OthersUnchanged(old(defaults.values), defaults.values)
    {
      var encoded := EncodeQueue(queue, Snapshot.DeferredToDate);
      if encoded.Ok? {
        defaults.Set(QueueKey, SData(encoded.value));
        RestoreAfterPersist(old(defaults.values), queue);
      }
    }

    /** The first half of `uploadEvents()`: nothing happens on an empty queue or during another upload. */
    method BeginUpload() returns (started: bool, batch: seq<ContextEvent>)
      modifies this
      ensures started <==> |old(queue)| > 0 && !old(isUploading)
      ensures started ==> isUploading && batch == queue
      ensures !started ==> isUploading == old(isUploading)
      ensures queue == old(queue) && screenViews == old(screenViews)
    {
      if |queue| == 0 || isUploading {
        return false, [];
      }
      isUploading := true;
      started, batch := true, queue;
    }

    /**
     * The second half of `uploadEvents()`: success empties the WHOLE queue (`removeAll()`),
     * including events appended since `BeginUpload`, and persists it; failure keeps the queue.
     * Either way the upload flag is cleared.
     */
    method FinishUpload(ok: bool)
      modifies this, defaults
      ensures !isUploading && screenViews == old(screenViews)
      ensures ok ==> queue == [] && Persisted() && OthersUnchanged(old(defaults.values), defaults.values)
      ensures !ok ==> queue == old(queue) && defaults.values == old(defaults.values)
    {
      if ok {
        queue := [];
        Persist();
      }
      isUploading := false;
    }

    /**
     * `uploadEvents()`: returns the upload's outcome, or None when the guard skipped it, and
     * the request sent, which carries the whole queue as it was.
     */
    method UploadEvents(now: real, net: Api.Network) returns (outcome: Option<Api.Outcome>, sent: Option<Api.Request>)
      modifies this, defaults, client
      ensures outcome.Some? <==> |old(queue)| > 0 && !old(isUploading)
      ensures outcome.Some? ==> outcome.value == Api.UploadOutcome(client.config, old(queue), now, net)
      ensures sent.Some? <==> (outcome.Some? && net.urlParses(client.config.baseUrl + "/events")
        && Api.BatchPayload(client.config.apiKey, old(queue), now).Ok?)
      ensures sent.Some? ==> (sent.value.url == client.config.baseUrl + "/events"
        && Ok(sent.value.payload) == Api.BatchPayload(client.config.apiKey, old(queue), now))
      ensures outcome == Some(Api.Succeeded) ==> queue == [] && Persisted() && !isUploading
      ensures outcome != Some(Api.Succeeded) ==> queue == old(queue) && defaults.values == old(defaults.values)
      ensures outcome.Some? ==> !isUploading
      ensures outcome.None? ==> isUploading == old(isUploading)
      ensures OthersUnchanged(old(defaults.values), defaults.values) && screenViews == old(screenViews)
      ensures old(client.AttemptsReset()) ==> client.AttemptsReset()
    {
      var started, batch := BeginUpload();
      if !started {
        return None, None;
      }
      var o, request, calls := client.UploadEvents(batch, now, net);
      FinishUpload(o.Succeeded?);
      outcome, sent := Some(o), request;
    }

    /** `flush()`. */
    method Flush(now: real, net: Api.Network) returns (outcome: Option<Api.Outcome>)
      modifies this, defaults, client
      ensures outcome.Some? <==> |old(queue)| > 0 && !old(isUploading)
      ensures outcome.Some? ==> outcome.value == Api.UploadOutcome(client.config, old(queue), now, net)
      ensures outcome == Some(Api.Succeeded) ==> queue == [] && Persisted()
      ensures outcome != Some(Api.Succeeded) ==> queue == old(queue)
    {
      var sent;
      outcome, sent := UploadEvents(now, net);
    }

    /**
     * The first part of `track`: the snapshot is taken before the session's event count is
     * incremented, and the new event is appended.
     */
    method Enqueue(name: string, properties: map<string, AnyValue>, env: Snapshot.Environment, now: real, eventId: Uuid, sessionId: Uuid)
      returns (event: ContextEvent)
      requires Valid() && Snapshot.ReadableDevice(env.device)
      modifies this, sessions
      ensures Valid() && screenViews == old(screenViews) && isUploading == old(isUploading)
      ensures event == NewEvent(name, properties, old(Snapshot.Capture(config, users, sessions, env, now)), eventId, now)
      ensures event.context == Snapshot.Assemble(config, env, old(users.Capture(now)), old(sessions.Capture(now)), now)
      ensures queue == old(queue) + [event]
      ensures sessions.isActive && sessions.eventCount == (if old(sessions.isActive) then old(sessions.eventCount) + 1 else 1)
      ensures old(sessions.isActive) ==> (sessions.screenViewCount == old(sessions.screenViewCount)
        && sessions.currentSessionId == old(sessions.currentSessionId) && sessions.entryScreen == old(sessions.entryScreen)
        && sessions.sessionStartTime == old(sessions.sessionStartTime))
    {
      var context := Snapshot.Capture(config, users, sessions, env, now);
      event := NewEvent(name, properties, context, eventId, now);
      queue := queue + [event];
      sessions.IncrementEventCount(sessionId, now);
    }

    /**
     * `track(name:properties:)`: enqueue; a full batch (count >= maxBatchSize) triggers an
     * upload; the queue is persisted last.
     */
    method Track(name: string, properties: map<string, AnyValue>, env: Snapshot.Environment, now: real,
                 eventId: Uuid, sessionId: Uuid, net: Api.Network)
      returns (event: ContextEvent, upload: Option<Api.Outcome>)
      requires Valid() && Snapshot.ReadableDevice(env.device)
      modifies this, sessions, defaults, client
      ensures Valid() && Persisted() && screenViews == old(screenViews)
      ensures event == NewEvent(name, properties, old(Snapshot.Capture(config, users, sessions, env, now)), eventId, now)
      ensures event.context == Snapshot.Assemble(config, env, old(users.Capture(now)), old(sessions.Capture(now)), now)
      ensures upload.Some? <==> |old(queue)| + 1 >= config.maxBatchSize && !old(isUploading)
      ensures upload.Some? ==> upload.value == Api.UploadOutcome(client.config, old(queue) + [event], now, net)
      ensures upload == Some(Api.Succeeded) ==> queue == []
      ensures upload != Some(Api.Succeeded) ==> queue == old(queue) + [event]
      ensures isUploading == old(isUploading)
      ensures sessions.isActive && sessions.eventCount == (if old(sessions.isActive) then old(sessions.eventCount) + 1 else 1)
      ensures old(sessions.isActive) ==> (sessions.screenViewCount == old(sessions.screenViewCount)
        && sessions.currentSessionId == old(sessions.currentSessionId) && sessions.entryScreen == old(sessions.entryScreen)
        && sessions.sessionStartTime == old(sessions.sessionStartTime))
      ensures OthersUnchanged(old(defaults.values), defaults.values)
    {
      event := Enqueue(name, properties, env, now, eventId, sessionId);
      upload := UploadIfFullAndPersist(now, net);
    }

    /** The rest of `track`: upload when the batch is full, then persist. */
    method UploadIfFullAndPersist(now: real, net: Api.Network) returns (upload: Option<Api.Outcome>)
      requires |queue| > 0
      modifies this, defaults, client
      ensures Persisted() && screenViews == old(screenViews) && isUploading == old(isUploading)
      ensures upload.Some? <==> |old(queue)| >= config.maxBatchSize && !old(isUploading)
      ensures upload.Some? ==> upload.value == Api.UploadOutcome(client.config, old(queue), now, net)
      ensures upload == Some(Api.Succeeded) ==> queue == []
      ensures upload != Some(Api.Succeeded) ==> queue == old(queue)
      ensures OthersUnchanged(old(defaults.values), defaults.values)
    {
      upload := None;
      if |queue| >= config.maxBatchSize {
        var sent;
        upload, sent := UploadEvents(now, net);
      }
      var beforePersist := defaults.values;
      Persist();
      OthersUnchangedTransitive(old(defaults.values), beforePersist, defaults.values);
    }

    /**
     * `trackScreen(name:)`: counts the view in the session, tracks one "screen_view" event
     * (with a duration only when this screen was shown before), then records when it was shown.
     */
    method TrackScreen(screenName: string, env: Snapshot.Environment, now: real, eventId: Uuid, sessionId: Uuid, net: Api.Network)
      returns (event: ContextEvent, upload: Option<Api.Outcome>)
      requires Valid() && Snapshot.ReadableDevice(env.device)
      modifies this, sessions, defaults, client
      ensures Valid() && Persisted()
      ensures event.name == ScreenViewName && event.id == eventId
      ensures event.properties == ScreenViewProperties(screenName, if screenName in old(screenViews) then Some(old(screenViews)[screenName]) else None, now)
      ensures event.timestamp == now
      ensures event.context == Snapshot.Assemble(config, env, old(users.Capture(now)),
        Session.AfterScreenView(old(sessions.Capture(now)), old(sessions.isActive), screenName, sessionId), now)
      ensures screenViews == old(screenViews)[screenName := now]
      ensures upload.Some? <==> |old(queue)| + 1 >= config.maxBatchSize && !old(isUploading)
      ensures upload.Some? ==> upload.value == Api.UploadOutcome(client.config, old(queue) + [event], now, net)
      ensures upload == Some(Api.Succeeded) ==> queue == []
      ensures upload != Some(Api.Succeeded) ==> queue == old(queue) + [event]
      ensures sessions.isActive && sessions.screenViewCount == (if old(sessions.isActive) then old(sessions.screenViewCount) + 1 else 1)
      ensures sessions.eventCount == (if old(sessions.isActive) then old(sessions.eventCount) + 1 else 1)
      ensures sessions.entryScreen == (if old(sessions.isActive) && old(sessions.entryScreen).Some? then old(sessions.entryScreen) else Some(screenName))
    {
      ghost var user := users.Capture(now);
      sessions.TrackScreenView(screenName, sessionId, now);
      assert users.Capture(now) == user;
      event, upload := TrackViewed(screenName, env, now, eventId, sessionId, net);
    }

    /**
     * The rest of `trackScreen(name:)` once the session has counted the view: the
     * "screen_view" event is tracked in that session, and the time this screen was shown is
     * recorded.
     */
    method TrackViewed(screenName: string, env: Snapshot.Environment, now: real, eventId: Uuid, sessionId: Uuid, net: Api.Network)
      returns (event: ContextEvent, upload: Option<Api.Outcome>)
      requires Valid() && Snapshot.ReadableDevice(env.device) && sessions.isActive
      modifies this, sessions, defaults, client
      ensures Valid() && Persisted()
      ensures event.name == ScreenViewName && event.id == eventId && event.timestamp == now
      ensures event.properties == ScreenViewProperties(screenName, if screenName in old(screenViews) then Some(old(screenViews)[screenName]) else None, now)
      ensures event.context == Snapshot.Assemble(config, env, old(users.Capture(now)), old(sessions.Capture(now)), now)
      ensures screenViews == old(screenViews)[screenName := now]
      ensures upload.Some? <==> |old(queue)| + 1 >= config.maxBatchSize && !old(isUploading)
      ensures upload.Some? ==> upload.value == Api.UploadOutcome(client.config, old(queue) + [event], now, net)
      ensures upload == Some(Api.Succeeded) ==> queue == []
      ensures upload != Some(Api.Succeeded) ==> queue == old(queue) + [event]
      ensures sessions.isActive && sessions.eventCount == old(sessions.eventCount) + 1
      ensures sessions.screenViewCount == old(sessions.screenViewCount) && sessions.entryScreen == old(sessions.entryScreen)
      ensures sessions.currentSessionId == old(sessions.currentSessionId) && sessions.sessionStartTime == old(sessions.sessionStartTime)
    {
      var lastShown := if screenName in screenViews then Some(screenViews[screenName]) else None;
      event, upload := Track(ScreenViewName, ScreenViewProperties(screenName, lastShown, now), env, now, eventId, sessionId, net);
      screenViews := screenViews[screenName := now];
    }

    /** `handleAppBackground()`: ends the session, uploads, persists. */
    method HandleAppBackground(now: real, net: Api.Network) returns (outcome: Option<Api.Outcome>)
      requires Valid()
      modifies this, sessions, defaults, client
      ensures Valid() && Persisted() && !sessions.isActive
      ensures sessions.eventCount == old(sessions.eventCount) && sessions.currentSessionId == old(sessions.currentSessionId)
      ensures sessions.screenViewCount == old(sessions.screenViewCount) && sessions.entryScreen == old(sessions.entryScreen)
      ensures sessions.sessionStartTime == old(sessions.sessionStartTime) && screenViews == old(screenViews)
      ensures outcome.Some? <==> |old(queue)| > 0 && !old(isUploading)
      ensures outcome.Some? ==> outcome.value == Api.UploadOutcome(client.config, old(queue), now, net)
      ensures outcome == Some(Api.Succeeded) ==> queue == []
      ensures outcome != Some(Api.Succeeded) ==> queue == old(queue)
    {
      sessions.EndSession();
      var sent;
      outcome, sent := UploadEvents(now, net);
      Persist();
    }

    /** `handleAppForeground()`: starts a session (a no-op if one is active) and counts a session for the user. */
    method HandleAppForeground(sessionId: Uuid, now: real)
      requires Valid()
      modifies sessions, defaults
      ensures Valid() && sessions.isActive
      ensures old(sessions.isActive) ==> unchanged(sessions)
      ensures !old(sessions.isActive) ==> (sessions.currentSessionId == sessionId && sessions.sessionStartTime == now
        && sessions.screenViewCount == 0 && sessions.eventCount == 0 && sessions.entryScreen == None)
      ensures defaults.values == old(defaults.values)[User.SessionCountKey := SInt(old(defaults.Integer(User.SessionCountKey)) + 1)]
    {
      sessions.StartSession(sessionId, now);
      users.IncrementSessionCount();
    }

    /** `handleAppTerminate()`: uploads, then persists. */
    method HandleAppTerminate(now: real, net: Api.Network) returns (outcome: Option<Api.Outcome>)
      requires Valid()
      modifies this, defaults, client
      ensures Valid() && Persisted()
      ensures outcome.Some? <==> |old(queue)| > 0 && !old(isUploading)
      ensures outcome.Some? ==> outcome.value == Api.UploadOutcome(client.config, old(queue), now, net)
      ensures outcome == Some(Api.Succeeded) ==> queue == []
      ensures outcome != Some(Api.Succeeded) ==> queue == old(queue)
    {
      var sent;
      outcome, sent := UploadEvents(now, net);
      Persist();
    }
  }

  /**
   * The upload window: an event tracked while an upload is in flight is not in the uploaded
   * batch, yet a successful upload removes it from the queue with the rest.
   */
  method EventTrackedDuringUploadIsDropped(t: EventTracker, env: Snapshot.Environment, now: real, eventId: Uuid, sessionId: Uuid, net: Api.Network)
    returns (batch: seq<ContextEvent>, late: ContextEvent)
    requires t.Valid() && Snapshot.ReadableDevice(env.device) && |t.queue| > 0 && !t.isUploading
    requires forall i :: 0 <= i < |t.queue| ==> t.queue[i].id != eventId
    modifies t, t.sessions, t.defaults, t.client
    ensures late !in batch && t.queue == []
  {
    var started;
    started, batch := t.BeginUpload();
    var upload;
    late, upload := t.Track("purchase_completed", map[], env, now, eventId, sessionId, net);
    assert late.id == eventId;
    t.FinishUpload(true);
  }
}
