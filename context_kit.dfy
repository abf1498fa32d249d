/**
 * The public entry point (Sources/ContextKit/Core/ContextKit.swift): the static `instance`
 * becomes a field of a `ContextKit` object, and each `Task { await ... }` runs to completion
 * before the call returns. Platform readings, fresh UUIDs and the clock are parameters.
 */
module Facade {
  import opened Wrappers
  import opened Store
  import opened AnyCodable
  import opened Config
  import Snapshot
  import Geo
  import User
  import Session
  import Event
  import Api
  import Tracker

  /** The configuration `configure` installs: the given one (or the default) with only the key replaced. */
  function ConfiguredConfig(apiKey: string, config: Option<ContextKitConfig>): (c: ContextKitConfig)
    ensures c == config.GetOr(Default()).(apiKey := apiKey)
  {
    var base := config.GetOr(Default());
    Make(apiKey, base.baseUrl, base.uploadInterval, base.maxBatchSize, base.debugMode,
      base.enableGeo, base.enableDevice, base.enableTime, base.enableAutoSession)
  }

  /** `configure` validates nothing: with no config the key is installed into the defaults as given, even "". */
  lemma ConfigureWithoutConfig(apiKey: string)
    ensures ConfiguredConfig(apiKey, None) == Make(apiKey)
    ensures ConfiguredConfig(apiKey, None).maxBatchSize == 20
  {
  }

  class ContextKitInstance {
    const config: ContextKitConfig
    const users: User.UserContextManager
    const sessions: Session.SessionManager
    const client: Api.ApiClient
    const tracker: Tracker.EventTracker
    const defaults: Defaults

    predicate Valid()
      reads this, tracker, tracker.sessions, sessions
    {
      tracker.Valid() && tracker.config == config && tracker.users == users && tracker.sessions == sessions
      && tracker.client == client && tracker.defaults == defaults && users.defaults == defaults
    }

    /**
     * `init(config:)`: builds the managers, the client and the tracker; with auto-session on,
     * starts a session and counts it for the user, otherwise does neither.
     */
    constructor(config: ContextKitConfig, defaults: Defaults, sessionId: Uuid, startId: Uuid, now: real)
      modifies defaults
      ensures Valid() && this.config == config && this.defaults == defaults
      ensures fresh(users) && fresh(sessions) && fresh(client) && fresh(tracker)
      ensures sessions.isActive == config.enableAutoSession
      ensures config.enableAutoSession ==> sessions.currentSessionId == startId
      ensures defaults.Integer(User.SessionCountKey) == old(defaults.Integer(User.SessionCountKey)) + (if config.enableAutoSession then 1 else 0)
      ensures defaults.Has(User.InstallDateKey)
      ensures tracker.queue == Tracker.RestoredQueue(old(defaults.values))
      ensures tracker.screenViews == map[] && !tracker.isUploading
    {
      this.config := config;
      this.defaults := defaults;
      var users := new User.UserContextManager(defaults, now);
      var sessions := new Session.SessionManager(sessionId, now);
      var client := new Api.ApiClient(config);
      assert Tracker.RestoredQueue(defaults.values) == Tracker.RestoredQueue(old(defaults.values)) by {
        assert User.InstallDateKey != Tracker.QueueKey;
      }
      this.users := users;
      this.sessions := sessions;
      this.client := client;
      this.tracker := new Tracker.EventTracker(config, users, sessions, client);
      new;
      if config.enableAutoSession {
        sessions.StartSession(startId, now);
        users.IncrementSessionCount();
      }
    }

    /** `track(_:properties:)` on the instance: hands the event to the tracker. */
    method Track(name: string, properties: map<string, AnyValue>, env: Snapshot.Environment, now: real,
                 eventId: Uuid, sessionId: Uuid, net: Api.Network)
      returns (event: Event.ContextEvent, upload: Option<Api.Outcome>)
      requires Valid() && Snapshot.ReadableDevice(env.device)
      modifies tracker, sessions, defaults, client
      ensures Valid()
      ensures event == Event.NewEvent(name, properties, old(Snapshot.Capture(config, users, sessions, env, now)), eventId, now)
      ensures upload.Some? <==> |old(tracker.queue)| + 1 >= config.maxBatchSize && !old(tracker.isUploading)
      ensures upload.Some? ==> upload.value == Api.UploadOutcome(client.config, old(tracker.queue) + [event], now, net)
      ensures upload == Some(Api.Succeeded) ==> tracker.queue == []
      ensures upload != Some(Api.Succeeded) ==> tracker.queue == old(tracker.queue) + [event]
    {
      event, upload := tracker.Track(name, properties, env, now, eventId, sessionId, net);
    }

    /** `trackScreen(_:)` on the instance. */
    method TrackScreen(screenName: string, env: Snapshot.Environment, now: real, eventId: Uuid, sessionId: Uuid, net: Api.Network)
      returns (event: Event.ContextEvent, upload: Option<Api.Outcome>)
      requires Valid() && Snapshot.ReadableDevice(env.device)
      modifies tracker, sessions, defaults, client
      ensures Valid()
      ensures event.name == Tracker.ScreenViewName && event.id == eventId && event.timestamp == now
      ensures event.properties == Tracker.ScreenViewProperties(screenName,
        if screenName in old(tracker.screenViews) then Some(old(tracker.screenViews)[screenName]) else None, now)
      ensures upload.Some? <==> |old(tracker.queue)| + 1 >= config.maxBatchSize && !old(tracker.isUploading)
      ensures upload.Some? ==> upload.value == Api.UploadOutcome(client.config, old(tracker.queue) + [event], now, net)
      ensures upload == Some(Api.Succeeded) ==> tracker.queue == []
      ensures upload != Some(Api.Succeeded) ==> tracker.queue == old(tracker.queue) + [event]
      ensures tracker.screenViews == old(tracker.screenViews)[screenName := now]
      ensures sessions.isActive && sessions.screenViewCount == (if old(sessions.isActive) then old(sessions.screenViewCount) + 1 else 1)
      ensures sessions.entryScreen == (if old(sessions.isActive) && old(sessions.entryScreen).Some? then old(sessions.entryScreen) else Some(screenName))
    {
      event, upload := tracker.TrackScreen(screenName, env, now, eventId, sessionId, net);
    }

    /** `flush()` on the instance. */
    method Flush(now: real, net: Api.Network) returns (outcome: Option<Api.Outcome>)
      requires Valid()
      modifies tracker, defaults, client
      ensures Valid()
      ensures outcome.Some? <==> |old(tracker.queue)| > 0 && !old(tracker.isUploading)
      ensures outcome.Some? ==> outcome.value == Api.UploadOutcome(tracker.client.config, old(tracker.queue), now, net)
      ensures outcome == Some(Api.Succeeded) ==> tracker.queue == []
      ensures outcome != Some(Api.Succeeded) ==> tracker.queue == old(tracker.queue)
    {
      outcome := tracker.Flush(now, net);
    }

    /** `getEventQueue()`: the tracker's pending events, oldest first. */
    function GetEventQueue(): (events: seq<Event.ContextEvent>)
      reads this, tracker
      ensures events == tracker.queue && |events| == tracker.QueueSize()
    {
      tracker.AllEvents()
    }

    /** `getCurrentContext()`: a snapshot under this instance's configuration. */
    function GetCurrentContext(env: Snapshot.Environment, now: real): (s: Snapshot.ContextSnapshot)
      requires Snapshot.ReadableDevice(env.device)
      reads this, users, users.defaults, sessions
      ensures s.user.userId == users.currentUserId && s.session.sessionId == sessions.currentSessionId
      ensures config.enableGeo <==> s.geo.region in Geo.RegionLabels
    {
      Snapshot.DisabledGeoIsRecognisable(config, users, sessions, env, now);
      Snapshot.Capture(config, users, sessions, env, now)
    }

    /** `getInsights(for:)`: a Phase 2 stub. */
    method GetInsights(target: string) returns (insights: seq<Api.Insight>)
      ensures insights == []
    {
      insights := [];
    }

    /** `getRecommendations(for:market:)`: a Phase 2 stub. */
    method GetRecommendations(screen: string, market: Option<string>) returns (recommendations: seq<Api.Recommendation>)
      ensures recommendations == []
    {
      recommendations := [];
    }
  }

  /** The `ContextKit` namespace: at most one instance, replaced by every `configure`. */
  class ContextKit {
    var instance: ContextKitInstance?

    predicate Valid()
      reads this, instance, if instance != null then {instance.tracker, instance.tracker.sessions, instance.sessions} else {}
    {
      instance != null ==> instance.Valid()
    }

    /** What a configured instance may change; nothing before `configure`. */
    function Footprint(): set<object>
      reads this, instance
    {
      if instance == null then {} else {instance.tracker, instance.sessions, instance.defaults, instance.client, instance.users}
    }

    constructor()
      ensures instance == null && Valid()
    {
      instance := null;
    }

    function IsConfigured(): (configured: bool)
      reads this
      ensures configured <==> instance != null
    {
      instance != null
    }

    function GetConfig(): (c: Option<ContextKitConfig>)
      reads this, instance
      ensures c.Some? <==> IsConfigured()
      ensures c.Some? ==> c.value == instance.config
    {
      if instance == null then None else Some(instance.config)
    }

    /** `configure(apiKey:config:)`: always installs a new instance, whatever the key. */
    method Configure(apiKey: string, config: Option<ContextKitConfig>, defaults: Defaults, sessionId: Uuid, startId: Uuid, now: real)
      modifies this, defaults
      ensures Valid() && IsConfigured() && fresh(instance)
      ensures GetConfig() == Some(ConfiguredConfig(apiKey, config))
      ensures instance.defaults == defaults
    {
      instance := new ContextKitInstance(ConfiguredConfig(apiKey, config), defaults, sessionId, startId, now);
    }

    /** `track(_:properties:)`: a no-op until configured. */
    method Track(name: string, properties: map<string, AnyValue>, env: Snapshot.Environment, now: real,
                 eventId: Uuid, sessionId: Uuid, net: Api.Network)
      returns (event: Option<Event.ContextEvent>, upload: Option<Api.Outcome>)
      requires Valid() && Snapshot.ReadableDevice(env.device)
      modifies Footprint()
      ensures Valid() && instance == old(instance)
      ensures event.Some? <==> IsConfigured()
      ensures event.None? ==> upload.None?
      ensures event.Some? ==> event.value.id == eventId && event.value.name == name && event.value.timestamp == now
      ensures instance != null ==> (event.Some? && event.value
        == Event.NewEvent(name, properties, old(Snapshot.Capture(instance.config, instance.users, instance.sessions, env, now)), eventId, now))
      ensures instance != null ==> (event.Some? && (upload.Some? <==>
        |old(instance.tracker.queue)| + 1 >= instance.config.maxBatchSize && !old(instance.tracker.isUploading)))
      ensures instance != null ==> (event.Some? && (upload.Some? ==>
        upload.value == Api.UploadOutcome(instance.client.config, old(instance.tracker.queue) + [event.value], now, net)))
      ensures instance != null ==> (event.Some? && (upload == Some(Api.Succeeded) ==> instance.tracker.queue == []))
      ensures instance != null ==> (event.Some? && (upload != Some(Api.Succeeded) ==>
        instance.tracker.queue == old(instance.tracker.queue) + [event.value]))
    {
      if instance == null {
        return None, None;
      }
      var e;
      e, upload := instance.Track(name, properties, env, now, eventId, sessionId, net);
      event := Some(e);
    }

    /** `trackScreen(_:)`: a no-op until configured. */
    method TrackScreen(screenName: string, env: Snapshot.Environment, now: real, eventId: Uuid, sessionId: Uuid, net: Api.Network)
      returns (event: Option<Event.ContextEvent>, upload: Option<Api.Outcome>)
      requires Valid() && Snapshot.ReadableDevice(env.device)
      modifies Footprint()
      ensures Valid() && instance == old(instance)
      ensures event.Some? <==> IsConfigured()
      ensures event.None? ==> upload.None?
      ensures event.Some? ==> event.value.name == Tracker.ScreenViewName && event.value.id == eventId && event.value.timestamp == now
      ensures instance != null ==> (event.Some? && event.value.properties == Tracker.ScreenViewProperties(screenName,
        if screenName in old(instance.tracker.screenViews) then Some(old(instance.tracker.screenViews)[screenName]) else None, now))
      ensures instance != null ==> instance.tracker.screenViews == old(instance.tracker.screenViews)[screenName := now]
      ensures instance != null ==> (event.Some? && (upload.Some? <==>
        |old(instance.tracker.queue)| + 1 >= instance.config.maxBatchSize && !old(instance.tracker.isUploading)))
      ensures instance != null ==> (event.Some? && (upload.Some? ==>
        upload.value == Api.UploadOutcome(instance.client.config, old(instance.tracker.queue) + [event.value], now, net)))
      ensures instance != null ==> (event.Some? && (upload == Some(Api.Succeeded) ==> instance.tracker.queue == []))
      ensures instance != null ==> (event.Some? && (upload != Some(Api.Succeeded) ==>
        instance.tracker.queue == old(instance.tracker.queue) + [event.value]))
      ensures instance != null ==> (instance.sessions.isActive && instance.sessions.screenViewCount
        == (if old(instance.sessions.isActive) then old(instance.sessions.screenViewCount) + 1 else 1))
      ensures instance != null ==> (instance.sessions.entryScreen
        == if old(instance.sessions.isActive) && old(instance.sessions.entryScreen).Some? then old(instance.sessions.entryScreen) else Some(screenName))
    {
      if instance == null {
        return None, None;
      }
      var e;
      e, upload := instance.TrackScreen(screenName, env, now, eventId, sessionId, net);
      event := Some(e);
    }

    /** `identify(_:)`: a no-op until configured. */
    method Identify(userId: string)
      requires Valid()
      modifies Footprint()
      ensures Valid() && instance == old(instance)
      ensures instance != null ==> instance.users.currentUserId == Some(userId)
      ensures instance != null ==> (instance.users.currentSegment == old(instance.users.currentSegment)
        && instance.users.currentProperties == old(instance.users.currentProperties))
      ensures instance != null ==> unchanged(instance.tracker, instance.sessions, instance.client)
    {
      if instance == null {
        return;
      }
      instance.users.SetUserId(userId);
    }

    /** `setUser(properties:)`: a no-op until configured. */
    method SetUser(properties: map<string, AnyValue>, describe: AnyValue -> string)
      requires Valid()
      modifies Footprint()
      ensures Valid() && instance == old(instance)
      ensures instance != null ==> instance.users.currentProperties == old(instance.users.currentProperties) + User.Stringified(properties, describe)
      ensures instance != null ==> (instance.users.currentUserId == old(instance.users.currentUserId)
        && instance.users.currentSegment == old(instance.users.currentSegment))
      ensures instance != null ==> unchanged(instance.tracker, instance.sessions, instance.client)
    {
      if instance == null {
        return;
      }
      instance.users.SetProperties(properties, describe);
    }

    /** `setUserSegment(_:)`: a no-op until configured. */
    method SetUserSegment(segment: string)
      requires Valid()
      modifies Footprint()
      ensures Valid() && instance == old(instance)
      ensures instance != null ==> instance.users.currentSegment == Some(segment)
      ensures instance != null ==> (instance.users.currentUserId == old(instance.users.currentUserId)
        && instance.users.currentProperties == old(instance.users.currentProperties))
      ensures instance != null ==> unchanged(instance.tracker, instance.sessions, instance.client)
    {
      if instance == null {
        return;
      }
      instance.users.SetSegment(segment);
    }

    /** `flush()`: a no-op until configured. */
    method Flush(now: real, net: Api.Network) returns (outcome: Option<Api.Outcome>)
      requires Valid()
      modifies Footprint()
      ensures Valid() && instance == old(instance)
      ensures instance == null ==> outcome.None?
      ensures instance != null ==> (outcome.Some? ==>
        outcome.value == Api.UploadOutcome(instance.tracker.client.config, old(instance.tracker.queue), now, net))
      ensures instance != null ==> (outcome.Some? <==> |old(instance.tracker.queue)| > 0 && !old(instance.tracker.isUploading))
      ensures outcome == Some(Api.Succeeded) ==> instance.tracker.queue == []
      ensures instance != null && outcome != Some(Api.Succeeded) ==> instance.tracker.queue == old(instance.tracker.queue)
    {
      if instance == null {
        return None;
      }
      outcome := instance.Flush(now, net);
    }

    /** `getInsights(for:)`: empty whether or not configured. */
    method GetInsights(target: string) returns (insights: seq<Api.Insight>)
      ensures insights == []
    {
      if instance == null {
        return [];
      }
      insights := instance.GetInsights(target);
    }

    /** `getRecommendations(for:market:)`: empty whether or not configured. */
    method GetRecommendations(screen: string, market: Option<string>) returns (recommendations: seq<Api.Recommendation>)
      ensures recommendations == []
    {
      if instance == null {
        return [];
      }
      recommendations := instance.GetRecommendations(screen, market);
    }
  }
}
