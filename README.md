# ContextKit in Dafny

ContextKit is a context-aware event tracking SDK for iOS with a small collector behind it.
Every event an app tracks is enriched with a snapshot of its context:

- time of day, weekday and day period;
- country, region, locale and currency;
- device model, screen, battery and network;
- user id, segment, session count and days since install;
- session id, duration, screen views and entry screen.

The SDK queues these events, persists the queue in `UserDefaults`, and uploads it in batches with retries. The collector is a Cloudflare Worker. It checks every upload against zod schemas, stores the events in D1 tables, keeps a per-user row, and serves a few read endpoints.

This project models both halves and proves properties of the model.

**SDK (Swift)**
- **Context records** (`time_context.dfy`, `geo_context.dfy`, `device_context.dfy`, `user_context.dfy`, `session_context.dfy`):
  - what `capture()` computes from the platform's readings;
  - each record's JSON coding, with a round-trip lemma.
- **Snapshot and events** (`context_snapshot.dfy`, `context_event.dfy`, `any_codable.dfy`):
  - the snapshot and the event;
  - the type-erased `AnyCodable` property values;
  - the persisted queue's coding.
- **Configuration** (`config.dfy`).
- **Response keys** (`snake_case.dfy`): the snake-case key conversion the response decoder applies before matching coding keys.
- **Classes with their state.** The actors that hold state become classes whose methods change their fields:
  - `UserContextManager` and `SessionManager`;
  - `EventTracker` (`event_tracker.dfy`);
  - `APIClient` (`api_client.dfy`);
  - the `ContextKit` facade and its instance (`context_kit.dfy`);
  - `UserDefaults`, a key–value store shared by the user manager and the tracker (`store.dfy`).
- **Retry loop.** `executeWithRetry` is a recursive function over the answers the network gives to successive calls.

**Collector (TypeScript)**
- **Schemas** (`schemas.dfy`): the zod schemas as predicates over JSON trees.
- **Data layer** (`database.dfy`): a `Database` class whose fields are the `apps`, `events`, `users` and `api_usage` tables.
- **Request handler** (`router.dfy`): routing, authorization, `parseInt`-based query parameters, and the ingestion and registration handlers.

**Interop** (`interop.dfy`) relates the two halves:
- every record, snapshot and event the SDK uploads passes the collector's schema;
- an uploaded batch is accepted exactly when it holds 1 to 100 events and its key has the right prefix;
- every recommendation the schema allows decodes in the SDK.

Where the code and its stated design disagree, the model follows the code and proves what the code does:

- **Successful upload clears the whole queue.** `uploadEvents` calls `removeAll()` (`Tracker.EventTracker.FinishUpload`). An event tracked while the upload was in flight is removed with the batch without ever having been sent (`Tracker.EventTrackedDuringUploadIsDropped`).
- **Every error is retried.** The `catch` in `executeWithRetry` also catches what its own `do` block throws. So:
  - a 4xx is retried like a transport error (`Api.ClientErrorsAreRetried`);
  - a failed nested retry is retried again;
  - a run of 5xx answers makes seven requests, not three (`Api.AllServerErrors`).
- **Compression header.** A body over 1024 bytes gets the header `Content-Encoding: gzip`, but it is compressed with zlib. The compressor is a parameter of the model, so `Api.PostRequest` proves only the `gzip` label; the zlib format is not modelled.
- **`startSession()` is not a reset.** It does nothing while a session is active (`Session.StartIsNotReset`).
- **Batch size.** The SDK uploads its whole queue in one request, while the collector refuses batches of more than 100 events. A queue that grows past 100 is therefore refused as a whole (`Interop.BatchAcceptedIff`).
- **The event limit is only capped above.** `Math.min(parseInt(...), 1000)` lets NaN and negative limits through (`Router.EventLimit`, `Router.EventLimitWithoutDigits`).
- **App id from the fourth path piece.** The read routes take the app id from `path.split('/')[3]`, so `/v1/apps/summary` asks for the summary of an app with id "summary" (`Router.SummaryOfAppNamedSummary`).
- **Persisted dates.** The persisted queue writes dates as numbers, which the snapshot schema refuses (`Interop.PersistedSnapshotRefused`). Only the ISO-8601 upload form is accepted.
- **`expected_impact` is never decoded.** The response decoder converts every received key from snake case before matching it. `Recommendation` declares the coding key `expected_impact`, which no converted key can equal (`SnakeCase.NothingConvertsToExpectedImpact`). So `expectedImpact` is always nil, whatever the collector sends (`Interop.ExpectedImpactIgnored`).
- **Optional `affected_context`.** The key `affected_context` converts to `affectedContext` (`SnakeCase.TwoWords`), so it does reach the Swift `Insight`. But `affectedContext` is not optional there, while the collector's schema makes the key optional. An insight without it would fail to decode. The insight decoder is not part of this model (see below).

## Model

| member | source | states |
|---|---|---|
| Time.PeriodFromName | Sources/ContextKit/Context/TimeContext.swift:24-29 | a decoded day-period name is the raw value of the period it yields |
| Time.PeriodNameRoundTrip | Sources/ContextKit/Context/TimeContext.swift:24-29 | every period's raw value decodes back to that period |
| Time.PeriodFromHour | Sources/ContextKit/Context/TimeContext.swift:31-42 | morning iff 5–11, afternoon iff 12–16, evening iff 17–20, night for every other integer |
| Time.DayOfWeekIsBijection | Sources/ContextKit/Context/TimeContext.swift:53-58 | the Sunday-first weekday maps into 1…7, the map is undone by its inverse, and weekend (Sunday/Saturday) is exactly day 6 or 7 |
| Time.CalendarWeekdayIsBijection | Sources/ContextKit/Context/TimeContext.swift:56 | the inverse conversion maps 1…7 into 1…7 and is undone by the forward one |
| Time.LocalTimeText | Sources/ContextKit/Context/TimeContext.swift:62-65 | the "HH:mm" text is five characters, digits around one colon at index 2 |
| Time.ParseLocalTime | Sources/ContextKit/Context/TimeContext.swift:62-65 | any text it accepts is the "HH:mm" text of the reading it returns |
| Time.LocalTimeRoundTrip | Sources/ContextKit/Context/TimeContext.swift:62-65 | every clock reading's text parses back to it, and its only colon is at index 2 |
| Text.Pad2RoundTrip | Sources/ContextKit/Context/TimeContext.swift:64 | a two-digit field of a number below 100 reads back as that number |
| Time.Capture | Sources/ContextKit/Context/TimeContext.swift:47-77 | the hour is the calendar's (0 when missing), the period is derived from it, the zone and local time are the platform's |
| Time.CaptureInRange | Sources/ContextKit/Context/TimeContext.swift:47-77 | with calendar values in range the record has hour 0–23, day 1–7, weekend iff day 6 or 7, and the day maps back to the weekday |
| Time.CaptureDefaults | Sources/ContextKit/Context/TimeContext.swift:52-58 | missing components give hour 0, Sunday (day 7), weekend, night |
| Time.Empty | Sources/ContextKit/Context/ContextSnapshot.swift:76-87 | the disabled record: hour 0, day 1, not a weekend, zone "unknown", local time "00:00" (the text of 0:00), night (agreeing with the period bins) |
| Time.Encode | Sources/ContextKit/Context/TimeContext.swift:79-86 | an object with exactly the six coding keys |
| Time.RoundTrip | Sources/ContextKit/Context/TimeContext.swift:79-86 | decoding the encoding gives back the record |
| Geo.RegionFrom | Sources/ContextKit/Context/GeoContext.swift:42-80 | the label of a table containing the code, or "Other" exactly when no remaining table contains it |
| Geo.ComputeRegion | Sources/ContextKit/Context/GeoContext.swift:42-80 | one of the seven labels; "Other" exactly when no table lists the code |
| Geo.ApartByCharacters | Sources/ContextKit/Context/GeoContext.swift:44-74 | two tables of two-letter codes that differ in a character share no code |
| Geo.TablesDisjoint | Sources/ContextKit/Context/GeoContext.swift:44-74 | no code is listed in two region tables, so the test order does not matter |
| Geo.TablesHoldUpperCodes | Sources/ContextKit/Context/GeoContext.swift:44-74 | every listed code is two upper-case letters |
| Geo.NonCodeIsOther | Sources/ContextKit/Context/GeoContext.swift:79 | anything that is not two upper-case letters (such as "unknown" or "us") is "Other" |
| Geo.RegionOfListedCode | Sources/ContextKit/Context/GeoContext.swift:42-80 | a code listed in a table gets that table's label |
| Geo.RegionFromListed | Sources/ContextKit/Context/GeoContext.swift:42-80 | with disjoint tables, the scan from any earlier table finds the listing table's label |
| Geo.NorthAmericaExamples | Sources/ContextKit/Context/GeoContext.swift:56-59 | US, CA and MX are North America; "us" and "unknown" are Other |
| Geo.Capture | Sources/ContextKit/Context/GeoContext.swift:23-39 | the region is computed from the country code; missing values default to "unknown", "USD" and "en" |
| Geo.Empty | Sources/ContextKit/Context/ContextSnapshot.swift:89-99 | all five fields are "unknown", so the region is none of the computed labels |
| Geo.Encode | Sources/ContextKit/Context/GeoContext.swift:82-88 | an object with exactly the five coding keys |
| Geo.RoundTrip | Sources/ContextKit/Context/GeoContext.swift:82-88 | decoding the encoding gives back the record |
| Device.BatteryStateFromName | Sources/ContextKit/Context/DeviceContext.swift:44-49 | a decoded battery-state name is the raw value of the state it yields |
| Device.NetworkTypeFromName | Sources/ContextKit/Context/DeviceContext.swift:52-57 | a decoded network-type name is the raw value of the type it yields |
| Device.EnumNamesRoundTrip | Sources/ContextKit/Context/DeviceContext.swift:44-57 | every battery state and network type decodes back from its raw value |
| Device.Identifier | Sources/ContextKit/Context/DeviceContext.swift:127-133 | the machine identifier keeps only non-zero bytes, each an ASCII character, never longer than the buffer |
| Device.Characters | Sources/ContextKit/Context/DeviceContext.swift:132 | each non-zero byte becomes the character with that code |
| Device.PaddedIdentifier | Sources/ContextKit/Context/DeviceContext.swift:127-133 | for a NUL-padded `utsname` buffer the identifier is exactly the name before the padding |
| Device.NameIdentifier | Sources/ContextKit/Context/DeviceContext.swift:130-133 | a buffer with no zero byte gives its characters unchanged |
| Device.DeviceModel | Sources/ContextKit/Context/DeviceContext.swift:125-159 | a listed identifier gives its readable name, any other identifier is reported as is |
| Device.DeviceModelExamples | Sources/ContextKit/Context/DeviceContext.swift:136-155 | "iPhone16,1" is "iPhone 15 Pro"; an unlisted identifier is not in the table |
| Device.BatteryLevel | Sources/ContextKit/Context/DeviceContext.swift:73 | the level is the reading when non-negative and exactly -1 otherwise |
| Device.MapBatteryState | Sources/ContextKit/Context/DeviceContext.swift:74-86 | a platform state unknown to the SDK (`@unknown default`) maps to unknown |
| Device.MapBatteryStateOneToOne | Sources/ContextKit/Context/DeviceContext.swift:74-86 | the four known platform states map one-to-one |
| Device.DetectNetworkType | Sources/ContextKit/Context/DeviceContext.swift:162-167 | the network type is always wifi |
| Device.AvailableDiskSpace | Sources/ContextKit/Context/DeviceContext.swift:170-181 | the volume capacity when the query yields one, -1 when it is missing or throws |
| Device.Capture | Sources/ContextKit/Context/DeviceContext.swift:61-105 | on UIKit: the model from the table, the battery level and state as mapped, wifi, and the disk space as queried |
| Device.FallbackCapture | Sources/ContextKit/Context/DeviceContext.swift:106-121 | without UIKit: "Mac", zero screen, scale 1, battery -1 and unknown, wifi, no low-power mode |
| Device.Empty | Sources/ContextKit/Context/ContextSnapshot.swift:101-117 | the disabled record: "unknown" model and version, a 0×0 screen at scale 1, battery -1 and unknown, no low-power mode, unknown network (never what capture reports), disk -1 (as a failed query), memory 0 |
| Device.Encode | Sources/ContextKit/Context/DeviceContext.swift:183-195 | an object with exactly the eleven coding keys |
| Device.RoundTrip | Sources/ContextKit/Context/DeviceContext.swift:183-195 | decoding the encoding gives back the record |
| Store.Defaults.constructor | Sources/ContextKit/Context/UserContext.swift:46 | the store starts with the given values |
| Store.Defaults.Integer | Sources/ContextKit/Context/UserContext.swift:74 | a stored integer is returned as is; an absent key reads as 0 |
| Store.Defaults.StringFor | Sources/ContextKit/Context/UserContext.swift:64-65 | a string exactly when the key holds a string |
| Store.Defaults.DataFor | Sources/ContextKit/Context/UserContext.swift:66 | data exactly when the key holds data |
| Store.Defaults.DateFor | Sources/ContextKit/Context/UserContext.swift:125 | a date exactly when the key holds a date |
| Store.Defaults.Set | Sources/ContextKit/Context/UserContext.swift:60 | the key holds the new value and every other key is unchanged |
| Json.AsStringMap | Sources/ContextKit/Context/UserContext.swift:66-67 | an object decodes as a string dictionary exactly when every value is a string, with the same keys |
| Json.StringMapRoundTrip | Sources/ContextKit/Context/UserContext.swift:104-105 | an encoded string dictionary decodes back to itself |
| User.DaysBetween | Sources/ContextKit/Context/UserContext.swift:124-132 | the whole days elapsed, rounded toward zero: 0 ≤ days·86400 ≤ elapsed < (days+1)·86400 forward, mirrored backward |
| User.LoadedProperties | Sources/ContextKit/Context/UserContext.swift:66-69 | no stored blob means no properties |
| User.LoadAfterStore | Sources/ContextKit/Context/UserContext.swift:66-69 | what the property setter stores is exactly what the next start loads |
| User.Describe | Sources/ContextKit/Context/UserContext.swift:93-100 | a string is kept as is; a Bool is "true" or "false" as it is true or false |
| User.Stringified | Sources/ContextKit/Context/UserContext.swift:93-100 | the kept keys are exactly the describable values, each stored as its description |
| User.MergeKeepsAndOverrides | Sources/ContextKit/Context/UserContext.swift:102 | a new value wins; a key not given keeps its old value; the merged keys are the union |
| User.UserContextManager.constructor | Sources/ContextKit/Context/UserContext.swift:57-70 | the install date is written on first launch only; id, segment and properties are loaded from the store |
| User.UserContextManager.IncrementSessionCount | Sources/ContextKit/Context/UserContext.swift:73-76 | the stored session count is one more than before, nothing else changes |
| User.UserContextManager.SetUserId | Sources/ContextKit/Context/UserContext.swift:79-82 | the id is set and stored; segment and properties are unchanged |
| User.UserContextManager.SetSegment | Sources/ContextKit/Context/UserContext.swift:85-88 | the segment is set and stored; id and properties are unchanged |
| User.UserContextManager.SetProperties | Sources/ContextKit/Context/UserContext.swift:91-107 | the describable properties are merged in, persisted, and load back as the current properties |
| User.UserContextManager.DaysSinceInstall | Sources/ContextKit/Context/UserContext.swift:124-132 | 0 without an install date, else the whole days since it |
| User.UserContextManager.Capture | Sources/ContextKit/Context/UserContext.swift:110-121 | the record holds the current id, segment and properties, the stored session count and the days since install |
| User.FirstLaunch | Sources/ContextKit/Context/UserContext.swift:57-61 | on first launch the install date is now; later starts do not move it, and the first day counts as day 0 |
| User.Encode | Sources/ContextKit/Context/UserContext.swift:35-41 | an object with the count, days and properties keys; "user_id" and "segment" are present exactly when set, holding their strings |
| User.RoundTrip | Sources/ContextKit/Context/UserContext.swift:35-41 | decoding the encoding gives back the record |
| Session.SessionManager.constructor | Sources/ContextKit/Context/SessionContext.swift:53-56 | a manager starts inactive with a fresh id, zero counters and no entry screen |
| Session.SessionManager.StartSession | Sources/ContextKit/Context/SessionContext.swift:59-68 | an inactive manager gets a fresh id, the start time and zero counters; an active one is left unchanged |
| Session.SessionManager.EndSession | Sources/ContextKit/Context/SessionContext.swift:71-73 | only the active flag is cleared |
| Session.SessionManager.TrackScreenView | Sources/ContextKit/Context/SessionContext.swift:76-85 | starts a session if needed, counts the view, and records the entry screen only when there is none; the captured session record is the one before the view, advanced by the view |
| Session.SessionManager.IncrementEventCount | Sources/ContextKit/Context/SessionContext.swift:88-93 | starts a session if needed and counts one event |
| Session.SessionManager.Capture | Sources/ContextKit/Context/SessionContext.swift:96-106 | the counters, and the duration since the start; an entry screen exactly when a screen was viewed |
| Session.SessionManager.CurrentSessionId | Sources/ContextKit/Context/SessionContext.swift:109-111 | the id the session context reports |
| Session.SessionManager.IsSessionActive | Sources/ContextKit/Context/SessionContext.swift:114-116 | the active flag |
| Session.EntryScreenScenario | Sources/ContextKit/Context/SessionContext.swift:76-85 | the first screen stays the entry while later screens are counted; after end and resume a new session begins with the new screen |
| Session.StartIsNotReset | Sources/ContextKit/Context/SessionContext.swift:59-68 | starting an active session changes nothing |
| Session.Encode | Sources/ContextKit/Context/SessionContext.swift:35-41 | an object with the id, duration and counter keys; "entry_screen" is present exactly when set, holding the screen |
| Session.RoundTrip | Sources/ContextKit/Context/SessionContext.swift:35-41 | decoding the encoding gives back the record |
| Config.Default | Sources/ContextKit/Core/ContextKitConfig.swift:33-45 | no key, the production URL, a 30 s interval, batches of 20, debug off, all collection on |
| Config.Make | Sources/ContextKit/Core/ContextKitConfig.swift:58-78 | every field is the argument given for it |
| Config.Test | Sources/ContextKit/Core/ContextKitConfig.swift:81-86 | the defaults with the given key and debug on |
| Config.MakeWithDefaults | Sources/ContextKit/Core/ContextKitConfig.swift:58-86 | the initialiser's default arguments are the default configuration |
| Snapshot.IsoText | Sources/ContextKit/Network/APIClient.swift:78 | the ISO-8601 text of a date is a non-empty string ending in "Z" |
| Snapshot.IsoTextDropsFraction | Sources/ContextKit/Network/APIClient.swift:78 | dates within the same second have the same text |
| Snapshot.EncodeDate | Sources/ContextKit/Core/EventTracker.swift:152 | the default strategy writes the seconds as a number; ISO-8601 writes a string |
| Snapshot.DecodeDate | Sources/ContextKit/Core/EventTracker.swift:158 | a date is read exactly from a number, and re-encodes to it |
| Snapshot.Assemble | Sources/ContextKit/Context/ContextSnapshot.swift:33-62 | each of time, geo and device is captured when enabled and empty otherwise; the user and session records are the given ones; version "1.0.0", stamped now |
| Snapshot.Capture | Sources/ContextKit/Context/ContextSnapshot.swift:33-62 | the snapshot assembled from the readings and the managers' current user and session records |
| Snapshot.DisabledGeoIsRecognisable | Sources/ContextKit/Context/ContextSnapshot.swift:42 | the captured region is one of the computed labels exactly when geo collection is on |
| Snapshot.SnapshotObject | Sources/ContextKit/Context/ContextSnapshot.swift:64-72 | each coding key holds its encoded part |
| Snapshot.Encode | Sources/ContextKit/Context/ContextSnapshot.swift:64-72 | an object |
| Snapshot.RoundTrip | Sources/ContextKit/Context/ContextSnapshot.swift:64-72 | the persisted form decodes back to the snapshot |
| AnyCodable.Encode | Sources/ContextKit/Core/ContextEvent.swift:73-96 | encoding succeeds exactly for supported values, at any depth, and never yields null |
| AnyCodable.Decode | Sources/ContextKit/Core/ContextEvent.swift:50-71 | decoding succeeds exactly for documents without null at any depth |
| AnyCodable.DecodeEncode | Sources/ContextKit/Core/ContextEvent.swift:50-96 | encode then decode gives the value back, with integral Doubles read back as Ints |
| AnyCodable.EncodeDecode | Sources/ContextKit/Core/ContextEvent.swift:50-96 | decode then encode gives the document back exactly |
| AnyCodable.EncodeProperties | Sources/ContextKit/Core/ContextEvent.swift:86-88 | a property map encodes exactly when every value is supported, with the same keys |
| AnyCodable.DecodeProperties | Sources/ContextKit/Core/ContextEvent.swift:63-64 | a decoded property map has the object's keys |
| AnyCodable.NormalizeProperties | Sources/ContextKit/Core/ContextEvent.swift:53-58 | each property is replaced by what it reads back as |
| AnyCodable.PropertiesRoundTrip | Sources/ContextKit/Core/ContextEvent.swift:50-96 | a supported property map reads back normalised |
| Event.NewEvent | Sources/ContextKit/Core/ContextEvent.swift:21-31 | a fresh 36-character id, the given name, properties and context, stamped now |
| Event.EventObject | Sources/ContextKit/Core/ContextEvent.swift:33-39 | each coding key holds its encoded part |
| Event.Encode | Sources/ContextKit/Core/ContextEvent.swift:28 | an event encodes exactly when every property value is supported |
| Event.Normalized | Sources/ContextKit/Core/ContextEvent.swift:50-71 | only the property values change, and the keys stay |
| Event.DecodeEventObject | Sources/ContextKit/Core/ContextEvent.swift:33-39 | decoding an event object reads back each of its parts |
| Event.RoundTrip | Sources/ContextKit/Core/ContextEvent.swift:33-39 | a persisted event reads back with its properties normalised |
| Event.EncodeQueue | Sources/ContextKit/Core/EventTracker.swift:152 | the queue encodes exactly when every event does, as an array of their encodings in order |
| Event.DecodeQueue | Sources/ContextKit/Core/EventTracker.swift:158 | a decoded queue has one event per array item |
| Event.NormalizedQueue | Sources/ContextKit/Core/EventTracker.swift:156-162 | each event normalised, in order |
| Event.QueueRoundTrip | Sources/ContextKit/Core/EventTracker.swift:151-162 | a persisted queue restores to the same events in order, properties normalised |
| Event.NewScreenViewEvent | Sources/ContextKit/Core/ContextEvent.swift:113-118 | the fields as given, stamped now |
| Event.ScreenViewDurationDefault | Sources/ContextKit/Core/ContextEvent.swift:113 | the duration defaults to nil |
| Tracker.RestoredQueue | Sources/ContextKit/Core/EventTracker.swift:156-167 | no stored blob means an empty queue |
| Tracker.RestoreAfterPersist | Sources/ContextKit/Core/EventTracker.swift:151-162 | persisting then restoring gives the same events in order |
| Tracker.OthersUnchangedTransitive | Sources/ContextKit/Core/EventTracker.swift:151-154 | two steps that touch only the queue key together touch only the queue key |
| Tracker.ScreenViewProperties | Sources/ContextKit/Core/EventTracker.swift:84-96 | the screen name always; a duration exactly when the screen was shown before, equal to the time since then |
| Tracker.EventTracker.constructor | Sources/ContextKit/Core/EventTracker.swift:23-39 | the queue is the restored one, with no screen views and no upload running |
| Tracker.EventTracker.QueueSize | Sources/ContextKit/Core/EventTracker.swift:108-110 | the number of queued events |
| Tracker.EventTracker.AllEvents | Sources/ContextKit/Core/EventTracker.swift:113-115 | the queued events |
| Tracker.EventTracker.Persist | Sources/ContextKit/Core/EventTracker.swift:151-154 | an encodable queue is stored and restores to itself; otherwise nothing is written; other keys never change |
| Tracker.EventTracker.BeginUpload | Sources/ContextKit/Core/EventTracker.swift:119-123 | an upload starts exactly when the queue is non-empty and none is running; the batch is the whole queue |
| Tracker.EventTracker.FinishUpload | Sources/ContextKit/Core/EventTracker.swift:129-146 | success empties the whole queue and persists it; failure keeps the queue and the store; the flag is cleared |
| Tracker.EventTracker.UploadEvents | Sources/ContextKit/Core/EventTracker.swift:119-147 | an outcome exactly when the guard passes, and then it is the client's upload outcome for the whole queue; a request is sent exactly when the URL parses and the batch encodes, to `baseURL + "/events"` with the batch payload; success empties and persists the queue; failure keeps it |
| Tracker.EventTracker.Flush | Sources/ContextKit/Core/EventTracker.swift:103-105 | as an upload: an outcome exactly when the guard passes, and it is the upload outcome of the queue |
| Tracker.EventTracker.Enqueue | Sources/ContextKit/Core/EventTracker.swift:44-63 | the event holds the snapshot taken before the session count moves; it is appended; the session counts one event |
| Tracker.EventTracker.Track | Sources/ContextKit/Core/EventTracker.swift:44-76 | an upload runs exactly when the queue reaches the batch size and none is running, and its outcome is the upload outcome of the old queue plus the event; success empties the queue, otherwise the event is appended; the queue is persisted last |
| Tracker.EventTracker.UploadIfFullAndPersist | Sources/ContextKit/Core/EventTracker.swift:66-71 | an upload exactly at a full batch, with the upload outcome of the queue; the queue is persisted either way |
| Tracker.EventTracker.TrackScreen | Sources/ContextKit/Core/EventTracker.swift:79-100 | the session counts the view first (entry screen set only once), so the event's snapshot holds the session record before the call advanced by the view, and not yet the event; one "screen_view" event with a duration only for a screen shown before; uploads exactly at a full batch, success empties the queue, otherwise the event is appended; the screen's time becomes now |
| Tracker.EventTracker.TrackViewed | Sources/ContextKit/Core/EventTracker.swift:83-99 | with the view already counted: the event carries the screen name, plus the time since the screen was last shown only when it was shown before, and a snapshot of the session before this event; the session counts one more event and keeps everything else; uploads exactly at a full batch, success empties the queue, otherwise the event is appended; the screen's time becomes now |
| Tracker.EventTracker.HandleAppBackground | Sources/ContextKit/Core/EventTracker.swift:210-214 | the session ends and keeps its id, counters, entry screen and start time; the screen times are kept; an upload runs exactly when the queue is non-empty and none is running, with the upload outcome of the queue; success empties the queue, otherwise it is kept; the queue is persisted |
| Tracker.EventTracker.HandleAppForeground | Sources/ContextKit/Core/EventTracker.swift:216-219 | an active session is left exactly as it was; otherwise a new session starts with the given id and time, no counts and no entry screen; the user's session count goes up by one |
| Tracker.EventTracker.HandleAppTerminate | Sources/ContextKit/Core/EventTracker.swift:221-224 | keeps the tracker valid; an upload runs exactly when the queue is non-empty and none is running, with the upload outcome of the queue; then the queue is persisted |
| Tracker.EventTrackedDuringUploadIsDropped | Sources/ContextKit/Core/EventTracker.swift:123-133 | an event tracked during an upload is not in the batch, yet a successful upload leaves the queue empty |
| Api.CallOutcome | Sources/ContextKit/Network/APIClient.swift:122-140 | a single call succeeds exactly on a 2xx HTTP answer |
| Api.Backoff | Sources/ContextKit/Network/APIClient.swift:154-157 | 2^(attempt−1) seconds, at most half a second for attempts below 1 |
| Api.BackoffSchedule | Sources/ContextKit/Network/APIClient.swift:155-156 | the delays are 1 s, 2 s and 4 s for attempts 1 to 3 |
| Api.Retry | Sources/ContextKit/Network/APIClient.swift:120-152 | a run makes between 1 and the bounded number of calls, every call but the last fails, every sleep from attempt 1 on lasts 1 or 2 s, and the run ends with the last call's outcome |
| Api.StopsAtFirstSuccess | Sources/ContextKit/Network/APIClient.swift:120-152 | a run from any attempt stops at the first successful call: every earlier call failed |
| Api.Tried | Sources/ContextKit/Network/APIClient.swift:121-141 | the `do` block: one call at the last attempt; every call but its last fails; its outcome is that of its last call |
| Api.MaxCallsFromFirstAttempt | Sources/ContextKit/Network/APIClient.swift:120-152 | a run from attempt 1 makes at most seven calls |
| Api.ImmediateSuccess | Sources/ContextKit/Network/APIClient.swift:128-133 | a 2xx first answer ends the run at once |
| Api.FinalAttempt | Sources/ContextKit/Network/APIClient.swift:143-150 | at attempt 3 a failed call is rethrown without a retry |
| Api.SecondAttemptServerErrors | Sources/ContextKit/Network/APIClient.swift:134-147 | three 5xx answers from attempt 2: three calls, sleeping 2 s twice |
| Api.SecondAttemptThrows | Sources/ContextKit/Network/APIClient.swift:139-147 | two immediate failures from attempt 2: one retry, then the second error |
| Api.AllServerErrors | Sources/ContextKit/Network/APIClient.swift:134-150 | every answer 5xx: seven calls with sleeps 1, 2, 2, 1, 2, 2 s |
| Api.AllTransportFailures | Sources/ContextKit/Network/APIClient.swift:142-150 | every call failing: three calls, and the last error is rethrown |
| Api.ClientErrorsAreRetried | Sources/ContextKit/Network/APIClient.swift:139-147 | a 4xx is caught by the `catch` and retried: three calls |
| Api.RecoversOnThirdCall | Sources/ContextKit/Network/APIClient.swift:128-138 | two 503s then 200: success on the third call after 1 s and 2 s |
| Api.PostRequest | Sources/ContextKit/Network/APIClient.swift:64-89 | a bad URL or a failed encoding is an error; otherwise a POST with the three headers, and a body over 1024 bytes is compressed and labelled gzip |
| Api.BatchPayload | Sources/ContextKit/Network/APIClient.swift:197-209 | the payload exists exactly when the batch encodes; it carries the key, the SDK version, the ISO upload time and the encoded events |
| Api.UploadOutcome | Sources/ContextKit/Network/APIClient.swift:25-35 | an unparsable URL is an invalid-URL failure, a batch that does not encode an encoding failure, otherwise the retry loop's outcome from attempt 1; success needs both the URL and the payload |
| Api.RecommendationsEndpoint | Sources/ContextKit/Network/APIClient.swift:44-57 | "?" only when there is a query, screen before market, joined by "&" |
| Api.ApiClient.constructor | Sources/ContextKit/Network/APIClient.swift:9-20 | no attempts recorded |
| Api.ApiClient.ExecuteWithRetry | Sources/ContextKit/Network/APIClient.swift:120-133 | the run of the retry loop; success resets the URL's attempt count to 0 |
| Api.ApiClient.UploadEvents | Sources/ContextKit/Network/APIClient.swift:25-35 | the outcome is the upload outcome of the batch; the batch payload is posted to `baseURL + "/events"` with the key header; a request that cannot be built makes no call |
| Facade.ConfiguredConfig | Sources/ContextKit/Core/ContextKit.swift:49-60 | the given configuration, or the default one, with only the key replaced |
| Facade.ConfigureWithoutConfig | Sources/ContextKit/Core/ContextKit.swift:45-62 | without a configuration the key goes into the defaults unchecked |
| Facade.ContextKitInstance.constructor | Sources/ContextKit/Core/ContextKit.swift:208-232 | fresh managers, client and tracker; the tracker's queue is the one restored from the defaults as they were before, with no screen times and no upload running; with auto-session a session is active and counted, without it neither |
| Facade.ContextKitInstance.Track | Sources/ContextKit/Core/ContextKit.swift:234-236 | the event built from the name, the properties and the captured context; an upload runs exactly when the queue reaches the batch size and none is running, with the upload outcome of the old queue plus the event; success empties the queue, otherwise the event is appended |
| Facade.ContextKitInstance.TrackScreen | Sources/ContextKit/Core/ContextKit.swift:238-240 | a "screen_view" event for the screen, with a duration only for a screen shown before; an upload runs exactly at a full batch, with the upload outcome of the old queue plus the event; success empties the queue, otherwise the event is appended; the session is active and counts the view; the screen's last-shown time becomes now |
| Facade.ContextKitInstance.Flush | Sources/ContextKit/Core/ContextKit.swift:254-256 | an outcome exactly when the queue is non-empty and no upload is running, and it is the upload outcome of the queue; success empties the queue, anything else keeps it |
| Facade.ContextKitInstance.GetEventQueue | Sources/ContextKit/Core/ContextKit.swift:270-272 | the tracker's queue, oldest first |
| Facade.ContextKitInstance.GetCurrentContext | Sources/ContextKit/Core/ContextKit.swift:274-280 | the snapshot carries the managers' ids, and a computed region exactly when geo is enabled |
| Facade.ContextKitInstance.GetInsights | Sources/ContextKit/Core/ContextKit.swift:258-262 | always empty |
| Facade.ContextKitInstance.GetRecommendations | Sources/ContextKit/Core/ContextKit.swift:264-268 | always empty |
| Facade.ContextKit.constructor | Sources/ContextKit/Core/ContextKit.swift:38 | not configured |
| Facade.ContextKit.IsConfigured | Sources/ContextKit/Core/ContextKit.swift:193-195 | configured exactly when an instance exists |
| Facade.ContextKit.GetConfig | Sources/ContextKit/Core/ContextKit.swift:188-190 | the instance's configuration exactly when configured |
| Facade.ContextKit.Configure | Sources/ContextKit/Core/ContextKit.swift:45-62 | a new instance with the merged configuration replaces any old one |
| Facade.ContextKit.Track | Sources/ContextKit/Core/ContextKit.swift:74-83 | an event exactly when configured: the event built from the name, the properties and the captured context, with the given id and time; no upload until configured; then an upload exactly at a full batch with the upload outcome of the old queue plus the event; success empties the queue, otherwise the event is appended |
| Facade.ContextKit.TrackScreen | Sources/ContextKit/Core/ContextKit.swift:87-96 | a no-op until configured; then a "screen_view" event with the screen's properties; an upload exactly at a full batch with the upload outcome of the old queue plus the event; success empties the queue, otherwise the event is appended; the screen is recorded; the session is active, counts the view and keeps its first entry screen |
| Facade.ContextKit.Identify | Sources/ContextKit/Core/ContextKit.swift:100-109 | a no-op until configured, then the user id is set; the segment, the properties, the tracker, the session and the client are unchanged |
| Facade.ContextKit.SetUser | Sources/ContextKit/Core/ContextKit.swift:113-122 | a no-op until configured, then the properties are merged; the user id, the segment, the tracker, the session and the client are unchanged |
| Facade.ContextKit.SetUserSegment | Sources/ContextKit/Core/ContextKit.swift:126-135 | a no-op until configured, then the segment is set; the user id, the properties, the tracker, the session and the client are unchanged |
| Facade.ContextKit.Flush | Sources/ContextKit/Core/ContextKit.swift:138-146 | no outcome until configured; then an outcome exactly when the queue is non-empty and no upload is running, and it is the upload outcome of the queue; success empties the queue, anything else keeps it |
| Facade.ContextKit.GetInsights | Sources/ContextKit/Core/ContextKit.swift:151-158 | empty, configured or not |
| Facade.ContextKit.GetRecommendations | Sources/ContextKit/Core/ContextKit.swift:165-172 | empty, configured or not |
| Schemas.ParseRegisterApp | backend/src/schemas.ts:84-87 | a body is accepted exactly when its name is a string of 1–255 characters and its environment is absent, "production" or "test"; an absent environment means production, a present one names the result's environment |
| Schemas.RegisterAppCases | backend/src/schemas.ts:84-87 | a name alone registers production exactly when its length is 1–255; `null` and unknown environments are refused |
| Schemas.TimeSchemaBounds | backend/src/schemas.ts:7-14 | a time context the schema accepts decodes in the SDK with hour 0–23 and day 1–7 |
| Schemas.DeviceEnumsMatch | backend/src/schemas.ts:24-25 | the battery and network enums hold exactly the SDK's raw values |
| Schemas.ApiKeyPatternOpenEnded | backend/src/schemas.ts:76 | the key pattern is anchored at the start only: anything may follow "ck_live_"/"ck_test_" |
| Schemas.BatchSizeBounds | backend/src/schemas.ts:77 | an empty batch or one of more than 100 events is refused |
| Db.HexText | backend/src/database.ts:220-222 | two lower-case hex digits per byte |
| Db.HexDigitValue | backend/src/database.ts:221 | a hex digit reads back as its value |
| Db.HexRoundTrip | backend/src/database.ts:220-222 | the hex text of bytes parses back to the bytes |
| Db.GenerateApiKey | backend/src/database.ts:218-224 | "ck_live_" for production and "ck_test_" otherwise, then 2 hex digits per random byte |
| Db.GeneratedKeyWellFormed | backend/src/database.ts:218-224 | a generated key matches the batch schema's key pattern and its hex part reads back as the random bytes |
| Db.GeneratedKeysDistinct | backend/src/database.ts:218-224 | different random bytes give different keys |
| Db.DimensionPaths | backend/src/database.ts:75-91 | the four dimensions get four distinct paths; any other value falls back to the country path |
| Db.Dropoff | backend/src/database.ts:130-132 | 0 after an empty step; between 0 and 100 when the count does not grow; 100 when nobody is left; negative when it grows |
| Db.GetConversionFunnel | backend/src/database.ts:116-137 | one entry per step in order, with its index and distinct-user count; the first drops off 0, each later one from its predecessor |
| Db.UserIdOf | backend/src/database.ts:161-166 | a user id is reported only when it is a non-empty string |
| Db.EventRowFor | backend/src/database.ts:45-58 | the row carries the event's id, name and whole context under the app |
| Db.EventRows | backend/src/database.ts:45-61 | one row per event, in order |
| Db.Upserted | backend/src/database.ts:161-192 | a new user is inserted with one event; an existing row keeps its id and first sighting and counts one more event; both take the new session count, properties and time |
| Db.FindApp | backend/src/database.ts:8-15 | a found app holds the key; none is found exactly when no app holds it |
| Db.Database.constructor | backend/src/database.ts:5 | the tables as given |
| Db.Database.GetAppByApiKey | backend/src/database.ts:8-15 | the app holding the key, None exactly when there is none |
| Db.Database.CreateApp | backend/src/database.ts:17-38 | a new app with a generated key, created and updated now, no settings, appended; other tables unchanged |
| Db.Database.InsertEvents | backend/src/database.ts:41-62 | the event rows are appended in order; other tables unchanged |
| Db.Database.UpsertUser | backend/src/database.ts:161-192 | the (app, user) row becomes the upserted row; every other row and table is unchanged |
| Db.Database.LogApiUsage | backend/src/database.ts:205-214 | one usage row is appended; other tables unchanged |
| Router.Split | backend/src/index.ts:33 | `split` always yields at least one piece |
| Router.SplitWithoutSeparator | backend/src/index.ts:33 | text without the separator splits into itself |
| Router.SplitAt | backend/src/index.ts:33 | splitting at the first separator gives the part before it, then the split of the rest |
| Router.SplitAppsPath | backend/src/index.ts:32-33 | a path under `/v1/apps/` splits into "", "v1", "apps" and the pieces of the rest |
| Router.AppIdOf | backend/src/index.ts:33 | the app id is the fourth piece, the first piece after `/v1/apps/` |
| Router.RouteOf | backend/src/index.ts:20-56 | preflight exactly for OPTIONS; each route has its method; the app routes have their suffix and take the id from the path |
| Router.SummaryRoute | backend/src/index.ts:32-35 | GET `/v1/apps/<id>/summary` routes to that app's summary |
| Router.InsightsRoute | backend/src/index.ts:37-40 | GET `/v1/apps/<id>/insights` routes to that app's insights |
| Router.EventListRoute | backend/src/index.ts:42-45 | GET `/v1/apps/<id>/events` lists that app's events; POST to it is unrouted |
| Router.SummaryOfAppNamedSummary | backend/src/index.ts:32-35 | `/v1/apps/summary` is the summary of an app with id "summary" |
| Router.AppPath | backend/src/index.ts:28-51 | an app path has the prefix and suffix, its fourth piece is the id, and it is none of the fixed paths |
| Router.SkipSpaces | backend/src/index.ts:224 | a suffix of the text that does not start with white space |
| Router.DecimalRun | backend/src/index.ts:224 | the longest prefix of decimal digits |
| Router.HexRun | backend/src/index.ts:224 | the longest prefix of hexadecimal digits |
| Router.AnyHexValue | backend/src/index.ts:224 | a hex digit's value is below 16 |
| Router.NatTextValue | backend/src/index.ts:224 | the decimal text of n stands for n |
| Router.DecimalRunOfDigits | backend/src/index.ts:224 | an all-digit text is its own leading run |
| Router.NatTextUnsigned | backend/src/index.ts:224 | the magnitude read from the decimal text of n is n |
| Router.ParseIntText | backend/src/index.ts:224 | `parseInt` reads back the decimal text of every integer |
| Router.ParamOr | backend/src/index.ts:154-155 | the fallback exactly when the parameter is absent, empty or equal to the fallback; a present, non-empty parameter is returned as given |
| Router.EventLimit | backend/src/index.ts:224 | never above 1000; NaN exactly when the text has no digits to parse |
| Router.EventLimitDefault | backend/src/index.ts:224 | an absent or empty limit is 100 |
| Router.EventLimitOfText | backend/src/index.ts:224 | a written integer is kept below 1000 and capped at 1000, negatives included |
| Router.EventLimitWithoutDigits | backend/src/index.ts:224 | "many" gives NaN |
| Router.Headers | backend/src/index.ts:12-21 | every response carries the CORS headers; all but the preflight are JSON |
| Router.Authorize | backend/src/index.ts:139-147 | authorized exactly when a key is given and its app is the path's app; 401 without a key, 500 when the database throws, else 403 |
| Router.UpsertAllCounts | backend/src/index.ts:107-116 | after the loop a user has a row exactly when it had one or sent an event; its total grows by its number of events; an existing row keeps its id and first sighting |
| Router.UpsertAllOtherApps | backend/src/index.ts:107-116 | other apps' user rows are untouched |
| Router.UpsertUsers | backend/src/index.ts:107-116 | the loop upserts once per event with a truthy user id, in order; other tables unchanged |
| Router.BatchEvents | backend/src/index.ts:94 | an accepted payload holds 1 to 100 valid events |
| Router.HandleEventIngestion | backend/src/index.ts:70-130 | the reply is the ingestion reply for the app table and request: 401 without or with an unknown key, 400 for an invalid batch, 500 when the database throws, and no writes on failure; otherwise events stored, users upserted, the call logged and the count reported |
| Router.IngestionReply | backend/src/index.ts:70-130 | accepted exactly when the key names an app, the body is a valid batch and the database does not throw; then the app's id and the number of events; otherwise 400, 401 or 500 |
| Router.HandleRegisterApp | backend/src/index.ts:243-275 | the reply is the registration reply: 400 for an invalid body with no writes; otherwise a new app with a generated key is stored and returned with 201 |
| Router.RegisterReply | backend/src/index.ts:243-275 | registered exactly when the body parses and the database does not throw, with the app built from the body, the generated id and key and the time; otherwise 400 or 500 |
| Router.Fetch | backend/src/index.ts:6-65 | preflight first; 404 unrouted; the ingestion and registration routes give their handlers' replies and, on success, exactly their writes; only they write; each read route authorizes, then answers with its parameters; every status is one the handler can send |
| Interop.TimeEncodingAccepted | backend/src/schemas.ts:7-14 | a time record in range encodes to JSON the time schema accepts |
| Interop.CapturedTimeAccepted | backend/src/schemas.ts:7-14 | every captured time context and the empty one pass the time schema |
| Interop.HourOutOfRangeRefused | backend/src/schemas.ts:8 | an hour outside 0–23 is refused |
| Interop.GeoEncodingAccepted | backend/src/schemas.ts:16-22 | every geo context passes the geo schema |
| Interop.DeviceEncodingAccepted | backend/src/schemas.ts:27-39 | every device context passes the device schema |
| Interop.UserEncodingAccepted | backend/src/schemas.ts:41-47 | every user context passes the user schema |
| Interop.SessionEncodingAccepted | backend/src/schemas.ts:49-55 | every session context passes the session schema |
| Interop.SnapshotEncodingAccepted | backend/src/schemas.ts:57-65 | a snapshot in range, with ISO-8601 dates, passes the snapshot schema |
| Interop.PersistedSnapshotRefused | backend/src/schemas.ts:64 | the persisted form, dates as numbers, is refused |
| Interop.EventEncodingAccepted | backend/src/schemas.ts:67-73 | an event with supported properties and its time in range encodes, and passes the event schema |
| Interop.QueueEncodingAccepted | backend/src/schemas.ts:77 | a queue of such events encodes to an array of accepted events, one per event |
| Interop.BatchAcceptedIff | backend/src/schemas.ts:75-80 | the SDK's upload payload is accepted exactly when the key has the prefix and the batch holds 1 to 100 events |
| SnakeCase.PlainKeyUnchanged | Sources/ContextKit/Network/APIClient.swift:111 | a received key without underscores reaches the coding keys unchanged |
| SnakeCase.ConvertedHasNoInnerUnderscore | Sources/ContextKit/Network/APIClient.swift:111 | a converted key holds no underscore between its first and last letters |
| SnakeCase.NothingConvertsToExpectedImpact | Sources/ContextKit/Network/APIClient.swift:111-113 | no received key converts to "expected_impact" |
| SnakeCase.TwoWords | Sources/ContextKit/Network/APIClient.swift:111 | `a_b` becomes `a` lower-cased followed by `b` capitalised |
| Interop.DecodeRecommendation | Sources/ContextKit/Network/APIClient.swift:235-247 | decodes exactly when "action" is a string, "confidence" a number and "benchmark" absent, null or a string; carries those values, and never an expected impact |
| Interop.ExpectedImpactIgnored | Sources/ContextKit/Network/APIClient.swift:111-113 | whatever "expected_impact" holds, the decoded recommendation is the same and has no expected impact |
| Interop.RecommendationDecodes | backend/src/schemas.ts:105-110 | every recommendation the schema accepts decodes in the SDK, with confidence in [0, 1] |

## Left out

- **JSON text.** Printing and parsing JSON text (`JSONEncoder`, `JSONDecoder`, `JSON.stringify`, `request.json()`) is not modelled. Documents are trees, and a JSON number is a `real`.
- **Calendar text.** ISO-8601 dates are not formatted as calendar text. `Snapshot.IsoText` only keeps the whole seconds of a date and ends with "Z".
- **Calendar arithmetic.** Time zones, daylight saving and calendar day boundaries are not modelled. `User.DaysBetween` counts whole 86 400-second days.
- **Floating point and integer widths.**
  - Doubles are reals, and `Int64`/`UInt64` are unbounded integers.
  - The conversion of `delay * 1_000_000_000` to `UInt64` is not modelled.
  - The JavaScript number semantics of large `parseInt` results are not modelled.
- **Concurrency.**
  - Actors, `Task { }` dispatch and `NSLock` are not modelled. In the facade each task runs to completion before the call returns.
  - Only the upload's suspension point is modelled, by splitting the upload into `BeginUpload` and `FinishUpload`.
- **Timers and notifications.** The upload timer (`startUploadTimer`, `stopUploadTimer`) and the notification-centre observers are left out. The lifecycle handlers are called directly.
- Time.LocalTimeText: formats ASCII digits in 24-hour "HH:mm" form. The source's `DateFormatter` sets no locale, so a device may produce other digits, or 12-hour text under the user's clock setting. The device locale is not modelled.
- **Platform readings.** Sleeps, `URLSession`, `URL(string:)`, zlib compression and the platform readings (UIDevice, UIScreen, Locale, ProcessInfo, file system) become parameters. `isBatteryMonitoringEnabled` is not modelled.
- **`Device.Identifier`.** `UInt8(value)` traps on a negative byte. The model requires non-negative bytes instead of modelling the trap.
- **UserDefaults conversions.** UserDefaults' conversions between value kinds are not modelled. For example, `integer(forKey:)` on a stored string reads a number.
- **`User.Describe`.** The `description` of a Double or a collection is the platform's text and is passed in.
- **Snake-case encoding.** `convertToSnakeCase` on the upload encoder is not modelled. Every coding key of the payload is already written out in snake case, so it changes nothing there. `convertFromSnakeCase` on the response decoder is modelled in `snake_case.dfy`, with ASCII case mapping only.
- **GET requests.** `getRequest`, `fetchInsights` and `fetchRecommendations` are not modelled: their network call and response decoding are left out. Only the recommendations endpoint text is modelled.
- **Insight decoding.** The Swift `Insight` decoder is not modelled, so the failure on an insight without `affected_context` is not proved.
- **Colliding keys.** Two received keys that convert to the same name are not modelled. `Interop.DecodeRecommendation` reads "action", "confidence" and "benchmark" under their own names.
- **Debug output.** The debug overlay, `debugOverlay()`, `contextKitDebug()` and every `print` are left out.
- **SQL queries.**
  - The queries are not executed. Funnel counts come from a parameter.
  - `getEventsByContext` is modelled only by its choice of JSON path.
  - The results of `getEventCount`, `getRecentEvents`, `getInsights` and the breakdown are not part of the replies.
- **Database failures.** A failing database is all or nothing: `dbFault` makes every call of a handler throw. A failure between two writes of one ingestion is not modelled.
- **Stored rows.**
  - Stored rows hold the events as received. zod's stripping of undeclared keys is not modelled.
  - An event row keeps its ISO-8601 timestamp text instead of its conversion to seconds.
- **`Router.ParseInt`.** Only the six ASCII white-space characters are skipped, not the other Unicode spaces `parseInt` skips.
- **String lengths.** Lengths count characters, while JavaScript counts UTF-16 units. This matters for the 1–255 limit on app names.
- **URL parsing.** `new URL(...)` is not modelled: a request arrives with its path and query already split.
- **Rate limiting.** The rate-limit key, which the collector computes but never uses, is left out.
