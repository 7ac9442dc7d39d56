# Android receivers of flutter_local_notifications, modelled in Dafny

This project models the Android-side broadcast receivers and the foreground
service of the `flutter_local_notifications` plugin:

- **Action event relay** (`ActionEventRelay`). `ActionEventSink` is the
  stream handler behind the `dexterous.com/flutter/local_notifications/actions`
  event channel. `addItem` forwards a tap event to the attached Dart
  subscriber, or buffers it in `cache` when nobody listens. `onListen`
  replays the cache in order, clears it and records the subscriber.
  `onCancel` detaches the subscriber. The class keeps the Java fields and
  adds a log of the `success` calls it made. The pure functions `Publish`,
  `Attach` and `Detach` specify the three operations, and `Run` specifies
  any sequence of them.
- **Tap intake and lazy engine bootstrap** (`ActionReceiver`).
  `ActionBroadcastReceiver.onReceive` filters on `ACTION_TAPPED`, ignoring
  case. It creates the isolate preferences on first use and cancels the
  tapped notification when the intent asks for it: by (tag, id) when the tag
  is a `String`, otherwise by id. It then publishes the response map to the
  process-wide sink and calls `startEngine`. `startEngine` returns at once
  when the static engine exists. Otherwise it initialises the loader, builds
  the engine and only then looks up the dispatcher handle. When the lookup
  succeeds, it registers the sink on the actions channel and runs the Dart
  callback. The two static fields are the class `ReceiverStatics`, shared by
  every receiver object. Calls into Android and Flutter are returned as an
  ordered `Effect` trace, and the lookup result is an input.
- **Foreground service start** (`ForegroundService`). `orCombineFlags` is a
  loop over `bv32` flags, proved equal to the fold `OrAll`. `OrAll` is shown
  to be the least upper bound of the flags. `onStartCommand` is a pure
  function of:
  - the intent;
  - the parameter-extraction outcome;
  - the SDK level;
  - whether rendering or `startForeground` throws.

  It yields the returned code and the calls made.
- **Boot receiver** (`BootReceiver`). An exact, case-sensitive match of the
  action against four constants decides whether to call
  `rescheduleNotifications`.
- **Scheduled-fire receiver** (`ScheduledReceiver`). A method chooses
  between two paths and returns the ordered calls it makes (evict, notify,
  show, schedule next). The legacy path stamps the parcelled notification's
  `when` field in place. The structured path is the other one.

A failed dispatcher lookup leaves the static `engine` set, so every later
tap hits the guard and the Dart callback never runs in that process. The
failure is therefore permanent for the life of the process;
`FailedLookupIsPermanent` proves it.

## Model

| member | source | states |
|---|---|---|
| `ActionEventRelay.ActionEventSink.constructor` | flutter_local_notifications/android/src/main/java/com/dexterous/flutterlocalnotifications/ActionBroadcastReceiver.java:126-130 | A new sink has an empty cache, no subscriber and no deliveries |
| `ActionEventRelay.ActionEventSink.AddItem` | flutter_local_notifications/android/src/main/java/com/dexterous/flutterlocalnotifications/ActionBroadcastReceiver.java:132-138 | With a subscriber, the item is delivered to it and the cache is unchanged. Without one, the item is appended to the cache tail. "Subscriber attached ⇒ cache empty" is kept, and so is "deliveries then cache = all published items" |
| `ActionEventRelay.ActionEventSink.OnListen` | flutter_local_notifications/android/src/main/java/com/dexterous/flutterlocalnotifications/ActionBroadcastReceiver.java:140-148 | Every cached item is delivered to the new subscriber once, in cache order (loop invariant). The cache is then empty and the subscriber is recorded. The relay invariant is kept |
| `ActionEventRelay.ActionEventSink.OnCancel` | flutter_local_notifications/android/src/main/java/com/dexterous/flutterlocalnotifications/ActionBroadcastReceiver.java:150-153 | Only the subscriber is cleared; the invariant is kept |
| `ActionEventRelay.StepConserves` | flutter_local_notifications/android/src/main/java/com/dexterous/flutterlocalnotifications/ActionBroadcastReceiver.java:132-153 | Each of addItem/onListen/onCancel keeps "attached ⇒ cache empty". Deliveries followed by the cache grow by exactly the published item, at the tail |
| `ActionEventRelay.RunConserves` | flutter_local_notifications/android/src/main/java/com/dexterous/flutterlocalnotifications/ActionBroadcastReceiver.java:132-153 | For any call sequence, the invariant holds and deliveries followed by the cache equal the earlier ones plus every published item, in arrival order |
| `ActionEventRelay.BufferWhileDetached` | flutter_local_notifications/android/src/main/java/com/dexterous/flutterlocalnotifications/ActionBroadcastReceiver.java:135-137 | With no subscriber, a run of addItem calls appends exactly those items to the cache, in order, and delivers nothing |
| `ActionEventRelay.DeliverWhileAttached` | flutter_local_notifications/android/src/main/java/com/dexterous/flutterlocalnotifications/ActionBroadcastReceiver.java:133-134 | With a subscriber attached, a run of addItem calls delivers each item to it, in order, and the cache stays empty |
| `ActionEventRelay.AttachReplaysBuffered` | flutter_local_notifications/android/src/main/java/com/dexterous/flutterlocalnotifications/ActionBroadcastReceiver.java:141-148 | Items published while detached reach the next subscriber exactly once and in order, after the items already cached. The cache is then empty |
| `ActionEventRelay.NoLossNoDuplication` | flutter_local_notifications/android/src/main/java/com/dexterous/flutterlocalnotifications/ActionBroadcastReceiver.java:132-153 | From a fresh sink, across attach→cancel→attach cycles, all deliveries followed by the cache equal all published items. While attached, the deliveries alone equal them |
| `ActionEventRelay.DetachResumesBuffering` | flutter_local_notifications/android/src/main/java/com/dexterous/flutterlocalnotifications/ActionBroadcastReceiver.java:150-153 | After onCancel, addItem buffers the item and delivers nothing |
| `ActionReceiver.ActionBroadcastReceiver.OnReceive` | flutter_local_notifications/android/src/main/java/com/dexterous/flutterlocalnotifications/ActionBroadcastReceiver.java:44-79 | The new statics, preferences flag and call trace are those of `Receive`. The sink object, once created, persists. A tap appends its response map to the sink's published items |
| `ActionReceiver.ActionBroadcastReceiver.StartEngine` | flutter_local_notifications/android/src/main/java/com/dexterous/flutterlocalnotifications/ActionBroadcastReceiver.java:81-117 | Afterwards the engine slot is set, and the calls made are those `StartEngineEffects` prescribes for the old slot and the lookup result |
| `ActionReceiver.ActionBroadcastReceiver.constructor` | flutter_local_notifications/android/src/main/java/com/dexterous/flutterlocalnotifications/ActionBroadcastReceiver.java:36-42 | A receiver shares the given statics and starts with or without injected preferences |
| `ActionReceiver.ReceiverStatics.constructor` | flutter_local_notifications/android/src/main/java/com/dexterous/flutterlocalnotifications/ActionBroadcastReceiver.java:32-33 | At process start there is no sink and no engine |
| `ActionReceiver.IgnoredActionHasNoEffect` | flutter_local_notifications/android/src/main/java/com/dexterous/flutterlocalnotifications/ActionBroadcastReceiver.java:48-51 | An action other than ACTION_TAPPED (ignoring case), or a null action, changes no state and makes no call: no cancel, no publish, no engine. This holds whatever the payload holds, since it is never read |
| `ActionReceiver.TapActionIgnoresCase` | flutter_local_notifications/android/src/main/java/com/dexterous/flutterlocalnotifications/ActionBroadcastReceiver.java:48 | An action is accepted iff it lower-cases to the lower-cased constant, so spellings that lower-case alike are accepted or rejected together. The constant itself is accepted and null is rejected |
| `ActionReceiver.CancelChoice` | flutter_local_notifications/android/src/main/java/com/dexterous/flutterlocalnotifications/ActionBroadcastReceiver.java:59-69 | With the cancel extra true, a tap makes exactly one cancel call: `cancel(tag, id)` for a String tag, otherwise `cancel(id)`. With the extra false or absent, or for an ignored intent, it makes none |
| `ActionReceiver.CancelWithoutTag` | flutter_local_notifications/android/src/main/java/com/dexterous/flutterlocalnotifications/ActionBroadcastReceiver.java:64-68 | cancel=true, id 7, no tag gives only `cancel(7)` |
| `ActionReceiver.CancelWithTag` | flutter_local_notifications/android/src/main/java/com/dexterous/flutterlocalnotifications/ActionBroadcastReceiver.java:64-65 | cancel=true, id 7, tag "grp" gives only `cancel("grp", 7)` |
| `ActionReceiver.StartEngineCounts` | flutter_local_notifications/android/src/main/java/com/dexterous/flutterlocalnotifications/ActionBroadcastReceiver.java:84-116 | When no engine exists, startEngine constructs one engine and makes one lookup, and runs the callback iff the lookup succeeded. When one exists, it makes none of these calls |
| `ActionReceiver.LookupFollowsConstruction` | flutter_local_notifications/android/src/main/java/com/dexterous/flutterlocalnotifications/ActionBroadcastReceiver.java:96-105 | The dispatcher lookup comes after engine construction. A failed lookup sets up neither the stream handler nor the callback |
| `ActionReceiver.ReceiveCounts` | flutter_local_notifications/android/src/main/java/com/dexterous/flutterlocalnotifications/ActionBroadcastReceiver.java:48-78 | One onReceive makes the same engine constructions, lookups and callback runs as its startEngine call. An ignored intent makes none |
| `ActionReceiver.EngineGuardHolds` | flutter_local_notifications/android/src/main/java/com/dexterous/flutterlocalnotifications/ActionBroadcastReceiver.java:84-87 | Once the engine slot is set, the slot stays set and every later broadcast's engine start is a no-op. The only calls left are creating preferences and cancelling notifications: no loader initialisation, construction, lookup, stream-handler registration, bundle lookup or callback |
| `ActionReceiver.EngineBuiltAtMostOnce` | flutter_local_notifications/android/src/main/java/com/dexterous/flutterlocalnotifications/ActionBroadcastReceiver.java:84-116 | Over any number of broadcasts, the engine is constructed at most once and the Dart callback runs at most once |
| `ActionReceiver.FailedLookupIsPermanent` | flutter_local_notifications/android/src/main/java/com/dexterous/flutterlocalnotifications/ActionBroadcastReceiver.java:84-105 | If the tap that builds the engine finds no handle, the slot stays set. Neither that tap nor any later broadcast registers the event channel's stream handler or runs the callback, whatever its lookup returns |
| `ForegroundService.OrCombineFlags` | flutter_local_notifications/android/src/main/java/com/dexterous/flutterlocalnotifications/ForegroundService.java:79-85 | An empty list fails, as `flags.get(0)` throws. Otherwise the result is the 32-bit OR of all flags (`OrAll`) |
| `ForegroundService.OrAllCoversEach` | flutter_local_notifications/android/src/main/java/com/dexterous/flutterlocalnotifications/ForegroundService.java:79-85 | Every flag's bits are set in the combined flag |
| `ForegroundService.OrAllIsLeast` | flutter_local_notifications/android/src/main/java/com/dexterous/flutterlocalnotifications/ForegroundService.java:79-85 | The combined flag sets no bit outside any common upper bound of the flags |
| `ForegroundService.OrAllSingle` | flutter_local_notifications/android/src/main/java/com/dexterous/flutterlocalnotifications/ForegroundService.java:80 | A one-element list combines to that element |
| `ForegroundService.OrAllOneTwoFour` | flutter_local_notifications/android/src/main/java/com/dexterous/flutterlocalnotifications/ForegroundService.java:79-85 | [1, 2, 4] combines to 7 |
| `ForegroundService.OnStartCommand` | flutter_local_notifications/android/src/main/java/com/dexterous/flutterlocalnotifications/ForegroundService.java:18-77 | No call is made iff there is no extracted parameter. Otherwise the notification is rendered first, with at most one foreground start after it. A code other than START_NOT_STICKY is the requested start mode and follows a foreground start |
| `ForegroundService.DeclinedWithoutParameter` | flutter_local_notifications/android/src/main/java/com/dexterous/flutterlocalnotifications/ForegroundService.java:22-52 | A null intent, a null parameter or an extraction exception returns START_NOT_STICKY with no call, so nothing is started in the foreground |
| `ForegroundService.ForegroundCallChoice` | flutter_local_notifications/android/src/main/java/com/dexterous/flutterlocalnotifications/ForegroundService.java:59-69 | The typed start, with the OR of the types, is used exactly when types are non-null and SDK ≥ Q. The untyped start is used otherwise. An empty type list throws before any start and declines |
| `ForegroundService.ReturnCode` | flutter_local_notifications/android/src/main/java/com/dexterous/flutterlocalnotifications/ForegroundService.java:54-76 | The start mode is returned iff the parameter was extracted and rendering, flag combination and start all succeed. Otherwise START_NOT_STICKY is returned |
| `ForegroundService.SuccessStartsForeground` | flutter_local_notifications/android/src/main/java/com/dexterous/flutterlocalnotifications/ForegroundService.java:54-72 | When startForeground does not throw, a foreground start is made iff a parameter was extracted, rendering succeeded and the flags could be combined |
| `BootReceiver.OnReceive` | flutter_local_notifications/android/src/main/java/com/dexterous/flutterlocalnotifications/ScheduledNotificationBootReceiver.java:17-36 | At most one rescheduling call. There is one iff the action is non-null and in the four-action allow-list |
| `BootReceiver.NullActionIgnored` | flutter_local_notifications/android/src/main/java/com/dexterous/flutterlocalnotifications/ScheduledNotificationBootReceiver.java:22 | A null action never reschedules |
| `BootReceiver.AllowedActionsRescheduleOnce` | flutter_local_notifications/android/src/main/java/com/dexterous/flutterlocalnotifications/ScheduledNotificationBootReceiver.java:23-28 | BOOT_COMPLETED, MY_PACKAGE_REPLACED and both QUICKBOOT_POWERON actions each reschedule exactly once |
| `BootReceiver.MatchIsCaseSensitive` | flutter_local_notifications/android/src/main/java/com/dexterous/flutterlocalnotifications/ScheduledNotificationBootReceiver.java:23 | A lower-cased boot action is not matched |
| `ScheduledReceiver.OnReceive` | flutter_local_notifications/android/src/main/java/com/dexterous/flutterlocalnotifications/ScheduledNotificationReceiver.java:27-76 | The calls made are those of `FireEffects`. The notification's `when` becomes the current time on the legacy path and is untouched on the structured path |
| `ScheduledReceiver.Notification.constructor` | flutter_local_notifications/android/src/main/java/com/dexterous/flutterlocalnotifications/ScheduledNotificationReceiver.java:42-46 | A legacy notification carries its content and its `when` field |
| `ScheduledReceiver.PathSelection` | flutter_local_notifications/android/src/main/java/com/dexterous/flutterlocalnotifications/ScheduledNotificationReceiver.java:30-34 | Null or empty details select the legacy path, with no show or schedule-next call. Non-empty details select the structured path |
| `ScheduledReceiver.MissingLegacyNotification` | flutter_local_notifications/android/src/main/java/com/dexterous/flutterlocalnotifications/ScheduledNotificationReceiver.java:48-54 | A missing legacy notification causes exactly one eviction of its id and posts nothing |
| `ScheduledReceiver.PresentLegacyNotification` | flutter_local_notifications/android/src/main/java/com/dexterous/flutterlocalnotifications/ScheduledNotificationReceiver.java:56-64 | A present legacy notification is posted first, with `when` set to now. It is then evicted once unless `repeat` is true |
| `ScheduledReceiver.StructuredPath` | flutter_local_notifications/android/src/main/java/com/dexterous/flutterlocalnotifications/ScheduledNotificationReceiver.java:65-75 | The structured path shows and then schedules the same details, and never evicts |
| `ScheduledReceiver.LegacyIdDefaultsToZero` | flutter_local_notifications/android/src/main/java/com/dexterous/flutterlocalnotifications/ScheduledNotificationReceiver.java:39-64 | Without an id extra the legacy path uses id 0 in every call: a corrupt notification is evicted as 0, and a present one is posted and evicted as 0 |

## Left out

- Logging (`Log.d/e/w`) is left out, along with `onBind` and the `flags`/`startId` arguments of `onStartCommand`, which are only logged.
- Flutter engine internals are modelled only as opaque calls in the trace: `FlutterInjector`, `FlutterLoader`, `DartExecutor`, `EventChannel`, the binary messenger. `ExecuteDartCallback` records the callback handle but not the asset manager or bundle path it is passed.
- `IsolatePreferences` persistence is not modelled. Creating the preferences is a call in the trace, and `lookupDispatcherHandle()`'s result is an input.
- `FlutterLocalNotificationsPlugin` is not part of this model. `extractNotificationResponseMap` is replaced by the response map carried in the intent. `createNotification`, `showNotification`, `scheduleNextNotification`, `rescheduleNotifications` and `removeNotificationFromCache` are opaque calls. The response-map key names are the plugin's constants.
- Concurrency is not modelled: calls are sequential, so cross-thread access to the static fields and re-entrant `addItem` calls made from inside a subscriber during `onListen` are out of scope.
- ActionReceiver.ActionBroadcastReceiver.OnReceive requires a tap intent's response map to hold an `Integer` id whenever cancellation is requested. Ignored intents carry no such requirement, since their payload is never read. The exception the unchecked cast throws otherwise (a wrong type, or unboxing a missing id) is not modelled.
- ActionReceiver.TapActionIgnoresCase folds only ASCII letters. Java's `equalsIgnoreCase` also matches a few non-ASCII characters to ASCII ones (such as U+0130, U+0131, U+017F and U+212A), and the model rejects them.
- ForegroundService.OnStartCommand takes extraction failures, rendering exceptions and `startForeground` exceptions as inputs. It does not model the SDK-dependent choice of `getSerializableExtra` overload, and a null element in the type list or a null notification id (unboxing exceptions that the same `catch` would absorb) are not represented.
- ScheduledReceiver.OnReceive identifies the decoded `NotificationDetails` by its JSON text. Gson decoding and its failures on malformed JSON are not modelled. Nor is the null dereference at ScheduledNotificationReceiver.java:70 when the non-empty text decodes to null (the literal `null`, or whitespace only): the model shows and schedules in that case, while the source throws before `showNotification`. The SDK-dependent choice of `getParcelableExtra` overload is not modelled either. `System.currentTimeMillis()` is the input `now`.
- Notification ids in tap payloads are unbounded integers; elsewhere Java `int` is `int32` and service-type flags are `bv32`.
