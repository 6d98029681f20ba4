# MediaController2Stub: a verified model of the media2 notification relay

`MediaController2Stub` is the binder stub through which a media session
notifies a `MediaController2` (or `MediaBrowser2`) in the client process. It
holds the controller only through a `WeakReference`. For each incoming
notification it resolves that reference, checks the payload, and then either
drops the notification, with or without a log line, or forwards it. Plain
kinds are forwarded by calling the controller directly. Browsing kinds become
one `Runnable` handed to the browser's callback executor.

The model has seven modules:

- `Wrappers`: `Option`, for Java references that may be null.
- `MediaTypes`: the values passed across the boundary. Platform objects
  (`Bundle`, the float speed, binder, `PendingIntent`, `ResultReceiver`) and
  decoded domain objects are abstract types. A raw `ParcelImpl` is
  `Parcel<T>`, whose `decoded` field is what the unseen codec
  (`ParcelUtils.fromParcelable`) yields: `None` is a null decode.
  `MediaMetadata2.fromBundle` is the uninterpreted constructor `FromBundle`.
- `ParcelLists`: the element-by-element list rebuild that drops null decodes.
  `Decoded` and `DropCount` are the specification. `DecodeEach` is the loop.
  Lemmas cover length, order, membership and the two extreme cases.
- `Relay`: the datatypes for notifications, controller calls, submitted work
  and log lines. `GetController` and `GetBrowser` model the two private
  resolvers. `Deliver(referent, n)` is the relay's complete decision for one
  notification, as a pure function of the weak reference's current content.
- `ControllerStub`: the class `MediaController2Stub`. The field `referent`
  models the weak reference. Three sequences record what is observable:
  `calls` (calls on the controller), `submitted` (runnables handed to an
  executor) and `log` (warning and debug lines). There is one method per
  handler, written the way the Java code is. Each handler is proved to leave
  `referent` unchanged and to extend the record by exactly
  `Deliver(referent, n)`. `Destroy` is the only member that changes
  `referent`.
- `RelayProperties` and `Scenarios`: the guarantees, stated over `Deliver`
  and shown on concrete runs of the class.

Notes on what the code does, which the model follows:

- `onGetItemDone`, `onGetChildrenDone` and `onChildrenChanged` reject only a
  null id. An empty id is forwarded, as shown by
  `Scenarios.EmptyParentIdForwarded`. Only the two search kinds reject an
  empty string (`TextUtils.isEmpty`).
- Only `onPlaylistChanged` logs a warning per dropped list element. The list
  filters in `onConnected` and `onCustomLayoutChanged` drop elements silently.
- `onCurrentMediaItemChanged`, `onBufferingStateChanged` and `onConnected` do
  not reject a payload that fails to decode. They forward the null decode to
  the controller. Only playback info, allowed commands and custom commands are
  dropped on a null decode.
- A cleared reference in the lifecycle kinds (`onConnected`,
  `onDisconnected`) leaves one debug line. Every other kind leaves exactly one
  warning: the released-controller warning ("Don't fail silently here"), or the
  warning of a payload check that runs before resolution. Those checks are the
  null list of `onCustomLayoutChanged` and the null id or empty query of the
  browsing kinds.
- `onPlaybackInfoChanged` always writes its debug trace first, because the
  source's `DEBUG` constant is true.

## Model

| member | source | states |
|---|---|---|
| `ControllerStub.MediaController2Stub.constructor` | media2/src/main/java/androidx/media2/MediaController2Stub.java:39-43 | the stub starts bound to the given controller, with nothing called, submitted or logged |
| `ControllerStub.MediaController2Stub.Destroy` | media2/src/main/java/androidx/media2/MediaController2Stub.java:476-478 | clearing the reference releases the stub and changes nothing else, so a second call changes nothing |
| `Relay.GetController` | media2/src/main/java/androidx/media2/MediaController2Stub.java:480-486 | throws exactly when the reference is cleared, otherwise returns the referent itself; never null, so the `controller == null` checks at :269-272 and :292-295 cannot fire |
| `Relay.GetBrowser` | media2/src/main/java/androidx/media2/MediaController2Stub.java:488-494 | throws exactly when released; returns null exactly when the live controller's instance is not a browser; returns only the bound browser |
| `ControllerStub.MediaController2Stub.OnCurrentMediaItemChanged` | media2/src/main/java/androidx/media2/MediaController2Stub.java:46-55 | effect equals `Deliver`: released-warning, or one call with the decoded (possibly null) item; reference untouched |
| `ControllerStub.MediaController2Stub.OnPlayerStateChanged` | media2/src/main/java/androidx/media2/MediaController2Stub.java:58-67 | effect equals `Deliver`: one call carrying time, position and state unchanged, or the released warning |
| `ControllerStub.MediaController2Stub.OnPlaybackSpeedChanged` | media2/src/main/java/androidx/media2/MediaController2Stub.java:70-79 | effect equals `Deliver`: one call with the speed passed through, or the released warning |
| `ControllerStub.MediaController2Stub.OnBufferingStateChanged` | media2/src/main/java/androidx/media2/MediaController2Stub.java:82-93 | effect equals `Deliver`: one call with the decoded item, state and buffered position, or the released warning |
| `ControllerStub.MediaController2Stub.OnPlaylistChanged` | media2/src/main/java/androidx/media2/MediaController2Stub.java:96-119 | the loop's effect equals `Deliver`: released warning; null-list warning; or one warning per undecodable element and one call with the decoded elements in order |
| `ControllerStub.MediaController2Stub.OnPlaylistMetadataChanged` | media2/src/main/java/androidx/media2/MediaController2Stub.java:122-132 | effect equals `Deliver`: one call with the metadata read from the bundle, or the released warning |
| `ControllerStub.MediaController2Stub.OnRepeatModeChanged` | media2/src/main/java/androidx/media2/MediaController2Stub.java:135-144 | effect equals `Deliver`: one call with the mode, or the released warning |
| `ControllerStub.MediaController2Stub.OnShuffleModeChanged` | media2/src/main/java/androidx/media2/MediaController2Stub.java:147-156 | effect equals `Deliver`: one call with the mode, or the released warning |
| `ControllerStub.MediaController2Stub.OnPlaybackInfoChanged` | media2/src/main/java/androidx/media2/MediaController2Stub.java:159-176 | effect equals `Deliver`: a debug trace, then the released warning, the null-info warning, or one call with the decoded info |
| `ControllerStub.MediaController2Stub.OnSeekCompleted` | media2/src/main/java/androidx/media2/MediaController2Stub.java:179-188 | effect equals `Deliver`: one call with the three positions, or the released warning |
| `ControllerStub.MediaController2Stub.OnError` | media2/src/main/java/androidx/media2/MediaController2Stub.java:191-200 | effect equals `Deliver`: one call with code and extras, or the released warning |
| `ControllerStub.MediaController2Stub.OnRoutesInfoChanged` | media2/src/main/java/androidx/media2/MediaController2Stub.java:203-212 | effect equals `Deliver`: one call with the routes list passed through (null included), or the released warning |
| `ControllerStub.MediaController2Stub.OnConnected` | media2/src/main/java/androidx/media2/MediaController2Stub.java:215-242 | effect equals `Deliver`: a debug line when the reference is cleared, otherwise one connection call with decoded parts and the filtered playlist |
| `ControllerStub.MediaController2Stub.OnDisconnected` | media2/src/main/java/androidx/media2/MediaController2Stub.java:245-254 | effect equals `Deliver`: a debug line when cleared, otherwise one close of the controller's instance |
| `ControllerStub.MediaController2Stub.OnCustomLayoutChanged` | media2/src/main/java/androidx/media2/MediaController2Stub.java:257-281 | effect equals `Deliver`: null list rejected before resolution; released warning; or one call with the filtered layout |
| `ControllerStub.MediaController2Stub.OnAllowedCommandsChanged` | media2/src/main/java/androidx/media2/MediaController2Stub.java:284-302 | effect equals `Deliver`: released warning, null-commands warning, or one call with the decoded group |
| `ControllerStub.MediaController2Stub.OnCustomCommand` | media2/src/main/java/androidx/media2/MediaController2Stub.java:305-319 | effect equals `Deliver`: released warning, null-command warning, or one call with command, args and receiver |
| `ControllerStub.MediaController2Stub.OnGetLibraryRootDone` | media2/src/main/java/androidx/media2/MediaController2Stub.java:325-344 | effect equals `Deliver`: released warning, silent drop for a non-browser, or one runnable on the browser's executor |
| `ControllerStub.MediaController2Stub.OnGetItemDone` | media2/src/main/java/androidx/media2/MediaController2Stub.java:347-370 | effect equals `Deliver`: null id rejected first, then as for the library root |
| `ControllerStub.MediaController2Stub.OnGetChildrenDone` | media2/src/main/java/androidx/media2/MediaController2Stub.java:373-397 | effect equals `Deliver`: null parent id rejected first; the raw item list travels in the runnable unconverted |
| `ControllerStub.MediaController2Stub.OnSearchResultChanged` | media2/src/main/java/androidx/media2/MediaController2Stub.java:400-422 | effect equals `Deliver`: null or empty query rejected first, then as for the library root |
| `ControllerStub.MediaController2Stub.OnGetSearchResultDone` | media2/src/main/java/androidx/media2/MediaController2Stub.java:425-450 | effect equals `Deliver`: null or empty query rejected first; the raw item list travels in the runnable |
| `ControllerStub.MediaController2Stub.OnChildrenChanged` | media2/src/main/java/androidx/media2/MediaController2Stub.java:453-474 | effect equals `Deliver`: null parent id rejected first, then as for the library root |
| `ParcelLists.DecodeEach` | media2/src/main/java/androidx/media2/MediaController2Stub.java:273-279 | the rebuilding loop returns exactly the in-order list of present decodes |
| `ParcelLists.DecodedLength` | media2/src/main/java/androidx/media2/MediaController2Stub.java:108-116 | N records with K failed decodes leave N - K elements |
| `ParcelLists.DecodedAppend` | media2/src/main/java/androidx/media2/MediaController2Stub.java:228-234 | filtering distributes over concatenation, so relative order is kept and drops add up |
| `ParcelLists.DecodedMembers` | media2/src/main/java/androidx/media2/MediaController2Stub.java:108-116 | an item is in the rebuilt list if and only if some record decodes to it |
| `ParcelLists.DecodedAllPresent` | media2/src/main/java/androidx/media2/MediaController2Stub.java:273-279 | when every record decodes, nothing is dropped and position i holds record i's item |
| `ParcelLists.DecodedAllAbsent` | media2/src/main/java/androidx/media2/MediaController2Stub.java:108-116 | when no record decodes, the list is empty and every record counts as dropped |
| `RelayProperties.ReleasedDeliversNothing` | media2/src/main/java/androidx/media2/MediaController2Stub.java:46-55 | with the reference cleared no kind calls or submits; lifecycle kinds leave one debug line and no warning, all others exactly one warning |
| `RelayProperties.NoDeliveryAfterDestroy` | media2/src/main/java/androidx/media2/MediaController2Stub.java:476-486 | any sequence of notifications after destroy leaves the controller untouched |
| `RelayProperties.DeliversOnlyToBoundController` | media2/src/main/java/androidx/media2/MediaController2Stub.java:480-494 | each notification yields at most one call or one submission, only to the currently bound controller, and submissions only to a browser |
| `RelayProperties.PlainDelivery` | media2/src/main/java/androidx/media2/MediaController2Stub.java:46-212 | the ten pass-through kinds reach a bound controller as exactly one call and nothing else, and the call gives back the notification's arguments unchanged |
| `RelayProperties.PlaylistChangedDelivery` | media2/src/main/java/androidx/media2/MediaController2Stub.java:104-118 | null list: one warning, no call; otherwise exactly one call with the N - K decoded items in order and K warnings |
| `RelayProperties.CustomLayoutDelivery` | media2/src/main/java/androidx/media2/MediaController2Stub.java:257-281 | a null list is rejected whatever the reference holds; otherwise one call with the filtered layout and no log |
| `RelayProperties.ConnectedDelivery` | media2/src/main/java/androidx/media2/MediaController2Stub.java:219-241 | cleared: a debug line only; bound: one call whose playlist is null exactly when the raw one is, else the filtered list; no warnings |
| `RelayProperties.DisconnectedDelivery` | media2/src/main/java/androidx/media2/MediaController2Stub.java:244-254 | cleared: a debug line only; bound: exactly one close of the controller's instance |
| `RelayProperties.DecodedPayloadGuard` | media2/src/main/java/androidx/media2/MediaController2Stub.java:170-175 | playback info, allowed commands, custom command: an undecodable payload gives no call and one warning; a decodable one gives exactly one call carrying the decoded object (and, for a custom command, its args and receiver unchanged) and no warning |
| `RelayProperties.CapabilityGating` | media2/src/main/java/androidx/media2/MediaController2Stub.java:488-494 | browsing kinds for a non-browser: no call, no work, no log beyond the payload checks that run first |
| `RelayProperties.BrowsingPayloadChecks` | media2/src/main/java/androidx/media2/MediaController2Stub.java:349-352 | a null id or null/empty query is rejected with its warning whatever the reference holds, and these are the only early rejections |
| `RelayProperties.BrowsingSubmission` | media2/src/main/java/androidx/media2/MediaController2Stub.java:337-343 | a browsing kind past all guards submits exactly one runnable to the bound browser, calls nothing directly, and the runnable gives back the notification unchanged |
| `Scenarios.PlayerStateAsSent` | media2/src/main/java/androidx/media2/MediaController2Stub.java:58-67 | on the object: player state (100, 50, s) reaches the controller as exactly that call, with no log |
| `Scenarios.NotifyAfterDestroy` | media2/src/main/java/androidx/media2/MediaController2Stub.java:46-53 | on the object: destroy twice, then a notification leaves only the released warning |
| `Scenarios.PlaylistWithUndecodableItem` | media2/src/main/java/androidx/media2/MediaController2Stub.java:104-118 | on the object: a 3-item playlist with an undecodable middle item delivers items 1 and 3 and one warning |
| `Scenarios.ChildrenChangedForBrowser` | media2/src/main/java/androidx/media2/MediaController2Stub.java:453-474 | on the object: ("root", 5, extras) becomes one queued runnable and no direct call |
| `Scenarios.EmptyParentIdForwarded` | media2/src/main/java/androidx/media2/MediaController2Stub.java:373-397 | on the object: an empty parent id is not rejected, only a null one |
| `Scenarios.BrowsingKindForPlainController` | media2/src/main/java/androidx/media2/MediaController2Stub.java:334-336 | on the object: browsing kinds for a plain controller leave no call, no work and no log |

## Left out

- The binder transport (`IMediaController2.Stub`) and its thread pool. Each handler call is one sequential step, so concurrent deliveries and the race between resolution and `destroy()` are not modelled.
- `ParcelUtils.fromParcelable` is not part of this model. A raw record carries the result of its decode. A null `ParcelImpl` is folded into "decodes to none", and a `ClassCastException` from the casts is not modelled.
- `MediaUtils2.convertParcelImplListToMediaItem2List` and `MediaMetadata2.fromBundle` are not part of this model. The list conversion runs inside the submitted runnable, which carries the raw list. Metadata is the uninterpreted `FromBundle(bundle)`.
- Garbage collection of the weak referent is not a separate action. It has exactly the effect of `Destroy` (the reference reads as cleared).
- Running a submitted runnable on the executor, and the browser-callback call it makes, are not modelled. Submission is recorded, and the callback is never called on the delivering thread.
- `Bundle`, `PendingIntent`, `ResultReceiver`, `IMediaSession2` and the float playback speed are opaque values that are passed through. `long` and `int` arguments are unbounded integers, since the relay does no arithmetic on them.
- Log output is recorded as the identity of each warning or debug line, not its text. The relative order of log lines and calls is not recorded, because the three kinds of effect are kept in separate sequences.
- The `controller == null` branches after `getController()` (:269-272, :292-295) have no counterpart. A `Controller` value cannot be null, and `Relay.GetController` states why the branches cannot be reached.
- room/room-compiler/src/main/kotlin/androidx/room/solver/query/result/QueryResultAdapter.kt is not part of this model. It is a code-generation helper whose logic lives in `PojoRowAdapter`, which is not available.
