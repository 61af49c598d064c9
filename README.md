# CastManager: a Dafny model of the ChromecastV4 cast coordinator

ChromecastV4 is an iOS sample app that hands video playback between the
phone's own player and a Chromecast receiver. Its `CastManager` singleton sits
between the app's screens and the Google Cast SDK. It does five things:

- It keeps the list of discovered receiver devices. The discovery manager's
  insert and remove callbacks update the list, and each change tells one
  delegate to reload.
- It keeps an observed `sessionStatus`. Every assignment synchronously calls
  the one registered listener. The session manager's callbacks set it:
  started, resumed, ended, failed to start, and suspended (which is reported
  as ended).
- It guards connect and disconnect requests.
- It routes load, play and pause requests to the current session's remote
  media client. Each request reports `true` or `false` through a completion.
- It answers queries about the remote player and builds media descriptions.
  The studio label in a description is replaced by the connected device's
  name.

The model is the class `Manager.CastManager` (`cast_manager.dfy`). Its fields
are the manager's own fields plus the SDK state it reads:

- `currentSession`, the session manager's current cast session. A session
  carries its device and an optional remote media client.
- `hasConnectedSession`, the session manager's `hasConnectedCastSession()`.
- `discoveredCount`, the discovery manager's `deviceCount`. This is separate
  from `availableDevices`, and the connect guard reads it.
- `mediaListenerAdded`, whether the manager is a listener of the remote media
  client.

The SDK changes these fields itself. The model states each method's effect on
whatever values they hold when the method runs.

Everything the manager does to the outside world goes into the ghost field
`trace`, in the order it happens. That covers requests to the session manager,
media commands, listener registration with the remote client, calls of the
status listener and the delegates, and the completion calls of the load, play
and pause requests. The two queries (`GetCurrentPlaybackTime`,
`GetMediaPlayerState`) change nothing; they return the values their
completions receive. So each method's `ensures` gives the whole new state,
including the order of effects.
For example, a remote load sends the load, then reports `true`, then calls
the listener with `alreadyConnected`.

`CastSpec` (`cast_spec.dfy`) holds the specification functions and lemmas:

- `RemovedAt`, the device-list removal, with its lemmas.
- Projections of the trace onto remote commands (`Commands`), listener calls
  (`Deliveries`) and delegate reloads (`Reloads`). `ProjectAppend` proves by
  induction that they distribute over appended events. Methods use this to
  state counts such as "the listener was called exactly once, with the new
  value" or "exactly one load was sent".
- `Apply`, the effect of each remote command on the receiver's playback, and
  `Replay`, the playback a whole sequence of commands puts the receiver in.
  The load, play and pause methods state where the commands sent so far put
  the receiver: a load at `time` puts it playing from `time` whatever came
  before, and a play or pause request puts it at the given time (or where the
  earlier commands put it), playing or paused. `Replay` knows only commands,
  so it sees neither time passing nor a change of session.

`CastTypes` (`cast_types.dfy`) holds the value types. `Wrappers` holds `Option`.

Three client methods at the end of `cast_manager.dfy` are checked by the
verifier against the contracts alone:

- A second listener registration replaces the first.
- A load leaves the receiver playing from the load position. If the SDK then
  drops its current session and reports an app-terminated suspend, the
  listener hears `ended`, and a later play request reports `false` and sends
  nothing. The scenario clears `currentSession` itself to stand for the SDK
  dropping the session; the suspend callback does not touch the session.
- A connect while discovery sees no device and a session is connected does
  nothing.

Three behaviours are easy to assume and are not what the code does. The model
follows the code:

- One might expect the device list to hold each device once, keyed by its id,
  with a repeated insert replacing the entry. The code appends every inserted
  device to an array and ignores the index the SDK reports. `DidInsert` does
  the same.
- One might expect a disconnect to end the session at once. The code only
  asks the session manager to end it. `DisconnectFromCurrentDevice` records
  that request and does not change the SDK's session state.
- The ended and suspended callbacks only set the status. They never
  deregister the manager from the remote media client; only
  `disconnectFromCurrentDevice` does. `DidEnd` and `DidSuspend` leave
  `mediaListenerAdded` as it was.

## Model

| member | source | states |
|---|---|---|
| `Manager.CastManager.constructor` | ChromecastV4/Manager/CastManager.swift:34-62 | The shared instance starts with no devices, no listener, no status, no stored media information and an empty category. |
| `Manager.CastManager.HasConnectionEstablished` | ChromecastV4/Manager/CastManager.swift:44-51 | True exactly when the SDK has a current cast session. |
| `Manager.CastManager.AddSessionStatusListener` | ChromecastV4/Manager/CastManager.swift:117-119 | The listener slot holds the new listener, replacing any previous one. Nothing is called and nothing else changes. |
| `Manager.CastManager.SetSessionStatus` | ChromecastV4/Manager/CastManager.swift:52-57 | The status takes the new value. The registered listener is called exactly once with it, or nothing happens when none is registered. No command is sent. |
| `CastSpec.Dispatch` | ChromecastV4/Manager/CastManager.swift:53-57 | One status assignment produces one listener call with the new value, or none without a listener, and no command or reload. |
| `Manager.CastManager.AddRemoteMediaListener` | ChromecastV4/Manager/CastManager.swift:103-108 | The manager registers with the remote media client only when there is a current session and it has a client. Otherwise nothing changes. |
| `Manager.CastManager.RemoveRemoteMediaListener` | ChromecastV4/Manager/CastManager.swift:110-115 | The manager deregisters only when there is a current session with a client. Otherwise nothing changes. |
| `Manager.CastManager.GetAvailableDevices` | ChromecastV4/Manager/CastManager.swift:153-155 | Returns the device list as it stands, in arrival order. |
| `Manager.CastManager.DidStartDiscovery` | ChromecastV4/Manager/CastManager.swift:285-287 | Remembers the device category and changes nothing else. |
| `Manager.CastManager.DidInsert` | ChromecastV4/Manager/CastManager.swift:293-296 | The device is appended at the end and earlier entries are unchanged, whatever index is reported. The device delegate, if set, reloads exactly once. No command or listener call is made. |
| `Manager.CastManager.DidRemoveDevice` | ChromecastV4/Manager/CastManager.swift:298-301 | For a valid index, exactly the entry at that index is deleted: one occurrence of it, with the rest in order. The device delegate, if set, reloads exactly once. |
| `CastSpec.Reload` | ChromecastV4/Manager/CastManager.swift:295 | The optional-chained delegate call produces exactly one reload when a delegate is set and none otherwise. |
| `CastSpec.RemovedAt` | ChromecastV4/Manager/CastManager.swift:299 | `remove(at:)` leaves one entry fewer. Entries before the index keep their positions and later ones move down by one. |
| `CastSpec.RemovedAtDeletesOneEntry` | ChromecastV4/Manager/CastManager.swift:298-301 | As a multiset, the list after removal is the old list minus exactly the removed entry. |
| `CastSpec.InsertThenRemoveRestores` | ChromecastV4/Manager/CastManager.swift:293-301 | An insert followed by a removal at the inserted entry's index gives back the original list. |
| `Manager.CastManager.ConnectToDevice` | ChromecastV4/Manager/CastManager.swift:306-312 | Does nothing when the discovery count is 0 and a session is connected. Otherwise it asks the session manager exactly once to start a session with the device. It sends no media command and makes no listener call. |
| `Manager.CastManager.DisconnectFromCurrentDevice` | ChromecastV4/Manager/CastManager.swift:314-319 | Only with a connected session: it deregisters from the remote client (when there is one) and then requests the end of the session. Without a connected session nothing changes. |
| `Manager.CastManager.DidStart` | ChromecastV4/Manager/CastManager.swift:324-328 | Status becomes `started` and the listener is called once with it. The manager then registers with the remote media client when one exists. |
| `Manager.CastManager.DidResumeSession` | ChromecastV4/Manager/CastManager.swift:330-333 | Status becomes `resumed` and the listener is called once with it. |
| `Manager.CastManager.DidEnd` | ChromecastV4/Manager/CastManager.swift:335-338 | Status becomes `ended`, with or without an error, and the listener is called once with it. |
| `Manager.CastManager.DidFailToStart` | ChromecastV4/Manager/CastManager.swift:340-343 | Status becomes `failedToStart` and the listener is called once with it. |
| `Manager.CastManager.DidSuspend` | ChromecastV4/Manager/CastManager.swift:345-348 | Status becomes `ended` for every suspend reason, and the listener is called once with it. |
| `Manager.CastManager.StartSelectedItemRemotely` | ChromecastV4/Manager/CastManager.swift:202-215 | With a current session: one load of the item at `time` (when the session has a client), then completion `true`, then status `alreadyConnected` with one listener call. Without a session: completion `false`, no command, status unchanged. When the session has a client, the commands sent so far put the receiver playing from `time`, whatever they put it in before. |
| `CastSpec.Issue` | ChromecastV4/Manager/CastManager.swift:208 | An optional-chained client call sends the command exactly once when the client exists and nothing otherwise. |
| `CastSpec.ReplayAppend` | ChromecastV4/Manager/CastManager.swift:202-255 | The receiver's playback after the commands of two stretches of the manager's life is the playback after the first stretch carried on through the second; the load, play and pause methods rely on it to state where the receiver ends up. |
| `CastSpec.LoadReplay` | ChromecastV4/Manager/CastManager.swift:206-208 | Whatever commands came before, once a load at `time` is sent the receiver plays from `time`. |
| `CastSpec.PlayReplay` | ChromecastV4/Manager/CastManager.swift:223-229 | After the earlier commands and then a play request, the receiver plays from the given time, or from where the earlier commands left it when no time is given. |
| `CastSpec.PauseReplay` | ChromecastV4/Manager/CastManager.swift:243-249 | After the earlier commands and then a pause request, the receiver is paused at the given time, or where the earlier commands left it when no time is given. |
| `Manager.CastManager.PlaySelectedItemRemotely` | ChromecastV4/Manager/CastManager.swift:219-235 | Completion is `true` exactly when a session exists. A given time becomes a seek with resume state play, and `nil` becomes a plain play. That command is the only one sent, and only when the session has a client. Without a session nothing is sent. With a client, the commands sent so far put the receiver playing from the given time, or from where the earlier commands put it when no time is given. |
| `Manager.CastManager.PauseSelectedItemRemotely` | ChromecastV4/Manager/CastManager.swift:239-255 | Same as play, with a seek that resumes paused, or a plain pause. With a client, the commands sent so far put the receiver paused at the given time, or where the earlier commands put it when no time is given. |
| `Manager.CastManager.GetCurrentPlaybackTime` | ChromecastV4/Manager/CastManager.swift:259-268 | Delivers `nil` whenever there is no current session, and also when the session has no remote client. Otherwise it delivers the client's approximate stream position. |
| `Manager.CastManager.GetMediaPlayerState` | ChromecastV4/Manager/CastManager.swift:272-280 | The completion always runs last with `unknown`. It runs twice exactly when session, client and media status all exist, and the first call then carries the real player state. |
| `Manager.CastManager.GetMediaInfo` | ChromecastV4/Manager/CastManager.swift:157-159 | Returns the stored media information, or `nil` when none is stored. |
| `Manager.CastManager.SetMediaInfo` | ChromecastV4/Manager/CastManager.swift:161-163 | After the call, `GetMediaInfo` returns exactly the value stored. |
| `Manager.CastManager.BuildMetadata` | ChromecastV4/Manager/CastManager.swift:186-198 | Movie metadata with exactly the title, description and studio keys. The studio is the current session's device name when a session exists and its device has a name, else the caller's studio. There is one 480x360 image exactly when the thumbnail URL is given and parses. |
| `Manager.CastManager.BuildMediaInformation` | ChromecastV4/Manager/CastManager.swift:167-184 | Content ID, stream type and duration are exactly as passed. The content type is empty and custom data is `nil`. The metadata is as above. The result does not depend on `movieUrl` or `customData`. |
| `Manager.CastManager.DidUpdateMediaStatus` | ChromecastV4/Manager/CastManager.swift:352-355 | The media-status delegate, if set, receives the status's media information, which is then stored so that `GetMediaInfo` returns it. A missing status stores `nil`. |

## Left out

- Context, discovery and session-manager setup (`initialise`, `initialiseContext`, `createSessionManager`, `initialiseDiscovery`, CastManager.swift:66-93): SDK plumbing. The model starts from an initialised manager, so the crash on the implicitly unwrapped `sessionManager` before `initialise` is not modelled.
- Styling (`style`, `miniControllerStyle`, `styleConnectionController`, CastManager.swift:122-151): user-interface appearance only.
- Logging (`setupCastLogging`, the logger delegate, the print in `didUpdateDeviceList`, and the prints in the five session callbacks, CastManager.swift:95-101, 289-291, 325, 331, 336, 341, 346, 358-363): console output only.
- `URL(string:)` is Foundation code. It is the `parseUrl` parameter of `BuildMetadata`, and nothing is assumed about which strings it accepts.
- The builder's nil assignments to ad breaks, ad break clips, media tracks and text track style have no fields in `MediaInformation`. Only the fields the manager sets to a value are modelled.
- `TimeInterval` is modelled as `real`. Times are only passed on, so floating-point rounding plays no part. Nothing forces positions or durations to be non-negative, because the code does not check this either.
- How the SDK changes its own state is not modelled: session start and end, discovery count, and media status. Its callbacks are the manager's methods, and its state is plain fields that a client sets.
- `mediaListenerAdded` is one flag on the manager rather than per remote-client object. Replacing the session's client is not tracked.
- The listener and delegates are identities. What the app's closures and delegate objects do when called, including calling back into the manager, is not modelled. Weak references are modelled as optional fields that become `nil` only by assignment.
- The SDK's return values that the manager ignores (the `Bool` from `startSession`, the request objects from load, seek, play and pause) are not modelled.
- `Manager.CastManager.DidRemoveDevice` requires an index inside the list. For any other index Swift's `remove(at:)` stops the app; that crash is not modelled.
- `Manager.CastManager.DidStart` states the status is `started` once it returns. That holds only when the listener does not call back into the manager. The app's listener (Controllers/Player Screen/PlayerViewController.swift:252-270) starts remote playback on `.started`, which calls `startSelectedItemRemotely` and so sets the status to `alreadyConnected` before `didStart` returns.
- `CastSpec.Replay` is the playback the commands alone put the receiver in. It treats every command as sent to one receiver, so commands sent in an earlier session carry over to the next session's receiver. It also ignores playing time between commands: a plain pause after a load at 42 seconds is paused at 42 seconds, however long the receiver played. The load, play and pause methods' replay ensures hold in this sense only.
- `seekLocalPlayerDelegate` is declared but never used in CastManager.swift, so it has no counterpart.
- The app delegate's lifecycle hooks and the two view controllers are not part of this model. The local playback state machine and the remote-to-local handoff live in the player screen.
