/**
 The cast manager: the app's single coordinator between its screens and the
 cast SDK. It keeps the list of discovered devices, the observed session status
 with its one listener, and the media information last reported by the
 receiver; it routes load, play and pause requests to the current session's
 remote media client and answers queries about the remote player.

 The SDK itself is abstract state: the current cast session, whether the
 session manager has a connected session, the discovery manager's device count,
 and whether the manager is registered with the remote media client. What the
 manager sends out (requests to the session manager, media commands, calls of
 the status listener, the delegates and completion closures) is appended, in
 order, to the ghost `trace`.
 */
module Manager {
  import opened Wrappers
  import opened CastTypes
  import opened CastSpec

  class CastManager {
    // State of the cast SDK as the manager sees it; the SDK changes it.
    var currentSession: Option<Session>       // sessionManager.currentCastSession
    var hasConnectedSession: bool             // sessionManager.hasConnectedCastSession()
    var discoveredCount: nat                  // discoveryManager.deviceCount
    var mediaListenerAdded: bool              // the manager is a listener of the remote media client

    // Weakly held collaborators, set by the screens.
    var availableDeviceDelegate: Option<Delegate>
    var didUpdateMediaStatusDelegate: Option<Delegate>

    // The manager's own state.
    var sessionStatusListener: Option<Listener>
    var sessionStatus: Option<CastSessionStatus>
    var gckMediaInformation: Option<MediaInformation>
    var availableDevices: seq<Device>
    var deviceCategory: string

    /** Everything the manager has done to the world outside it, oldest first. */
    ghost var trace: seq<Event>

    /** The shared instance as first created: nothing discovered, no session, no listener. */
    constructor ()
      ensures currentSession == None && !hasConnectedSession && discoveredCount == 0 && !mediaListenerAdded
      ensures availableDeviceDelegate == None && didUpdateMediaStatusDelegate == None
      ensures sessionStatusListener == None && sessionStatus == None && gckMediaInformation == None
      ensures availableDevices == [] && deviceCategory == "" && trace == []
    {
      currentSession := None;
      hasConnectedSession := false;
      discoveredCount := 0;
      mediaListenerAdded := false;
      availableDeviceDelegate := None;
      didUpdateMediaStatusDelegate := None;
      sessionStatusListener := None;
      sessionStatus := None;
      gckMediaInformation := None;
      availableDevices := [];
      deviceCategory := "";
      trace := [];
    }

    // ------------------------------------------------------------ status and its listener

    /** `hasConnectionEstablished`: whether the SDK has a current cast session. */
    function HasConnectionEstablished(): (b: bool)
      reads this
      ensures b <==> currentSession != None
    {
      currentSession.Some?
    }

    /** Registering a listener replaces the previous one; nothing is called. */
    method AddSessionStatusListener(listener: Listener)
      modifies this`sessionStatusListener
      ensures sessionStatusListener == Some(listener)
    {
      sessionStatusListener := Some(listener);
    }

    /**
     An assignment to the observed `sessionStatus`: the field takes the new value
     and the registered listener, if any, is called once with it.
     */
    method SetSessionStatus(status: CastSessionStatus)
      modifies this`sessionStatus, this`trace
      ensures sessionStatus == Some(status)
      ensures trace == old(trace) + Dispatch(sessionStatusListener, status)
      ensures Deliveries(trace) == Deliveries(old(trace)) + Delivered(sessionStatusListener, status)
      ensures Commands(trace) == Commands(old(trace))
    {
      sessionStatus := Some(status);
      if sessionStatusListener.Some? {
        trace := trace + [StatusDelivered(sessionStatusListener.value, status)];
      }
      ProjectionsOfAppend(old(trace), Dispatch(sessionStatusListener, status));
    }

    // ------------------------------------------------------------ remote media listener

    /** `addRemoteMediaListerner`: registers with the current session's remote media client, if both exist. */
    method AddRemoteMediaListener()
      modifies this`mediaListenerAdded, this`trace
      ensures RemoteClientOf(currentSession).Some? ==> mediaListenerAdded && trace == old(trace) + [MediaListenerChange(true)]
      ensures RemoteClientOf(currentSession).None? ==> mediaListenerAdded == old(mediaListenerAdded) && trace == old(trace)
    {
      if currentSession.None? {
        return;
      }
      if currentSession.value.remoteMediaClient.Some? {
        mediaListenerAdded := true;
        trace := trace + [MediaListenerChange(true)];
      }
    }

    /** `removeRemoteMediaListener`: deregisters from the current session's remote media client, if both exist. */
    method RemoveRemoteMediaListener()
      modifies this`mediaListenerAdded, this`trace
      ensures RemoteClientOf(currentSession).Some? ==> !mediaListenerAdded && trace == old(trace) + [MediaListenerChange(false)]
      ensures RemoteClientOf(currentSession).None? ==> mediaListenerAdded == old(mediaListenerAdded) && trace == old(trace)
    {
      if currentSession.None? {
        return;
      }
      if currentSession.value.remoteMediaClient.Some? {
        mediaListenerAdded := false;
        trace := trace + [MediaListenerChange(false)];
      }
    }

    // ------------------------------------------------------------ device list

    /** `getAvailableDevices`: the devices discovered so far, in arrival order. */
    function GetAvailableDevices(): (devices: seq<Device>)
      reads this
      ensures devices == availableDevices
    {
      availableDevices
    }

    /** `didStartDiscovery(forDeviceCategory:)`: remembers the category. */
    method DidStartDiscovery(category: string)
      modifies this`deviceCategory
      ensures deviceCategory == category
    {
      deviceCategory := category;
    }

    /**
     `didInsert(_:at:)`: the device is appended at the end, whatever index the
     SDK reports, and the device delegate, if any, is told once to reload.
     */
    method DidInsert(device: Device, index: nat)
      modifies this`availableDevices, this`trace
      ensures availableDevices == old(availableDevices) + [device]
      ensures trace == old(trace) + Reload(availableDeviceDelegate)
      ensures Reloads(trace) == Reloads(old(trace)) + (if availableDeviceDelegate.Some? then [availableDeviceDelegate.value] else [])
      ensures Commands(trace) == Commands(old(trace)) && Deliveries(trace) == Deliveries(old(trace))
    {
      availableDevices := availableDevices + [device];
      if availableDeviceDelegate.Some? {
        trace := trace + [DeviceListReloaded(availableDeviceDelegate.value)];
      }
      ProjectionsOfAppend(old(trace), Reload(availableDeviceDelegate));
    }

    /**
     `didRemoveDevice(at:)`: the entry at `index` is deleted, the others keep
     their order, and the device delegate, if any, is told once to reload.
     Swift traps on an index out of range, so the SDK must report a valid one.
     */
    method DidRemoveDevice(index: nat)
      requires index < |availableDevices|
      modifies this`availableDevices, this`trace
      ensures availableDevices == RemovedAt(old(availableDevices), index)
      ensures multiset(availableDevices) == multiset(old(availableDevices)) - multiset{old(availableDevices)[index]}
      ensures trace == old(trace) + Reload(availableDeviceDelegate)
      ensures Reloads(trace) == Reloads(old(trace)) + (if availableDeviceDelegate.Some? then [availableDeviceDelegate.value] else [])
      ensures Commands(trace) == Commands(old(trace)) && Deliveries(trace) == Deliveries(old(trace))
    {
      RemovedAtDeletesOneEntry(availableDevices, index);
      availableDevices := availableDevices[..index] + availableDevices[index + 1..];
      if availableDeviceDelegate.Some? {
        trace := trace + [DeviceListReloaded(availableDeviceDelegate.value)];
      }
      ProjectionsOfAppend(old(trace), Reload(availableDeviceDelegate));
    }

    // ------------------------------------------------------------ connecting

    /**
     `connectToDevice`: does nothing when discovery sees no device while a
     session is connected; otherwise asks the session manager, once, to start a
     session with `device`.
     */
    method ConnectToDevice(device: Device)
      modifies this`trace
      ensures discoveredCount == 0 && hasConnectedSession ==> trace == old(trace)
      ensures !(discoveredCount == 0 && hasConnectedSession) ==> trace == old(trace) + [SessionCall(StartSession(device))]
      ensures Commands(trace) == Commands(old(trace)) && Deliveries(trace) == Deliveries(old(trace))
    {
      if discoveredCount == 0 && hasConnectedSession {
        return;
      }
      trace := trace + [SessionCall(StartSession(device))];
      OtherEventsProjectToNothing(SessionCall(StartSession(device)));
      ProjectionsOfAppend(old(trace), [SessionCall(StartSession(device))]);
    }

    /**
     `disconnectFromCurrentDevice`: only with a connected session, deregisters
     from the remote media client and then asks the session manager to end the session.
     */
    method DisconnectFromCurrentDevice()
      modifies this`mediaListenerAdded, this`trace
      ensures !hasConnectedSession ==> mediaListenerAdded == old(mediaListenerAdded) && trace == old(trace)
      ensures hasConnectedSession && RemoteClientOf(currentSession).Some? ==>
        !mediaListenerAdded && trace == old(trace) + [MediaListenerChange(false), SessionCall(EndSession)]
      ensures hasConnectedSession && RemoteClientOf(currentSession).None? ==>
        mediaListenerAdded == old(mediaListenerAdded) && trace == old(trace) + [SessionCall(EndSession)]
    {
      if hasConnectedSession {
        RemoveRemoteMediaListener();
        trace := trace + [SessionCall(EndSession)];
      }
    }

    // ------------------------------------------------------------ session-manager callbacks

    /** `didStart`: status `started` (the listener is called), then registration with the remote media client. */
    method DidStart(session: Session)
      modifies this`sessionStatus, this`mediaListenerAdded, this`trace
      ensures sessionStatus == Some(Started)
      ensures mediaListenerAdded == (old(mediaListenerAdded) || RemoteClientOf(currentSession).Some?)
      ensures trace == old(trace) + Dispatch(sessionStatusListener, Started)
                       + (if RemoteClientOf(currentSession).Some? then [MediaListenerChange(true)] else [])
      ensures Deliveries(trace) == Deliveries(old(trace)) + Delivered(sessionStatusListener, Started)
      ensures Commands(trace) == Commands(old(trace))
    {
      SetSessionStatus(Started);
      ghost var afterStatus := trace;
      AddRemoteMediaListener();
      if RemoteClientOf(currentSession).Some? {
        OtherEventsProjectToNothing(MediaListenerChange(true));
        ProjectionsOfAppend(afterStatus, [MediaListenerChange(true)]);
      }
    }

    /** `didResumeSession`: status `resumed`. */
    method DidResumeSession(session: Session)
      modifies this`sessionStatus, this`trace
      ensures sessionStatus == Some(Resumed)
      ensures trace == old(trace) + Dispatch(sessionStatusListener, Resumed)
      ensures Deliveries(trace) == Deliveries(old(trace)) + Delivered(sessionStatusListener, Resumed)
      ensures Commands(trace) == Commands(old(trace))
    {
      SetSessionStatus(Resumed);
    }

    /** `didEnd`: status `ended`, with or without an error. */
    method DidEnd(session: Session, error: Option<SessionError>)
      modifies this`sessionStatus, this`trace
      ensures sessionStatus == Some(Ended)
      ensures trace == old(trace) + Dispatch(sessionStatusListener, Ended)
      ensures Deliveries(trace) == Deliveries(old(trace)) + Delivered(sessionStatusListener, Ended)
      ensures Commands(trace) == Commands(old(trace))
    {
      SetSessionStatus(Ended);
    }

    /** `didFailToStart`: status `failedToStart`. */
    method DidFailToStart(session: Session, error: SessionError)
      modifies this`sessionStatus, this`trace
      ensures sessionStatus == Some(FailedToStart)
      ensures trace == old(trace) + Dispatch(sessionStatusListener, FailedToStart)
      ensures Deliveries(trace) == Deliveries(old(trace)) + Delivered(sessionStatusListener, FailedToStart)
      ensures Commands(trace) == Commands(old(trace))
    {
      SetSessionStatus(FailedToStart);
    }

    /** `didSuspend`: status `ended`, whatever the reason; the manager stays registered with the client. */
    method DidSuspend(session: Session, reason: SuspendReason)
      modifies this`sessionStatus, this`trace
      ensures sessionStatus == Some(Ended)
      ensures trace == old(trace) + Dispatch(sessionStatusListener, Ended)
      ensures Deliveries(trace) == Deliveries(old(trace)) + Delivered(sessionStatusListener, Ended)
      ensures Commands(trace) == Commands(old(trace))
    {
      SetSessionStatus(Ended);
    }

    // ------------------------------------------------------------ remote commands

    /**
     `startSelectedItemRemotely`: with a current session, loads `info` at play
     position `time` on its remote media client (if it has one), reports `true`,
     then sets status `alreadyConnected`, which calls the listener. Without a
     session it reports `false` and nothing else happens.
     */
    method StartSelectedItemRemotely(info: MediaInformation, time: Time) returns (ok: bool)
      modifies this`sessionStatus, this`trace
      ensures ok <==> HasConnectionEstablished()
      ensures ok ==> sessionStatus == Some(AlreadyConnected)
      ensures ok ==> trace == old(trace) + Issue(RemoteClientOf(currentSession), LoadMedia(info, time))
                              + [Completion(true)] + Dispatch(sessionStatusListener, AlreadyConnected)
      ensures !ok ==> sessionStatus == old(sessionStatus) && trace == old(trace) + [Completion(false)]
      ensures Commands(trace) == Commands(old(trace)) + (if RemoteClientOf(currentSession).Some? then [LoadMedia(info, time)] else [])
      ensures Deliveries(trace) == Deliveries(old(trace)) + (if ok then Delivered(sessionStatusListener, AlreadyConnected) else [])
      ensures RemoteClientOf(currentSession).Some? ==>
                forall p :: Replay(Commands(trace), p) == RemotePlayback(time, true)
    {
      if currentSession.Some? {
        ghost var issued := Issue(currentSession.value.remoteMediaClient, LoadMedia(info, time));
        trace := trace + Issue(currentSession.value.remoteMediaClient, LoadMedia(info, time));
        ok := true;
        trace := trace + [Completion(ok)];
        ProjectionsOfAppend(old(trace), issued);
        ProjectionsOfAppend(old(trace) + issued, [Completion(true)]);
        OtherEventsProjectToNothing(Completion(true));
        assert Commands(trace) == Commands(old(trace)) + Commands(issued);
        assert Deliveries(trace) == Deliveries(old(trace));
        SetSessionStatus(AlreadyConnected);
        if currentSession.value.remoteMediaClient.Some? {
          LoadReplay(Commands(old(trace)), info, time);
        }
      } else {
        ok := false;
        trace := trace + [Completion(ok)];
        ProjectionsOfAppend(old(trace), [Completion(false)]);
        OtherEventsProjectToNothing(Completion(false));
      }
    }

    /**
     `playSelectedItemRemotely`: with a current session, asks its remote media
     client (if it has one) to play, from `time` when one is given, and reports
     `true`; without a session reports `false` and sends nothing.
     */
    method PlaySelectedItemRemotely(time: Option<Time>) returns (ok: bool)
      modifies this`trace
      ensures ok <==> HasConnectionEstablished()
      ensures ok ==> trace == old(trace) + Issue(RemoteClientOf(currentSession), PlayCommand(time)) + [Completion(true)]
      ensures !ok ==> trace == old(trace) + [Completion(false)]
      ensures Commands(trace) == Commands(old(trace)) + (if RemoteClientOf(currentSession).Some? then [PlayCommand(time)] else [])
      ensures Deliveries(trace) == Deliveries(old(trace))
      ensures RemoteClientOf(currentSession).Some? ==>
                forall p :: Replay(Commands(trace), p)
                            == RemotePlayback(if time.Some? then time.value else Replay(Commands(old(trace)), p).position, true)
    {
      if currentSession.Some? {
        var remoteClient := currentSession.value.remoteMediaClient;
        if time.Some? {
          trace := trace + Issue(remoteClient, Seek(time.value, ResumePlay));
        } else {
          trace := trace + Issue(remoteClient, Play);
        }
        ok := true;
        trace := trace + [Completion(ok)];
        ProjectionsOfAppend(old(trace), Issue(remoteClient, PlayCommand(time)));
        ProjectionsOfAppend(old(trace) + Issue(remoteClient, PlayCommand(time)), [Completion(true)]);
        OtherEventsProjectToNothing(Completion(true));
        assert remoteClient.Some? ==> Commands(trace) == Commands(old(trace)) + [PlayCommand(time)];
        PlayReplay(Commands(old(trace)), time);
      } else {
        ok := false;
        trace := trace + [Completion(ok)];
        ProjectionsOfAppend(old(trace), [Completion(false)]);
        OtherEventsProjectToNothing(Completion(false));
      }
    }

    /**
     `pauseSelectedItemRemotely`: with a current session, asks its remote media
     client (if it has one) to pause, at `time` when one is given, and reports
     `true`; without a session reports `false` and sends nothing.
     */
    method PauseSelectedItemRemotely(time: Option<Time>) returns (ok: bool)
      modifies this`trace
      ensures ok <==> HasConnectionEstablished()
      ensures ok ==> trace == old(trace) + Issue(RemoteClientOf(currentSession), PauseCommand(time)) + [Completion(true)]
      ensures !ok ==> trace == old(trace) + [Completion(false)]
      ensures Commands(trace) == Commands(old(trace)) + (if RemoteClientOf(currentSession).Some? then [PauseCommand(time)] else [])
      ensures Deliveries(trace) == Deliveries(old(trace))
      ensures RemoteClientOf(currentSession).Some? ==>
                forall p :: Replay(Commands(trace), p)
                            == RemotePlayback(if time.Some? then time.value else Replay(Commands(old(trace)), p).position, false)
    {
      if currentSession.Some? {
        var remoteClient := currentSession.value.remoteMediaClient;
        if time.Some? {
          trace := trace + Issue(remoteClient, Seek(time.value, ResumePause));
        } else {
          trace := trace + Issue(remoteClient, Pause);
        }
        ok := true;
        trace := trace + [Completion(ok)];
        ProjectionsOfAppend(old(trace), Issue(remoteClient, PauseCommand(time)));
        ProjectionsOfAppend(old(trace) + Issue(remoteClient, PauseCommand(time)), [Completion(true)]);
        OtherEventsProjectToNothing(Completion(true));
        assert remoteClient.Some? ==> Commands(trace) == Commands(old(trace)) + [PauseCommand(time)];
        PauseReplay(Commands(old(trace)), time);
      } else {
        ok := false;
        trace := trace + [Completion(ok)];
        ProjectionsOfAppend(old(trace), [Completion(false)]);
        OtherEventsProjectToNothing(Completion(false));
      }
    }

    // ------------------------------------------------------------ queries

    /**
     `getCurrentPlaybackTime`: the value its completion receives. It is `nil`
     whenever there is no current session, and also when the session has no
     remote media client; otherwise the client's approximate stream position.
     */
    method GetCurrentPlaybackTime() returns (time: Option<Time>)
      ensures !HasConnectionEstablished() ==> time.None?
      ensures time.Some? <==> RemoteClientOf(currentSession).Some?
      ensures time.Some? ==> time.value == RemoteClientOf(currentSession).value.approximateStreamPosition
    {
      if currentSession.Some? {
        var remoteClient := currentSession.value.remoteMediaClient;
        time := if remoteClient.Some? then Some(remoteClient.value.approximateStreamPosition) else None;
      } else {
        time := None;
      }
    }

    /**
     `getMediaPlayerState`: the values its completion receives, in call order.
     The last is always `unknown`; when session, remote media client and media
     status all exist, the real player state is delivered first, so the
     completion runs twice.
     */
    method GetMediaPlayerState() returns (delivered: seq<PlayerState>)
      ensures 1 <= |delivered| <= 2
      ensures delivered[|delivered| - 1] == PlayerState.Unknown
      ensures |delivered| == 2 <==> RemoteClientOf(currentSession).Some? && RemoteClientOf(currentSession).value.mediaStatus.Some?
      ensures |delivered| == 2 ==> delivered[0] == RemoteClientOf(currentSession).value.mediaStatus.value.playerState
    {
      delivered := [];
      if currentSession.Some? && currentSession.value.remoteMediaClient.Some?
        && currentSession.value.remoteMediaClient.value.mediaStatus.Some?
      {
        delivered := delivered + [currentSession.value.remoteMediaClient.value.mediaStatus.value.playerState];
      }
      delivered := delivered + [PlayerState.Unknown];
    }

    // ------------------------------------------------------------ media information

    /** `getMediaInfo`: the media information last stored. */
    function GetMediaInfo(): (info: Option<MediaInformation>)
      reads this
      ensures info == gckMediaInformation
    {
      gckMediaInformation
    }

    /** `setMediaInfo(with:)`: stores the media information, replacing what was there. */
    method SetMediaInfo(info: Option<MediaInformation>)
      modifies this`gckMediaInformation
      ensures GetMediaInfo() == info
    {
      gckMediaInformation := info;
    }

    /**
     `buildMetadata`: movie metadata with the title, the description and, as the
     studio, the connected device's friendly name when there is a current
     session and its device has one, else `studio`; one 480x360 thumbnail when `thumbnailUrl` is given
     and parses as a URL (`parseUrl` stands for `URL(string:)`).
     */
    method BuildMetadata(title: string, description: string, studio: string, thumbnailUrl: Option<string>,
                         parseUrl: string -> Option<string>)
      returns (metadata: MediaMetadata)
      ensures MovieMetadata(metadata, title, description, StudioLabel(currentSession, studio), ParsedThumbnail(thumbnailUrl, parseUrl))
      ensures metadata.strings[MetadataKeyStudio]
              == if currentSession.Some? && currentSession.value.device.friendlyName.Some?
                 then currentSession.value.device.friendlyName.value else studio
      ensures |metadata.images| <= 1 && (metadata.images != [] ==> thumbnailUrl.Some?)
    {
      metadata := MediaMetadata(Movie, map[], []);
      metadata := metadata.(strings := metadata.strings[MetadataKeyTitle := title]);
      metadata := metadata.(strings := metadata.strings[MetadataKeyDescription := description]);
      var deviceName := studio;
      if currentSession.Some? && currentSession.value.device.friendlyName.Some? {
        deviceName := currentSession.value.device.friendlyName.value;
      }
      metadata := metadata.(strings := metadata.strings[MetadataKeyStudio := deviceName]);
      if thumbnailUrl.Some? {
        var url := parseUrl(thumbnailUrl.value);
        if url.Some? {
          metadata := metadata.(images := metadata.images + [Image(url.value, ThumbnailWidth, ThumbnailHeight)]);
        }
      }
    }

    /**
     `buildMediaInformation`: the content ID, stream type and duration exactly
     as passed, an empty content type, the metadata of `BuildMetadata`, and no
     custom data: the `movieUrl` and `customData` arguments are not used.
     */
    method BuildMediaInformation(contentID: string, title: string, description: string, studio: string,
                                 duration: Time, movieUrl: string, streamType: StreamType,
                                 thumbnailUrl: Option<string>, customData: Option<CustomData>,
                                 parseUrl: string -> Option<string>)
      returns (info: MediaInformation)
      ensures info.contentID == contentID && info.streamType == streamType && info.streamDuration == duration
      ensures info.contentType == "" && info.customData == None
      ensures MovieMetadata(info.metadata, title, description, StudioLabel(currentSession, studio), ParsedThumbnail(thumbnailUrl, parseUrl))
    {
      var metadata := BuildMetadata(title, description, studio, thumbnailUrl, parseUrl);
      info := MediaInformation(contentID, streamType, "", metadata, duration, None);
    }

    /**
     The remote media client's status update: the media-status delegate, if
     any, is given the status's media information, which is then stored, so
     that `GetMediaInfo` returns it; a missing status stores `nil`.
     */
    method DidUpdateMediaStatus(mediaStatus: Option<MediaStatus>)
      modifies this`gckMediaInformation, this`trace
      ensures GetMediaInfo() == (if mediaStatus.Some? then mediaStatus.value.mediaInformation else None)
      ensures didUpdateMediaStatusDelegate.Some? ==>
        trace == old(trace) + [MediaStatusDelivered(didUpdateMediaStatusDelegate.value, GetMediaInfo())]
      ensures didUpdateMediaStatusDelegate.None? ==> trace == old(trace)
    {
      var info := if mediaStatus.Some? then mediaStatus.value.mediaInformation else None;
      if didUpdateMediaStatusDelegate.Some? {
        trace := trace + [MediaStatusDelivered(didUpdateMediaStatusDelegate.value, info)];
      }
      SetMediaInfo(info);
    }
  }

  /**
   A client of the manager: only the last registered listener is called, once,
   when the session starts.
   */
  method ListenerReplacementScenario(first: Listener, second: Listener, session: Session)
  {
    var m := new CastManager();
    m.AddSessionStatusListener(first);
    m.AddSessionStatusListener(second);
    m.currentSession := Some(session);
    assert Deliveries(m.trace) == [] && Commands(m.trace) == [];
    m.DidStart(session);
    assert Delivered(Some(second), Started) == [(second, Started)];
    assert Deliveries(m.trace) == [(second, Started)];
    assert Commands(m.trace) == [];
    assert m.mediaListenerAdded == session.remoteMediaClient.Some?;
  }

  /**
   A client of the manager: with a session that has a remote media client, an
   item is loaded at 42 seconds and the receiver plays from there. The SDK then
   drops its current session (the client clears `currentSession`; the suspend
   callback itself leaves the session alone) and reports a suspend because the
   app terminates. The listener hears `ended`, and a play request reports
   `false` and sends nothing.
   */
  method LoadThenSuspendScenario(m: CastManager, info: MediaInformation, session: Session, listener: Listener)
    requires session.remoteMediaClient.Some?
    requires m.currentSession == Some(session) && m.sessionStatusListener == Some(listener)
    modifies m
  {
    ghost var start := m.trace;
    var ok := m.StartSelectedItemRemotely(info, 42.0);
    assert ok && m.sessionStatus == Some(AlreadyConnected);
    assert Commands(m.trace) == Commands(start) + [LoadMedia(info, 42.0)];
    assert forall p :: Replay(Commands(m.trace), p) == RemotePlayback(42.0, true);

    m.currentSession := None;
    ghost var loaded := m.trace;
    m.DidSuspend(session, AppTerminated);
    assert m.sessionStatus == Some(Ended);
    assert Delivered(Some(listener), Ended) == [(listener, Ended)];
    assert Deliveries(m.trace) == Deliveries(loaded) + [(listener, Ended)];

    ghost var suspended := m.trace;
    ok := m.PlaySelectedItemRemotely(Some(42.0));
    assert !ok && Commands(m.trace) == Commands(suspended);
    var position := m.GetCurrentPlaybackTime();
    assert position == None;
  }

  /** A client of the manager: a connect while discovery sees no device and a session is connected does nothing. */
  method RedundantConnectScenario(m: CastManager, d: Device)
    requires m.discoveredCount == 0 && m.hasConnectedSession
    modifies m
  {
    ghost var start := m.trace;
    m.ConnectToDevice(d);
    assert m.trace == start;
  }
}
