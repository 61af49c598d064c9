/**
 The values that cross the boundary between the cast manager and the cast SDK
 (devices, sessions, the remote media client and its status, media
 descriptions), the status enumeration the manager publishes, and the events
 the manager sends to the world outside it.
 */
module CastTypes {
  import opened Wrappers

  /** A playback time in seconds (`TimeInterval`); it is only passed on, never computed with. */
  type Time = real

  /** `CastSessionStatus`: what the session-status listener is told. */
  datatype CastSessionStatus = Started | Resumed | Ended | FailedToStart | AlreadyConnected

  /** A receiver device as the discovery manager reports it; the SDK may not know its friendly name. */
  datatype Device = Device(deviceID: string, friendlyName: Option<string>)

  /** `GCKMediaPlayerState` */
  datatype PlayerState = Unknown | Idle | Playing | Paused | Buffering | Loading

  /** `GCKMediaStreamType` */
  datatype StreamType = StreamNone | Buffered | Live | StreamUnknown

  /** `GCKMediaResumeState`: what the receiver does once a seek completes. */
  datatype ResumeState = Unchanged | ResumePlay | ResumePause

  /** `GCKConnectionSuspendReason` */
  datatype SuspendReason = NoReason | AppBackgrounded | NetworkError | NetworkNotReachable | AppTerminated

  /** The error an SDK session callback carries; the manager never looks into it. */
  datatype SessionError = SessionError(code: int)

  /** `GCKMediaMetadataType` */
  datatype MetadataType = Generic | Movie | TvShow | MusicTrack | Photo

  /** `GCKImage`: a thumbnail at a URL, with its nominal size. */
  datatype Image = Image(url: string, width: nat, height: nat)

  /** `GCKMediaMetadata`: string values by key, plus the images added in order. */
  datatype MediaMetadata = MediaMetadata(metadataType: MetadataType, strings: map<string, string>, images: seq<Image>)

  /** Caller-supplied custom data (`Any?` in the source); opaque here. */
  datatype CustomData = CustomData(json: string)

  /**
   `GCKMediaInformation` as the manager builds it. The ad breaks, ad break clips,
   media tracks and text track style that the builder sets to nil are not fields here.
   */
  datatype MediaInformation = MediaInformation(
    contentID: string,
    streamType: StreamType,
    contentType: string,
    metadata: MediaMetadata,
    streamDuration: Time,
    customData: Option<CustomData>)

  /** `GCKMediaStatus`: the part of it the manager reads. */
  datatype MediaStatus = MediaStatus(playerState: PlayerState, mediaInformation: Option<MediaInformation>)

  /** `GCKRemoteMediaClient`: the part of its state the manager reads. */
  datatype RemoteClient = RemoteClient(approximateStreamPosition: Time, mediaStatus: Option<MediaStatus>)

  /** `GCKCastSession`: the connected device and, once media control is available, its remote media client. */
  datatype Session = Session(device: Device, remoteMediaClient: Option<RemoteClient>)

  /** The identity of a session-status listener closure. */
  datatype Listener = Listener(id: nat)

  /** The identity of a (weakly held) delegate object. */
  datatype Delegate = Delegate(id: nat)

  /** Requests to the SDK's session manager. */
  datatype SessionRequest = StartSession(device: Device) | EndSession

  /** Media commands to the current session's remote media client. */
  datatype RemoteCommand =
    | LoadMedia(info: MediaInformation, playPosition: Time)
    | Seek(interval: Time, resumeState: ResumeState)
    | Play
    | Pause

  /** One thing the manager does to the world outside it, in the order it happens. */
  datatype Event =
    | SessionCall(request: SessionRequest)                               // to the session manager
    | MediaListenerChange(added: bool)                                   // add(self) / remove(self) on the remote media client
    | Command(command: RemoteCommand)                                    // to the remote media client
    | Completion(ok: bool)                                               // a command's completion closure is called
    | StatusDelivered(listener: Listener, status: CastSessionStatus)     // the session-status listener is called
    | DeviceListReloaded(delegate: Delegate)                             // reloadAvailableDeviceData()
    | MediaStatusDelivered(delegate: Delegate, info: Option<MediaInformation>) // gckDidUpdateMediaStatus(mediaInfo:)

  /** The SDK's metadata key for the title (`kGCKMetadataKeyTitle`). */
  const MetadataKeyTitle := "com.google.cast.metadata.TITLE"
  /** The SDK's metadata key for the studio (`kGCKMetadataKeyStudio`). */
  const MetadataKeyStudio := "com.google.cast.metadata.STUDIO"
  /** The plain key the manager stores the description under. */
  const MetadataKeyDescription := "description"

  /** The size given to the thumbnail image. */
  const ThumbnailWidth: nat := 480
  const ThumbnailHeight: nat := 360
}
