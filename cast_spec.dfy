/**
 Specification functions for the cast manager: the device-list update on a
 removal, the projections of the event trace onto remote commands, listener
 calls and delegate reloads, the events one assignment of the session status
 produces, the command a play or pause request becomes, and what each remote
 command does to the receiver's playback.
 */
module CastSpec {
  import opened Wrappers
  import opened CastTypes

  // ---------------------------------------------------------------- device list

  /** The list with the entry at `i` deleted (`Array.remove(at:)`). */
  function RemovedAt(s: seq<Device>, i: nat): (r: seq<Device>)
    requires i < |s|
    ensures |r| == |s| - 1
    ensures forall j :: 0 <= j < i ==> r[j] == s[j]
    ensures forall j :: i <= j < |r| ==> r[j] == s[j + 1]
  {
    s[..i] + s[i + 1..]
  }

  /** Removing at `i` deletes exactly the entry at `i`: one occurrence of it, nothing else. */
  lemma RemovedAtDeletesOneEntry(s: seq<Device>, i: nat)
    requires i < |s|
    ensures multiset(RemovedAt(s, i)) == multiset(s) - multiset{s[i]}
  {
    assert s == s[..i] + [s[i]] + s[i + 1..];
    assert multiset(s) == multiset(s[..i]) + multiset{s[i]} + multiset(s[i + 1..]);
  }

  /** An insert (an append) followed by the removal at the new entry's index restores the list. */
  lemma InsertThenRemoveRestores(s: seq<Device>, d: Device)
    ensures RemovedAt(s + [d], |s|) == s
  {
  }

  // ---------------------------------------------------------------- trace projections

  /** The value `pick` extracts from one event, as a sequence of length at most one. */
  function Picked<T>(e: Event, pick: Event -> Option<T>): seq<T> {
    if pick(e).Some? then [pick(e).value] else []
  }

  /** The values `pick` extracts from the events of `trace`, in order. */
  function Project<T>(trace: seq<Event>, pick: Event -> Option<T>): (r: seq<T>)
    ensures |r| <= |trace|
  {
    if trace == [] then [] else Picked(trace[0], pick) + Project(trace[1..], pick)
  }

  /** Projection distributes over concatenation of traces. */
  lemma {:induction false} ProjectAppend<T>(a: seq<Event>, b: seq<Event>, pick: Event -> Option<T>)
    ensures Project(a + b, pick) == Project(a, pick) + Project(b, pick)
  {
    if a == [] {
      assert a + b == b;
    } else {
      var ab := a + b;
      assert ab[0] == a[0];
      assert ab[1..] == a[1..] + b;
      ProjectAppend(a[1..], b, pick);
      calc {
        Project(ab, pick);
        Picked(a[0], pick) + Project(a[1..] + b, pick);
        Picked(a[0], pick) + (Project(a[1..], pick) + Project(b, pick));
        (Picked(a[0], pick) + Project(a[1..], pick)) + Project(b, pick);
      }
    }
  }

  function CommandOf(e: Event): Option<RemoteCommand> {
    if e.Command? then Some(e.command) else None
  }

  function DeliveryOf(e: Event): Option<(Listener, CastSessionStatus)> {
    if e.StatusDelivered? then Some((e.listener, e.status)) else None
  }

  function ReloadOf(e: Event): Option<Delegate> {
    if e.DeviceListReloaded? then Some(e.delegate) else None
  }

  /** The media commands sent to remote media clients, in order. */
  function Commands(trace: seq<Event>): seq<RemoteCommand> {
    Project(trace, CommandOf)
  }

  /** The calls of the session-status listener, in order: who was called, with which status. */
  function Deliveries(trace: seq<Event>): seq<(Listener, CastSessionStatus)> {
    Project(trace, DeliveryOf)
  }

  /** The device-list reloads delivered to the device delegate, in order. */
  function Reloads(trace: seq<Event>): seq<Delegate> {
    Project(trace, ReloadOf)
  }

  // ---------------------------------------------------------------- optional chaining

  /** `currentCastSession?.remoteMediaClient`. */
  function RemoteClientOf(session: Option<Session>): Option<RemoteClient> {
    if session.Some? then session.value.remoteMediaClient else None
  }

  /** `remoteClient?.<cmd>`: the command goes out only when there is a client. */
  function Issue(client: Option<RemoteClient>, cmd: RemoteCommand): (r: seq<Event>)
    ensures Commands(r) == if client.Some? then [cmd] else []
    ensures Deliveries(r) == [] && Reloads(r) == []
  {
    if client.Some? then [Command(cmd)] else []
  }

  /** `sessionManager.currentCastSession?.device.friendlyName ?? studio`. */
  function StudioLabel(session: Option<Session>, studio: string): string {
    if session.Some? && session.value.device.friendlyName.Some? then session.value.device.friendlyName.value else studio
  }

  // ---------------------------------------------------------------- listener dispatch

  /** The listener calls one status assignment makes: one with the new value, or none without a listener. */
  function Delivered(listener: Option<Listener>, status: CastSessionStatus): seq<(Listener, CastSessionStatus)> {
    if listener.Some? then [(listener.value, status)] else []
  }

  /**
   What one assignment to the observed status field sends out: one call of the
   registered listener with the new value, or nothing when none is registered.
   */
  function Dispatch(listener: Option<Listener>, status: CastSessionStatus): (r: seq<Event>)
    ensures Deliveries(r) == Delivered(listener, status)
    ensures Commands(r) == [] && Reloads(r) == []
  {
    if listener.Some? then [StatusDelivered(listener.value, status)] else []
  }

  /** What `availableDeviceDelegate?.reloadAvailableDeviceData()` sends out. */
  function Reload(delegate: Option<Delegate>): (r: seq<Event>)
    ensures Reloads(r) == if delegate.Some? then [delegate.value] else []
    ensures Commands(r) == [] && Deliveries(r) == []
  {
    if delegate.Some? then [DeviceListReloaded(delegate.value)] else []
  }

  /** Appending events adds exactly their commands, listener calls and reloads to the projections. */
  lemma ProjectionsOfAppend(t: seq<Event>, e: seq<Event>)
    ensures Commands(t + e) == Commands(t) + Commands(e)
    ensures Deliveries(t + e) == Deliveries(t) + Deliveries(e)
    ensures Reloads(t + e) == Reloads(t) + Reloads(e)
  {
    ProjectAppend(t, e, CommandOf);
    ProjectAppend(t, e, DeliveryOf);
    ProjectAppend(t, e, ReloadOf);
  }

  /** Session requests, listener registrations and completions are none of commands, listener calls or reloads. */
  lemma OtherEventsProjectToNothing(e: Event)
    requires e.SessionCall? || e.MediaListenerChange? || e.Completion? || e.MediaStatusDelivered?
    ensures Commands([e]) == [] && Deliveries([e]) == [] && Reloads([e]) == []
  {
  }

  // ---------------------------------------------------------------- remote commands

  /** A play request: a seek that resumes playing when a time is given, a plain play otherwise. */
  function PlayCommand(time: Option<Time>): RemoteCommand {
    if time.Some? then Seek(time.value, ResumePlay) else Play
  }

  /** A pause request: a seek that leaves the receiver paused when a time is given, a plain pause otherwise. */
  function PauseCommand(time: Option<Time>): RemoteCommand {
    if time.Some? then Seek(time.value, ResumePause) else Pause
  }

  /** The receiver's playback as the commands affect it: the stream position and whether it plays. */
  datatype RemotePlayback = RemotePlayback(position: Time, playing: bool)

  /**
   What a remote command does to the receiver's playback. A load starts the new
   item at its play position (loads autoplay by default); a seek moves the
   position and then applies its resume state.
   */
  function Apply(cmd: RemoteCommand, p: RemotePlayback): RemotePlayback {
    match cmd
    case LoadMedia(_, t) => RemotePlayback(t, true)
    case Seek(t, ResumePlay) => RemotePlayback(t, true)
    case Seek(t, ResumePause) => RemotePlayback(t, false)
    case Seek(t, Unchanged) => RemotePlayback(t, p.playing)
    case Play => RemotePlayback(p.position, true)
    case Pause => RemotePlayback(p.position, false)
  }

  /**
   The playback `cmds` put the receiver in, carried out in order from `p`. All
   commands go to one receiver, and only commands move its position: playing
   time between commands and a change of session are not seen.
   */
  function Replay(cmds: seq<RemoteCommand>, p: RemotePlayback): RemotePlayback {
    if cmds == [] then p else Replay(cmds[1..], Apply(cmds[0], p))
  }

  /** Carrying out `a` and then `b` is carrying out `a + b`. */
  lemma {:induction false} ReplayAppend(a: seq<RemoteCommand>, b: seq<RemoteCommand>, p: RemotePlayback)
    ensures Replay(a + b, p) == Replay(b, Replay(a, p))
  {
    if a == [] {
      assert a + b == b;
    } else {
      var ab := a + b;
      assert ab[0] == a[0];
      assert ab[1..] == a[1..] + b;
      ReplayAppend(a[1..], b, Apply(a[0], p));
    }
  }

  /** Sending one more command leaves the receiver where that command takes it from where it was. */
  lemma ReplayLast(cmds: seq<RemoteCommand>, cmd: RemoteCommand, p: RemotePlayback)
    ensures Replay(cmds + [cmd], p) == Apply(cmd, Replay(cmds, p))
  {
    ReplayAppend(cmds, [cmd], p);
  }

  /** After a load at `time`, the receiver plays from `time`, whatever commands came before. */
  lemma LoadReplay(cmds: seq<RemoteCommand>, info: MediaInformation, time: Time)
    ensures forall p :: Replay(cmds + [LoadMedia(info, time)], p) == RemotePlayback(time, true)
  {
    forall p ensures Replay(cmds + [LoadMedia(info, time)], p) == RemotePlayback(time, true) {
      ReplayLast(cmds, LoadMedia(info, time), p);
    }
  }

  /** After a play request, the receiver plays from the given time, or from where the earlier commands left it. */
  lemma PlayReplay(cmds: seq<RemoteCommand>, time: Option<Time>)
    ensures forall p :: Replay(cmds + [PlayCommand(time)], p)
                        == RemotePlayback(if time.Some? then time.value else Replay(cmds, p).position, true)
  {
    forall p ensures Replay(cmds + [PlayCommand(time)], p)
                     == RemotePlayback(if time.Some? then time.value else Replay(cmds, p).position, true) {
      ReplayLast(cmds, PlayCommand(time), p);
    }
  }

  /** After a pause request, the receiver is paused at the given time, or where the earlier commands left it. */
  lemma PauseReplay(cmds: seq<RemoteCommand>, time: Option<Time>)
    ensures forall p :: Replay(cmds + [PauseCommand(time)], p)
                        == RemotePlayback(if time.Some? then time.value else Replay(cmds, p).position, false)
  {
    forall p ensures Replay(cmds + [PauseCommand(time)], p)
                     == RemotePlayback(if time.Some? then time.value else Replay(cmds, p).position, false) {
      ReplayLast(cmds, PauseCommand(time), p);
    }
  }

  // ---------------------------------------------------------------- media metadata

  /** `URL(string:)` applied to an optional thumbnail string. */
  function ParsedThumbnail(thumbnailUrl: Option<string>, parseUrl: string -> Option<string>): Option<string> {
    if thumbnailUrl.Some? then parseUrl(thumbnailUrl.value) else None
  }

  /**
   Movie metadata holding exactly the title, description and studio strings,
   and one thumbnail image exactly when a thumbnail URL parsed.
   */
  predicate MovieMetadata(md: MediaMetadata, title: string, description: string, studio: string, thumbnail: Option<string>)
  {
    && md.metadataType == Movie
    && md.strings == map[MetadataKeyTitle := title, MetadataKeyDescription := description, MetadataKeyStudio := studio]
    && md.images == if thumbnail.Some? then [Image(thumbnail.value, ThumbnailWidth, ThumbnailHeight)] else []
  }
}
