/**
 * The decision the notification relay takes for one incoming notification:
 * resolve the weakly held controller, validate the payload, and either drop
 * the notification (with or without a log line) or forward it — straight to
 * the controller for plain kinds, or as one unit of work on the browser's
 * callback executor for browsing kinds.
 */
module Relay {
  import opened Wrappers
  import opened MediaTypes
  import opened ParcelLists

  /**
   * The controller implementation the relay forwards to. `isBrowser` says
   * whether its public instance (getInstance()) is a media browser, which
   * also owns a callback executor and a browser callback.
   */
  datatype Controller = Controller(id: nat, isBrowser: bool)

  /** Outcome of a private resolver that may throw IllegalStateException. */
  datatype Resolved<T> = Threw | Returned(value: T)

  /** What a notification carries on connection. */
  datatype Connection = Connection(
    sessionBinder: SessionBinder,
    commandGroup: Parcel<CommandGroup>,
    playerState: int,
    currentItem: Parcel<MediaItem>,
    positionEventTimeMs: int,
    positionMs: int,
    playbackSpeed: Speed,
    bufferedPositionMs: int,
    playbackInfo: Parcel<PlaybackInfo>,
    shuffleMode: int,
    repeatMode: int,
    playlistParcel: Option<seq<Parcel<MediaItem>>>,
    sessionActivity: PendingIntent)

  /** One incoming remote call, with its raw arguments; null Java references are `None`. */
  datatype Notification =
    | CurrentMediaItemChanged(item: Parcel<MediaItem>)
    | PlayerStateChanged(eventTimeMs: int, positionMs: int, state: int)
    | PlaybackSpeedChanged(eventTimeMs: int, positionMs: int, speed: Speed)
    | BufferingStateChanged(item: Parcel<MediaItem>, buffState: int, bufferedPositionMs: int)
    | PlaylistChanged(parcelList: Option<seq<Parcel<MediaItem>>>, metadataBundle: Bundle)
    | PlaylistMetadataChanged(metadataBundle: Bundle)
    | RepeatModeChanged(repeatMode: int)
    | ShuffleModeChanged(shuffleMode: int)
    | PlaybackInfoChanged(playbackInfo: Parcel<PlaybackInfo>)
    | SeekCompleted(eventTimeMs: int, positionMs: int, seekPositionMs: int)
    | ErrorOccurred(errorCode: int, extras: Bundle)
    | RoutesInfoChanged(routes: Option<seq<Bundle>>)
    | Connected(connection: Connection)
    | Disconnected
    | CustomLayoutChanged(commandButtonList: Option<seq<Parcel<CommandButton>>>)
    | AllowedCommandsChanged(commands: Parcel<CommandGroup>)
    | CustomCommand(commandParcel: Parcel<SessionCommand>, args: Bundle, receiver: ResultReceiver)
    // browsing kinds
    | GetLibraryRootDone(rootHints: Bundle, rootMediaId: Option<string>, rootExtra: Bundle)
    | GetItemDone(mediaId: Option<string>, itemParcel: Parcel<MediaItem>)
    | GetChildrenDone(parentId: Option<string>, page: int, pageSize: int,
                      itemList: Option<seq<Parcel<MediaItem>>>, extras: Bundle)
    | SearchResultChanged(query: Option<string>, itemCount: int, extras: Bundle)
    | GetSearchResultDone(query: Option<string>, page: int, pageSize: int,
                          itemList: Option<seq<Parcel<MediaItem>>>, extras: Bundle)
    | ChildrenChanged(parentId: Option<string>, itemCount: int, extras: Bundle)
  {
    /** The kinds meant for a media browser, delivered through its callback executor. */
    predicate IsBrowsing()
    {
      GetLibraryRootDone? || GetItemDone? || GetChildrenDone? ||
      SearchResultChanged? || GetSearchResultDone? || ChildrenChanged?
    }

    /** The two kinds that read the weak reference directly instead of through getController(). */
    predicate IsLifecycle()
    {
      Connected? || Disconnected?
    }
  }

  /** A call made on the controller (or, for CloseInstance, on its public instance). */
  datatype Call =
    | NotifyCurrentMediaItemChanged(item: Option<MediaItem>)
    | NotifyPlayerStateChanges(eventTimeMs: int, positionMs: int, state: int)
    | NotifyPlaybackSpeedChanges(eventTimeMs: int, positionMs: int, speed: Speed)
    | NotifyBufferingStateChanged(item: Option<MediaItem>, buffState: int, bufferedPositionMs: int)
    | NotifyPlaylistChanges(playlist: seq<MediaItem>, metadata: Metadata)
    | NotifyPlaylistMetadataChanges(metadata: Metadata)
    | NotifyRepeatModeChanges(repeatMode: int)
    | NotifyShuffleModeChanges(shuffleMode: int)
    | NotifyPlaybackInfoChanges(info: PlaybackInfo)
    | NotifySeekCompleted(eventTimeMs: int, positionMs: int, seekPositionMs: int)
    | NotifyError(errorCode: int, extras: Bundle)
    | NotifyRoutesInfoChanged(routes: Option<seq<Bundle>>)
    | ConnectedNotLocked(
        sessionBinder: SessionBinder,
        allowedCommands: Option<CommandGroup>,
        playerState: int,
        currentItem: Option<MediaItem>,
        positionEventTimeMs: int,
        positionMs: int,
        playbackSpeed: Speed,
        bufferedPositionMs: int,
        playbackInfo: Option<PlaybackInfo>,
        repeatMode: int,
        shuffleMode: int,
        itemList: Option<seq<MediaItem>>,
        sessionActivity: PendingIntent)
    | CloseInstance
    | CustomLayoutUpdate(layout: seq<CommandButton>)
    | AllowedCommandsUpdate(commandGroup: CommandGroup)
    | CustomCommandCall(command: SessionCommand, args: Bundle, receiver: ResultReceiver)

  datatype Invocation = Invocation(target: Controller, call: Call)

  /**
   * The body of a Runnable handed to the browser's callback executor: the
   * browser-callback method it will call and the arguments it captured. The
   * item lists are captured raw; their conversion happens inside the work.
   */
  datatype Work =
    | LibraryRootCallback(rootHints: Bundle, rootMediaId: Option<string>, rootExtra: Bundle)
    | ItemCallback(mediaId: string, itemParcel: Parcel<MediaItem>)
    | ChildrenCallback(parentId: string, page: int, pageSize: int,
                       itemList: Option<seq<Parcel<MediaItem>>>, extras: Bundle)
    | SearchResultChangedCallback(query: string, itemCount: int, extras: Bundle)
    | SearchResultCallback(query: string, page: int, pageSize: int,
                           itemList: Option<seq<Parcel<MediaItem>>>, extras: Bundle)
    | ChildrenChangedCallback(parentId: string, itemCount: int, extras: Bundle)

  /** One unit of work submitted to the executor of `browser`. */
  datatype Submission = Submission(browser: Controller, work: Work)

  datatype Warning =
    | ReleasedLikelyBug            // "Don't fail silently here. Highly likely a bug"
    | NullPlaylist
    | NullPlaylistItem
    | NullPlaybackInfo
    | NullCommandButtonList
    | NullCommands
    | NullCommand
    | NullMediaId
    | NullChildrenParentId         // onGetChildrenDone
    | EmptySearchResultQuery       // onSearchResultChanged
    | EmptySearchDoneQuery         // onGetSearchResultDone
    | NullChangedParentId          // onChildrenChanged

  datatype DebugTrace = PlaybackInfoChangedTrace | ConnectedAfterClose | DisconnectedAfterClose

  datatype LogLine = Warn(warning: Warning) | Debug(trace: DebugTrace)

  /** Everything observable that one or more notifications cause, each kind in order. */
  datatype Effect = Effect(calls: seq<Invocation>, work: seq<Submission>, log: seq<LogLine>)
  {
    function Then(next: Effect): Effect
    {
      Effect(calls + next.calls, work + next.work, log + next.log)
    }

    /** Something reached the controller, directly or through its executor. */
    predicate Delivers()
    {
      calls != [] || work != []
    }
  }

  const NoEffect := Effect([], [], [])

  function Logged(line: LogLine): Effect
  {
    Effect([], [], [line])
  }

  function Invoked(c: Controller, call: Call): Effect
  {
    Effect([Invocation(c, call)], [], [])
  }

  function Repeat<X>(x: X, n: nat): (r: seq<X>)
    ensures |r| == n && forall i :: 0 <= i < n ==> r[i] == x
  {
    seq(n, _ => x)
  }

  /**
   * getController(): the live controller, or a throw once the weak reference
   * is cleared. It never yields null, which is why the null checks after it
   * (in onCustomLayoutChanged and onAllowedCommandsChanged) cannot fire.
   */
  function GetController(referent: Option<Controller>): (r: Resolved<Controller>)
    ensures r.Threw? <==> referent.None?
    ensures r.Returned? ==> referent == Some(r.value)
  {
    match referent
    case None => Threw
    case Some(c) => Returned(c)
  }

  /**
   * getBrowser(): throws when released, otherwise the controller when its
   * instance is a browser and null (`None`) when it is not.
   */
  function GetBrowser(referent: Option<Controller>): (r: Resolved<Option<Controller>>)
    ensures r.Threw? <==> referent.None?
    ensures r == Returned(None) <==> referent.Some? && !referent.value.isBrowser
    ensures r.Returned? && r.value.Some? ==> r.value == referent && r.value.value.isBrowser
  {
    match GetController(referent)
    case Threw => Threw
    case Returned(c) => if c.isBrowser then Returned(Some(c)) else Returned(None)
  }

  /** The payload checks a handler makes before it even resolves the controller. */
  function EarlyRejection(n: Notification): Option<Warning>
  {
    match n
    case CustomLayoutChanged(None) => Some(NullCommandButtonList)
    case GetItemDone(None, _) => Some(NullMediaId)
    case GetChildrenDone(None, _, _, _, _) => Some(NullChildrenParentId)
    case SearchResultChanged(q, _, _) => if IsEmpty(q) then Some(EmptySearchResultQuery) else None
    case GetSearchResultDone(q, _, _, _, _) => if IsEmpty(q) then Some(EmptySearchDoneQuery) else None
    case ChildrenChanged(None, _, _) => Some(NullChangedParentId)
    case _ => None
  }

  /** The controller call a connection notification turns into. */
  function ConnectedCall(k: Connection): Call
  {
    ConnectedNotLocked(
      k.sessionBinder, Decode(k.commandGroup), k.playerState, Decode(k.currentItem),
      k.positionEventTimeMs, k.positionMs, k.playbackSpeed, k.bufferedPositionMs,
      Decode(k.playbackInfo), k.repeatMode, k.shuffleMode,
      match k.playlistParcel
      case None => None
      case Some(ps) => Some(Decoded(ps)),
      k.sessionActivity)
  }

  /** What a plain kind does once the controller `c` is resolved. */
  function Forward(c: Controller, n: Notification): Effect
    requires !n.IsBrowsing() && !n.IsLifecycle() && EarlyRejection(n).None?
  {
    match n
    case CurrentMediaItemChanged(p) => Invoked(c, NotifyCurrentMediaItemChanged(Decode(p)))
    case PlayerStateChanged(t, pos, s) => Invoked(c, NotifyPlayerStateChanges(t, pos, s))
    case PlaybackSpeedChanged(t, pos, sp) => Invoked(c, NotifyPlaybackSpeedChanges(t, pos, sp))
    case BufferingStateChanged(p, s, b) => Invoked(c, NotifyBufferingStateChanged(Decode(p), s, b))
    case PlaylistChanged(list, b) =>
      (match list
       case None => Logged(Warn(NullPlaylist))
       case Some(ps) =>
         Effect([Invocation(c, NotifyPlaylistChanges(Decoded(ps), FromBundle(b)))], [],
                Repeat(Warn(NullPlaylistItem), DropCount(ps))))
    case PlaylistMetadataChanged(b) => Invoked(c, NotifyPlaylistMetadataChanges(FromBundle(b)))
    case RepeatModeChanged(m) => Invoked(c, NotifyRepeatModeChanges(m))
    case ShuffleModeChanged(m) => Invoked(c, NotifyShuffleModeChanges(m))
    case PlaybackInfoChanged(p) =>
      (match Decode(p)
       case None => Logged(Warn(NullPlaybackInfo))
       case Some(info) => Invoked(c, NotifyPlaybackInfoChanges(info)))
    case SeekCompleted(t, pos, seekPos) => Invoked(c, NotifySeekCompleted(t, pos, seekPos))
    case ErrorOccurred(code, extras) => Invoked(c, NotifyError(code, extras))
    case RoutesInfoChanged(routes) => Invoked(c, NotifyRoutesInfoChanged(routes))
    case CustomLayoutChanged(list) => Invoked(c, CustomLayoutUpdate(Decoded(list.value)))
    case AllowedCommandsChanged(p) =>
      (match Decode(p)
       case None => Logged(Warn(NullCommands))
       case Some(group) => Invoked(c, AllowedCommandsUpdate(group)))
    case CustomCommand(p, args, receiver) =>
      (match Decode(p)
       case None => Logged(Warn(NullCommand))
       case Some(command) => Invoked(c, CustomCommandCall(command, args, receiver)))
  }

  /** The unit of work a browsing kind hands to the browser's executor. */
  function WorkFor(n: Notification): Work
    requires n.IsBrowsing() && EarlyRejection(n).None?
  {
    match n
    case GetLibraryRootDone(hints, id, extra) => LibraryRootCallback(hints, id, extra)
    case GetItemDone(id, p) => ItemCallback(id.value, p)
    case GetChildrenDone(id, page, size, list, extras) => ChildrenCallback(id.value, page, size, list, extras)
    case SearchResultChanged(q, count, extras) => SearchResultChangedCallback(q.value, count, extras)
    case GetSearchResultDone(q, page, size, list, extras) => SearchResultCallback(q.value, page, size, list, extras)
    case ChildrenChanged(id, count, extras) => ChildrenChangedCallback(id.value, count, extras)
  }

  /**
   * The relay's whole decision for notification `n` while the weak reference
   * holds `referent`: resolve, validate, then invoke or submit.
   */
  function Deliver(referent: Option<Controller>, n: Notification): Effect
  {
    if n.Connected? || n.Disconnected? then
      match referent
      case None => Logged(Debug(if n.Connected? then ConnectedAfterClose else DisconnectedAfterClose))
      case Some(c) => Invoked(c, if n.Connected? then ConnectedCall(n.connection) else CloseInstance)
    else
      var trace := if n.PlaybackInfoChanged? then Logged(Debug(PlaybackInfoChangedTrace)) else NoEffect;
      trace.Then(
        match EarlyRejection(n)
        case Some(w) => Logged(Warn(w))
        case None =>
          if n.IsBrowsing() then
            match GetBrowser(referent)
            case Threw => Logged(Warn(ReleasedLikelyBug))
            case Returned(None) => NoEffect
            case Returned(Some(b)) => Effect([], [Submission(b, WorkFor(n))], [])
          else
            match GetController(referent)
            case Threw => Logged(Warn(ReleasedLikelyBug))
            case Returned(c) => Forward(c, n))
  }

  /** A sequence of notifications delivered one after another against the same reference. */
  function DeliverAll(referent: Option<Controller>, ns: seq<Notification>): Effect
  {
    if ns == [] then NoEffect
    else Deliver(referent, ns[0]).Then(DeliverAll(referent, ns[1..]))
  }
}
