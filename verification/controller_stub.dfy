/**
 * The relay object itself: it holds the controller through a weak reference
 * and implements one handler per remote notification. Each handler is proved
 * to have exactly the effect that Relay.Deliver prescribes for the current
 * state of the reference, and none of them touches the reference.
 */
module ControllerStub {
  import opened Wrappers
  import opened MediaTypes
  import opened ParcelLists
  import opened Relay

  class MediaController2Stub {
    /** The weak reference: Some while the controller is alive, None once cleared. */
    var referent: Option<Controller>
    /** Calls made on the controller, in order. */
    var calls: seq<Invocation>
    /** Runnables handed to a browser's callback executor, in order; they are never run here. */
    var submitted: seq<Submission>
    /** Warning and debug lines written to the log, in order. */
    var log: seq<LogLine>

    function Observed(): Effect
      reads this
    {
      Effect(calls, submitted, log)
    }

    constructor (controller: Controller)
      ensures referent == Some(controller)
      ensures Observed() == NoEffect
    {
      referent := Some(controller);
      calls, submitted, log := [], [], [];
    }

    /** Clears the weak reference; the state is terminal since no other member sets it. */
    method Destroy()
      modifies this
      ensures referent == None
      ensures Observed() == old(Observed())
    {
      referent := None;
    }

    method Invoke(c: Controller, call: Call)
      modifies this
      ensures referent == old(referent)
      ensures Observed() == old(Observed()).Then(Invoked(c, call))
    {
      calls := calls + [Invocation(c, call)];
    }

    method Log(line: LogLine)
      modifies this
      ensures referent == old(referent)
      ensures Observed() == old(Observed()).Then(Logged(line))
    {
      log := log + [line];
    }

    method Submit(browser: Controller, work: Work)
      modifies this
      ensures referent == old(referent)
      ensures Observed() == old(Observed()).Then(Effect([], [Submission(browser, work)], []))
    {
      submitted := submitted + [Submission(browser, work)];
    }

    method OnCurrentMediaItemChanged(item: Parcel<MediaItem>)
      modifies this
      ensures referent == old(referent)
      ensures Observed() == old(Observed()).Then(Deliver(referent, CurrentMediaItemChanged(item)))
    {
      var r := GetController(referent);
      if r.Threw? {
        Log(Warn(ReleasedLikelyBug));
        return;
      }
      var controller := r.value;
      Invoke(controller, NotifyCurrentMediaItemChanged(Decode(item)));
    }

    method OnPlayerStateChanged(eventTimeMs: int, positionMs: int, state: int)
      modifies this
      ensures referent == old(referent)
      ensures Observed() == old(Observed()).Then(Deliver(referent, PlayerStateChanged(eventTimeMs, positionMs, state)))
    {
      var r := GetController(referent);
      if r.Threw? {
        Log(Warn(ReleasedLikelyBug));
        return;
      }
      var controller := r.value;
      Invoke(controller, NotifyPlayerStateChanges(eventTimeMs, positionMs, state));
    }

    method OnPlaybackSpeedChanged(eventTimeMs: int, positionMs: int, speed: Speed)
      modifies this
      ensures referent == old(referent)
      ensures Observed() == old(Observed()).Then(Deliver(referent, PlaybackSpeedChanged(eventTimeMs, positionMs, speed)))
    {
      var r := GetController(referent);
      if r.Threw? {
        Log(Warn(ReleasedLikelyBug));
        return;
      }
      var controller := r.value;
      Invoke(controller, NotifyPlaybackSpeedChanges(eventTimeMs, positionMs, speed));
    }

    method OnBufferingStateChanged(item: Parcel<MediaItem>, state: int, bufferedPositionMs: int)
      modifies this
      ensures referent == old(referent)
      ensures Observed() == old(Observed()).Then(Deliver(referent, BufferingStateChanged(item, state, bufferedPositionMs)))
    {
      var r := GetController(referent);
      if r.Threw? {
        Log(Warn(ReleasedLikelyBug));
        return;
      }
      var controller := r.value;
      Invoke(controller, NotifyBufferingStateChanged(Decode(item), state, bufferedPositionMs));
    }

    /** Rebuilds the playlist element by element, logging one warning per element that fails to decode. */
    method OnPlaylistChanged(parcelList: Option<seq<Parcel<MediaItem>>>, metadataBundle: Bundle)
      modifies this
      ensures referent == old(referent)
      ensures Observed() == old(Observed()).Then(Deliver(referent, PlaylistChanged(parcelList, metadataBundle)))
    {
      var r := GetController(referent);
      if r.Threw? {
        Log(Warn(ReleasedLikelyBug));
        return;
      }
      var controller := r.value;
      if parcelList.None? {
        Log(Warn(NullPlaylist));
        return;
      }
      var ps := parcelList.value;
      var playlist := [];
      var i := 0;
      while i < |ps|
        invariant 0 <= i <= |ps|
        invariant referent == old(referent)
        invariant playlist == Decoded(ps[..i])
        invariant calls == old(calls) && submitted == old(submitted)
        invariant log == old(log) + Repeat(Warn(NullPlaylistItem), DropCount(ps[..i]))
      {
        var item := Decode(ps[i]);
        assert ps[..i + 1][..i] == ps[..i];
        if item.None? {
          ghost var k := DropCount(ps[..i]);
          assert Repeat(Warn(NullPlaylistItem), k) + [Warn(NullPlaylistItem)]
              == Repeat(Warn(NullPlaylistItem), k + 1);
          Log(Warn(NullPlaylistItem));
        } else {
          playlist := playlist + [item.value];
        }
        i := i + 1;
      }
      assert ps[..|ps|] == ps;
      var metadata := FromBundle(metadataBundle);
      Invoke(controller, NotifyPlaylistChanges(playlist, metadata));
    }

    method OnPlaylistMetadataChanged(metadataBundle: Bundle)
      modifies this
      ensures referent == old(referent)
      ensures Observed() == old(Observed()).Then(Deliver(referent, PlaylistMetadataChanged(metadataBundle)))
    {
      var r := GetController(referent);
      if r.Threw? {
        Log(Warn(ReleasedLikelyBug));
        return;
      }
      var controller := r.value;
      var metadata := FromBundle(metadataBundle);
      Invoke(controller, NotifyPlaylistMetadataChanges(metadata));
    }

    method OnRepeatModeChanged(repeatMode: int)
      modifies this
      ensures referent == old(referent)
      ensures Observed() == old(Observed()).Then(Deliver(referent, RepeatModeChanged(repeatMode)))
    {
      var r := GetController(referent);
      if r.Threw? {
        Log(Warn(ReleasedLikelyBug));
        return;
      }
      var controller := r.value;
      Invoke(controller, NotifyRepeatModeChanges(repeatMode));
    }

    method OnShuffleModeChanged(shuffleMode: int)
      modifies this
      ensures referent == old(referent)
      ensures Observed() == old(Observed()).Then(Deliver(referent, ShuffleModeChanged(shuffleMode)))
    {
      var r := GetController(referent);
      if r.Threw? {
        Log(Warn(ReleasedLikelyBug));
        return;
      }
      var controller := r.value;
      Invoke(controller, NotifyShuffleModeChanges(shuffleMode));
    }

    method OnPlaybackInfoChanged(playbackInfo: Parcel<PlaybackInfo>)
      modifies this
      ensures referent == old(referent)
      ensures Observed() == old(Observed()).Then(Deliver(referent, PlaybackInfoChanged(playbackInfo)))
    {
      // the source's DEBUG flag is true, so this trace is always written
      Log(Debug(PlaybackInfoChangedTrace));
      var r := GetController(referent);
      if r.Threw? {
        Log(Warn(ReleasedLikelyBug));
        return;
      }
      var controller := r.value;
      var info := Decode(playbackInfo);
      if info.None? {
        Log(Warn(NullPlaybackInfo));
        return;
      }
      Invoke(controller, NotifyPlaybackInfoChanges(info.value));
    }

    method OnSeekCompleted(eventTimeMs: int, positionMs: int, seekPositionMs: int)
      modifies this
      ensures referent == old(referent)
      ensures Observed() == old(Observed()).Then(Deliver(referent, SeekCompleted(eventTimeMs, positionMs, seekPositionMs)))
    {
      var r := GetController(referent);
      if r.Threw? {
        Log(Warn(ReleasedLikelyBug));
        return;
      }
      var controller := r.value;
      Invoke(controller, NotifySeekCompleted(eventTimeMs, positionMs, seekPositionMs));
    }

    method OnError(errorCode: int, extras: Bundle)
      modifies this
      ensures referent == old(referent)
      ensures Observed() == old(Observed()).Then(Deliver(referent, ErrorOccurred(errorCode, extras)))
    {
      var r := GetController(referent);
      if r.Threw? {
        Log(Warn(ReleasedLikelyBug));
        return;
      }
      var controller := r.value;
      Invoke(controller, NotifyError(errorCode, extras));
    }

    method OnRoutesInfoChanged(routes: Option<seq<Bundle>>)
      modifies this
      ensures referent == old(referent)
      ensures Observed() == old(Observed()).Then(Deliver(referent, RoutesInfoChanged(routes)))
    {
      var r := GetController(referent);
      if r.Threw? {
        Log(Warn(ReleasedLikelyBug));
        return;
      }
      var controller := r.value;
      Invoke(controller, NotifyRoutesInfoChanged(routes));
    }

    /** Reads the weak reference directly: a cleared one is expected here and only traced. */
    method OnConnected(sessionBinder: SessionBinder, commandGroup: Parcel<CommandGroup>, playerState: int,
                       currentItem: Parcel<MediaItem>, positionEventTimeMs: int, positionMs: int,
                       playbackSpeed: Speed, bufferedPositionMs: int, playbackInfo: Parcel<PlaybackInfo>,
                       shuffleMode: int, repeatMode: int, playlistParcel: Option<seq<Parcel<MediaItem>>>,
                       sessionActivity: PendingIntent)
      modifies this
      ensures referent == old(referent)
      ensures Observed() == old(Observed()).Then(Deliver(referent, Connected(Connection(
                sessionBinder, commandGroup, playerState, currentItem, positionEventTimeMs, positionMs,
                playbackSpeed, bufferedPositionMs, playbackInfo, shuffleMode, repeatMode,
                playlistParcel, sessionActivity))))
    {
      if referent.None? {
        Log(Debug(ConnectedAfterClose));
        return;
      }
      var controller := referent.value;
      var itemList: Option<seq<MediaItem>> := None;
      if playlistParcel.Some? {
        var items := DecodeEach(playlistParcel.value);
        itemList := Some(items);
      }
      Invoke(controller, ConnectedNotLocked(
        sessionBinder, Decode(commandGroup), playerState, Decode(currentItem),
        positionEventTimeMs, positionMs, playbackSpeed, bufferedPositionMs,
        Decode(playbackInfo), repeatMode, shuffleMode, itemList, sessionActivity));
    }

    /** Closes the controller's public instance, unless the reference is already cleared. */
    method OnDisconnected()
      modifies this
      ensures referent == old(referent)
      ensures Observed() == old(Observed()).Then(Deliver(referent, Disconnected))
    {
      if referent.None? {
        Log(Debug(DisconnectedAfterClose));
        return;
      }
      var controller := referent.value;
      Invoke(controller, CloseInstance);
    }

    /** Rejects a null list before resolving; no null check is needed after getController. */
    method OnCustomLayoutChanged(commandButtonList: Option<seq<Parcel<CommandButton>>>)
      modifies this
      ensures referent == old(referent)
      ensures Observed() == old(Observed()).Then(Deliver(referent, CustomLayoutChanged(commandButtonList)))
    {
      if commandButtonList.None? {
        Log(Warn(NullCommandButtonList));
        return;
      }
      var r := GetController(referent);
      if r.Threw? {
        Log(Warn(ReleasedLikelyBug));
        return;
      }
      var controller := r.value;
      var layout := DecodeEach(commandButtonList.value);
      Invoke(controller, CustomLayoutUpdate(layout));
    }

    method OnAllowedCommandsChanged(commands: Parcel<CommandGroup>)
      modifies this
      ensures referent == old(referent)
      ensures Observed() == old(Observed()).Then(Deliver(referent, AllowedCommandsChanged(commands)))
    {
      var r := GetController(referent);
      if r.Threw? {
        Log(Warn(ReleasedLikelyBug));
        return;
      }
      var controller := r.value;
      var commandGroup := Decode(commands);
      if commandGroup.None? {
        Log(Warn(NullCommands));
        return;
      }
      Invoke(controller, AllowedCommandsUpdate(commandGroup.value));
    }

    method OnCustomCommand(commandParcel: Parcel<SessionCommand>, args: Bundle, receiver: ResultReceiver)
      modifies this
      ensures referent == old(referent)
      ensures Observed() == old(Observed()).Then(Deliver(referent, CustomCommand(commandParcel, args, receiver)))
    {
      var r := GetController(referent);
      if r.Threw? {
        Log(Warn(ReleasedLikelyBug));
        return;
      }
      var controller := r.value;
      var command := Decode(commandParcel);
      if command.None? {
        Log(Warn(NullCommand));
        return;
      }
      Invoke(controller, CustomCommandCall(command.value, args, receiver));
    }

    // Browsing kinds: each hands one runnable to the browser's callback executor.

    method OnGetLibraryRootDone(rootHints: Bundle, rootMediaId: Option<string>, rootExtra: Bundle)
      modifies this
      ensures referent == old(referent)
      ensures Observed() == old(Observed()).Then(Deliver(referent, GetLibraryRootDone(rootHints, rootMediaId, rootExtra)))
    {
      var r := GetBrowser(referent);
      if r.Threw? {
        Log(Warn(ReleasedLikelyBug));
        return;
      }
      if r.value.None? {
        return;
      }
      var browser := r.value.value;
      Submit(browser, LibraryRootCallback(rootHints, rootMediaId, rootExtra));
    }

    method OnGetItemDone(mediaId: Option<string>, item: Parcel<MediaItem>)
      modifies this
      ensures referent == old(referent)
      ensures Observed() == old(Observed()).Then(Deliver(referent, GetItemDone(mediaId, item)))
    {
      if mediaId.None? {
        Log(Warn(NullMediaId));
        return;
      }
      var r := GetBrowser(referent);
      if r.Threw? {
        Log(Warn(ReleasedLikelyBug));
        return;
      }
      if r.value.None? {
        return;
      }
      var browser := r.value.value;
      Submit(browser, ItemCallback(mediaId.value, item));
    }

    method OnGetChildrenDone(parentId: Option<string>, page: int, pageSize: int,
                             itemList: Option<seq<Parcel<MediaItem>>>, extras: Bundle)
      modifies this
      ensures referent == old(referent)
      ensures Observed() == old(Observed()).Then(Deliver(referent, GetChildrenDone(parentId, page, pageSize, itemList, extras)))
    {
      if parentId.None? {
        Log(Warn(NullChildrenParentId));
        return;
      }
      var r := GetBrowser(referent);
      if r.Threw? {
        Log(Warn(ReleasedLikelyBug));
        return;
      }
      if r.value.None? {
        return;
      }
      var browser := r.value.value;
      Submit(browser, ChildrenCallback(parentId.value, page, pageSize, itemList, extras));
    }

    method OnSearchResultChanged(query: Option<string>, itemCount: int, extras: Bundle)
      modifies this
      ensures referent == old(referent)
      ensures Observed() == old(Observed()).Then(Deliver(referent, SearchResultChanged(query, itemCount, extras)))
    {
      if IsEmpty(query) {
        Log(Warn(EmptySearchResultQuery));
        return;
      }
      var r := GetBrowser(referent);
      if r.Threw? {
        Log(Warn(ReleasedLikelyBug));
        return;
      }
      if r.value.None? {
        return;
      }
      var browser := r.value.value;
      Submit(browser, SearchResultChangedCallback(query.value, itemCount, extras));
    }

    method OnGetSearchResultDone(query: Option<string>, page: int, pageSize: int,
                                 itemList: Option<seq<Parcel<MediaItem>>>, extras: Bundle)
      modifies this
      ensures referent == old(referent)
      ensures Observed() == old(Observed()).Then(Deliver(referent, GetSearchResultDone(query, page, pageSize, itemList, extras)))
    {
      if IsEmpty(query) {
        Log(Warn(EmptySearchDoneQuery));
        return;
      }
      var r := GetBrowser(referent);
      if r.Threw? {
        Log(Warn(ReleasedLikelyBug));
        return;
      }
      if r.value.None? {
        return;
      }
      var browser := r.value.value;
      Submit(browser, SearchResultCallback(query.value, page, pageSize, itemList, extras));
    }

    method OnChildrenChanged(parentId: Option<string>, itemCount: int, extras: Bundle)
      modifies this
      ensures referent == old(referent)
      ensures Observed() == old(Observed()).Then(Deliver(referent, ChildrenChanged(parentId, itemCount, extras)))
    {
      if parentId.None? {
        Log(Warn(NullChangedParentId));
        return;
      }
      var r := GetBrowser(referent);
      if r.Threw? {
        Log(Warn(ReleasedLikelyBug));
        return;
      }
      if r.value.None? {
        return;
      }
      var browser := r.value.value;
      Submit(browser, ChildrenChangedCallback(parentId.value, itemCount, extras));
    }
  }
}
