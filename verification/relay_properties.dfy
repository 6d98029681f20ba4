/**
 * What the relay guarantees, stated over Relay.Deliver: nothing is delivered
 * once the reference is cleared, malformed payloads are dropped with one
 * warning, lists are filtered in order, browsing kinds are gated on the
 * capability and become exactly one unit of work carrying their arguments.
 */
module RelayProperties {
  import opened Wrappers
  import opened MediaTypes
  import opened ParcelLists
  import opened Relay

  function WarningCount(log: seq<LogLine>): (k: nat)
    ensures k <= |log|
  {
    if log == [] then 0
    else WarningCount(log[1..]) + (if log[0].Warn? then 1 else 0)
  }

  /**
   * The browsing notification a submitted runnable answers: the runnable
   * keeps every argument, so the notification can be read back from it.
   */
  function Requested(w: Work): Notification
  {
    match w
    case LibraryRootCallback(hints, id, extra) => GetLibraryRootDone(hints, id, extra)
    case ItemCallback(id, p) => GetItemDone(Some(id), p)
    case ChildrenCallback(id, page, size, list, extras) => GetChildrenDone(Some(id), page, size, list, extras)
    case SearchResultChangedCallback(q, count, extras) => SearchResultChanged(Some(q), count, extras)
    case SearchResultCallback(q, page, size, list, extras) => GetSearchResultDone(Some(q), page, size, list, extras)
    case ChildrenChangedCallback(id, count, extras) => ChildrenChanged(Some(id), count, extras)
  }

  /** The plain kinds whose arguments the relay hands to the controller without checking them. */
  predicate PassThroughKind(n: Notification)
  {
    n.CurrentMediaItemChanged? || n.PlayerStateChanged? || n.PlaybackSpeedChanged? ||
    n.BufferingStateChanged? || n.PlaylistMetadataChanged? || n.RepeatModeChanged? ||
    n.ShuffleModeChanged? || n.SeekCompleted? || n.ErrorOccurred? || n.RoutesInfoChanged?
  }

  /** The controller calls those kinds turn into. */
  predicate PassThroughCall(call: Call)
  {
    call.NotifyCurrentMediaItemChanged? || call.NotifyPlayerStateChanges? || call.NotifyPlaybackSpeedChanges? ||
    call.NotifyBufferingStateChanged? || call.NotifyPlaylistMetadataChanges? || call.NotifyRepeatModeChanges? ||
    call.NotifyShuffleModeChanges? || call.NotifySeekCompleted? || call.NotifyError? || call.NotifyRoutesInfoChanged?
  }

  /**
   * The notification a pass-through call answers: the call keeps every
   * argument (a decoded item stands for its raw record), so the notification
   * can be read back from it.
   */
  function Notified(call: Call): Notification
    requires PassThroughCall(call)
  {
    match call
    case NotifyCurrentMediaItemChanged(item) => CurrentMediaItemChanged(Parcel(item))
    case NotifyPlayerStateChanges(t, pos, s) => PlayerStateChanged(t, pos, s)
    case NotifyPlaybackSpeedChanges(t, pos, sp) => PlaybackSpeedChanged(t, pos, sp)
    case NotifyBufferingStateChanged(item, s, b) => BufferingStateChanged(Parcel(item), s, b)
    case NotifyPlaylistMetadataChanges(m) => PlaylistMetadataChanged(m.bundle)
    case NotifyRepeatModeChanges(m) => RepeatModeChanged(m)
    case NotifyShuffleModeChanges(m) => ShuffleModeChanged(m)
    case NotifySeekCompleted(t, pos, seekPos) => SeekCompleted(t, pos, seekPos)
    case NotifyError(code, extras) => ErrorOccurred(code, extras)
    case NotifyRoutesInfoChanged(routes) => RoutesInfoChanged(routes)
  }

  /**
   * A pass-through kind reaching a bound controller becomes exactly one call
   * on it, with no work and no log, and the call carries the notification's
   * arguments unchanged.
   */
  lemma PlainDelivery(c: Controller, n: Notification)
    requires PassThroughKind(n)
    ensures var e := Deliver(Some(c), n);
            && |e.calls| == 1 && e == Invoked(c, e.calls[0].call)
            && PassThroughCall(e.calls[0].call)
            && Notified(e.calls[0].call) == n
  {
  }

  /**
   * With the reference cleared no notification reaches the controller. The
   * two lifecycle kinds leave one debug line and no warning; every other
   * kind leaves exactly one warning (the released-controller warning or an
   * earlier payload rejection), after the debug trace of playback-info.
   */
  lemma ReleasedDeliversNothing(n: Notification)
    ensures Deliver(None, n).calls == [] && Deliver(None, n).work == []
    ensures n.IsLifecycle() ==> WarningCount(Deliver(None, n).log) == 0 && |Deliver(None, n).log| == 1
    ensures !n.IsLifecycle() ==> WarningCount(Deliver(None, n).log) == 1
  {
  }

  /** Any run of notifications after destroy() leaves the controller untouched. */
  lemma {:induction false} NoDeliveryAfterDestroy(ns: seq<Notification>)
    ensures DeliverAll(None, ns).calls == [] && DeliverAll(None, ns).work == []
  {
    if ns != [] {
      ReleasedDeliversNothing(ns[0]);
      NoDeliveryAfterDestroy(ns[1..]);
    }
  }

  /**
   * A notification is delivered at most once, either as a call or as a
   * submission but never both, and only to the controller the reference
   * currently holds; submissions go only to a browser.
   */
  lemma DeliversOnlyToBoundController(referent: Option<Controller>, n: Notification)
    ensures |Deliver(referent, n).calls| + |Deliver(referent, n).work| <= 1
    ensures forall i :: 0 <= i < |Deliver(referent, n).calls| ==>
              referent == Some(Deliver(referent, n).calls[i].target)
    ensures forall i :: 0 <= i < |Deliver(referent, n).work| ==>
              referent == Some(Deliver(referent, n).work[i].browser) && Deliver(referent, n).work[i].browser.isBrowser
  {
  }

  /**
   * onPlaylistChanged: a null list is dropped with one warning; otherwise one
   * call carries the surviving N - K items in order, with K warnings.
   */
  lemma PlaylistChangedDelivery(c: Controller, list: Option<seq<Parcel<MediaItem>>>, b: Bundle)
    ensures list.None? ==> Deliver(Some(c), PlaylistChanged(list, b)) == Logged(Warn(NullPlaylist))
    ensures list.Some? ==>
              var e := Deliver(Some(c), PlaylistChanged(list, b));
              && e.calls == [Invocation(c, NotifyPlaylistChanges(Decoded(list.value), FromBundle(b)))]
              && e.work == []
              && |Decoded(list.value)| == |list.value| - DropCount(list.value)
              && |e.log| == WarningCount(e.log) == DropCount(list.value)
              && forall i :: 0 <= i < |e.log| ==> e.log[i] == Warn(NullPlaylistItem)
  {
    if list.Some? {
      DecodedLength(list.value);
      var e := Deliver(Some(c), PlaylistChanged(list, b));
      assert e.log == [] + Repeat(Warn(NullPlaylistItem), DropCount(list.value));
      AllWarnings(e.log);
    }
  }

  lemma {:induction false} AllWarnings(log: seq<LogLine>)
    requires forall i :: 0 <= i < |log| ==> log[i].Warn?
    ensures WarningCount(log) == |log|
  {
    if log != [] {
      AllWarnings(log[1..]);
    }
  }

  /**
   * onCustomLayoutChanged: a null list is rejected whatever the state of the
   * reference, before resolution; otherwise the layout is the in-order filter
   * of decoded buttons, and dropped buttons are not logged.
   */
  lemma CustomLayoutDelivery(referent: Option<Controller>, list: Option<seq<Parcel<CommandButton>>>)
    ensures list.None? ==> Deliver(referent, CustomLayoutChanged(list)) == Logged(Warn(NullCommandButtonList))
    ensures list.Some? && referent.Some? ==>
              Deliver(referent, CustomLayoutChanged(list))
              == Invoked(referent.value, CustomLayoutUpdate(Decoded(list.value)))
  {
  }

  /**
   * onConnected: a cleared reference gives only a debug line; otherwise one
   * call whose playlist is null exactly when the raw one is, and otherwise the
   * in-order filter of decoded items, with no warnings for dropped items.
   */
  lemma ConnectedDelivery(referent: Option<Controller>, k: Connection)
    ensures referent.None? ==> Deliver(referent, Connected(k)) == Logged(Debug(ConnectedAfterClose))
    ensures referent.Some? ==>
              var e := Deliver(referent, Connected(k));
              && e.work == [] && e.log == [] && |e.calls| == 1
              && e.calls[0].target == referent.value
              && e.calls[0].call.ConnectedNotLocked?
              && (e.calls[0].call.itemList.None? <==> k.playlistParcel.None?)
              && (k.playlistParcel.Some? ==> e.calls[0].call.itemList == Some(Decoded(k.playlistParcel.value)))
  {
  }

  /** onDisconnected: closes the controller's instance exactly once, or only traces when cleared. */
  lemma DisconnectedDelivery(referent: Option<Controller>)
    ensures referent.None? ==> Deliver(referent, Disconnected) == Logged(Debug(DisconnectedAfterClose))
    ensures referent.Some? ==> Deliver(referent, Disconnected) == Invoked(referent.value, CloseInstance)
  {
  }

  /**
   * Playback info, allowed commands and custom commands: a payload that does
   * not decode means no call and exactly one warning; one that decodes is
   * passed on, itself and with the other arguments unchanged, in exactly one
   * call and with no warning.
   */
  lemma DecodedPayloadGuard(c: Controller, n: Notification)
    requires n.PlaybackInfoChanged? || n.AllowedCommandsChanged? || n.CustomCommand?
    ensures var e := Deliver(Some(c), n);
            var raw := if n.PlaybackInfoChanged? then Decode(n.playbackInfo).None?
                       else if n.AllowedCommandsChanged? then Decode(n.commands).None?
                       else Decode(n.commandParcel).None?;
            && e.work == []
            && (raw ==> e.calls == [] && WarningCount(e.log) == 1)
            && (!raw ==> WarningCount(e.log) == 0)
    ensures n.PlaybackInfoChanged? && Decode(n.playbackInfo).Some? ==>
              Deliver(Some(c), n).calls == [Invocation(c, NotifyPlaybackInfoChanges(Decode(n.playbackInfo).value))]
    ensures n.AllowedCommandsChanged? && Decode(n.commands).Some? ==>
              Deliver(Some(c), n).calls == [Invocation(c, AllowedCommandsUpdate(Decode(n.commands).value))]
    ensures n.CustomCommand? && Decode(n.commandParcel).Some? ==>
              Deliver(Some(c), n).calls
              == [Invocation(c, CustomCommandCall(Decode(n.commandParcel).value, n.args, n.receiver))]
  {
  }

  /** A browsing kind for a controller that is not a browser is dropped without a log line, beyond the payload checks that run first. */
  lemma CapabilityGating(c: Controller, n: Notification)
    requires n.IsBrowsing() && !c.isBrowser
    ensures Deliver(Some(c), n) == if EarlyRejection(n).Some? then Logged(Warn(EarlyRejection(n).value)) else NoEffect
    ensures !Deliver(Some(c), n).Delivers()
  {
  }

  /**
   * The browsing kinds reject a null id or a null or empty query before
   * resolving, for any state of the reference; an empty id is let through.
   */
  lemma BrowsingPayloadChecks(referent: Option<Controller>, n: Notification)
    requires n.IsBrowsing()
    ensures (n.GetItemDone? && n.mediaId.None?) ==> Deliver(referent, n) == Logged(Warn(NullMediaId))
    ensures (n.GetChildrenDone? && n.parentId.None?) ==> Deliver(referent, n) == Logged(Warn(NullChildrenParentId))
    ensures (n.ChildrenChanged? && n.parentId.None?) ==> Deliver(referent, n) == Logged(Warn(NullChangedParentId))
    ensures (n.SearchResultChanged? && IsEmpty(n.query)) ==> Deliver(referent, n) == Logged(Warn(EmptySearchResultQuery))
    ensures (n.GetSearchResultDone? && IsEmpty(n.query)) ==> Deliver(referent, n) == Logged(Warn(EmptySearchDoneQuery))
    ensures EarlyRejection(n).None? <==>
              match n
              case GetItemDone(id, _) => id.Some?
              case GetChildrenDone(id, _, _, _, _) => id.Some?
              case ChildrenChanged(id, _, _) => id.Some?
              case SearchResultChanged(q, _, _) => !IsEmpty(q)
              case GetSearchResultDone(q, _, _, _, _) => !IsEmpty(q)
              case _ => true
  {
  }

  /**
   * A browsing kind that passes every guard becomes exactly one unit of work
   * on the browser's executor and no direct call, and that work carries the
   * notification's arguments unchanged.
   */
  lemma BrowsingSubmission(c: Controller, n: Notification)
    requires n.IsBrowsing() && c.isBrowser && EarlyRejection(n).None?
    ensures var e := Deliver(Some(c), n);
            && e.calls == [] && e.log == [] && |e.work| == 1
            && e.work[0].browser == c
            && Requested(e.work[0].work) == n
  {
  }
}
