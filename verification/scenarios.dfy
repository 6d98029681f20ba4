/**
 * Concrete runs of the relay object, in the way its owner drives it:
 * construct, deliver, destroy, deliver again.
 */
module Scenarios {
  import opened Wrappers
  import opened MediaTypes
  import opened ParcelLists
  import opened Relay
  import opened ControllerStub

  /** A player-state notification reaches a bound controller as sent: (100, 50, state) in, the same out. */
  method PlayerStateAsSent(c: Controller, state: int)
    returns (calls: seq<Invocation>, work: seq<Submission>, log: seq<LogLine>)
    ensures calls == [Invocation(c, NotifyPlayerStateChanges(100, 50, state))]
    ensures work == [] && log == []
  {
    var stub := new MediaController2Stub(c);
    stub.OnPlayerStateChanged(100, 50, state);
    calls, work, log := stub.calls, stub.submitted, stub.log;
  }

  /** Once destroyed (twice, even), a notification leaves only the released warning. */
  method NotifyAfterDestroy(c: Controller, item: Parcel<MediaItem>)
    returns (calls: seq<Invocation>, work: seq<Submission>, log: seq<LogLine>)
    ensures calls == [] && work == []
    ensures log == [Warn(ReleasedLikelyBug)]
  {
    var stub := new MediaController2Stub(c);
    stub.Destroy();
    stub.Destroy();
    stub.OnCurrentMediaItemChanged(item);
    calls, work, log := stub.calls, stub.submitted, stub.log;
  }

  /** A three-element playlist whose middle element does not decode. */
  method PlaylistWithUndecodableItem(c: Controller, first: MediaItem, third: MediaItem, bundle: Bundle)
    returns (calls: seq<Invocation>, log: seq<LogLine>)
    ensures calls == [Invocation(c, NotifyPlaylistChanges([first, third], FromBundle(bundle)))]
    ensures log == [Warn(NullPlaylistItem)]
  {
    var stub := new MediaController2Stub(c);
    var ps := [Parcel(Some(first)), Parcel(None), Parcel(Some(third))];
    assert ps[..1][..0] == [] && ps[..2][..1] == ps[..1] && ps[..|ps| - 1] == ps[..2];
    assert Decoded(ps[..1]) == [first] && DropCount(ps[..1]) == 0;
    assert Decoded(ps[..2]) == [first] && DropCount(ps[..2]) == 1;
    assert Decoded(ps) == [first, third] && DropCount(ps) == 1;
    assert Repeat(Warn(NullPlaylistItem), 1) == [Warn(NullPlaylistItem)];
    stub.OnPlaylistChanged(Some(ps), bundle);
    calls, log := stub.calls, stub.log;
  }

  /** A children-changed notification for a browser becomes one queued runnable and no direct call. */
  method ChildrenChangedForBrowser(c: Controller, extras: Bundle)
    returns (calls: seq<Invocation>, work: seq<Submission>, log: seq<LogLine>)
    requires c.isBrowser
    ensures calls == [] && log == []
    ensures work == [Submission(c, ChildrenChangedCallback("root", 5, extras))]
  {
    var stub := new MediaController2Stub(c);
    stub.OnChildrenChanged(Some("root"), 5, extras);
    calls, work, log := stub.calls, stub.submitted, stub.log;
  }

  /** Only a null parent id is rejected: an empty one is forwarded to the browser. */
  method EmptyParentIdForwarded(c: Controller, items: Option<seq<Parcel<MediaItem>>>, extras: Bundle)
    returns (work: seq<Submission>, log: seq<LogLine>)
    requires c.isBrowser
    ensures log == []
    ensures work == [Submission(c, ChildrenCallback("", 0, 20, items, extras))]
  {
    var stub := new MediaController2Stub(c);
    stub.OnGetChildrenDone(Some(""), 0, 20, items, extras);
    work, log := stub.submitted, stub.log;
  }

  /** A plain controller never sees browsing kinds, and nothing is logged for them. */
  method BrowsingKindForPlainController(c: Controller, hints: Bundle, extra: Bundle)
    returns (calls: seq<Invocation>, work: seq<Submission>, log: seq<LogLine>)
    requires !c.isBrowser
    ensures calls == [] && work == [] && log == []
  {
    var stub := new MediaController2Stub(c);
    stub.OnGetLibraryRootDone(hints, Some("root"), extra);
    stub.OnChildrenChanged(Some("root"), 5, extra);
    calls, work, log := stub.calls, stub.submitted, stub.log;
  }
}
