/**
 * Decoding a list of raw records element by element, dropping every element
 * that decodes to nothing (the loops that rebuild a playlist or a custom
 * layout into a fresh ArrayList).
 */
module ParcelLists {
  import opened Wrappers
  import opened MediaTypes

  /** The decoded elements of `ps` that are present, in their original order. */
  function Decoded<T>(ps: seq<Parcel<T>>): (items: seq<T>)
    ensures |items| <= |ps|
  {
    if ps == [] then []
    else
      var last := ps[|ps| - 1];
      match Decode(last)
      case None => Decoded(ps[..|ps| - 1])
      case Some(x) => Decoded(ps[..|ps| - 1]) + [x]
  }

  /** How many elements of `ps` decode to nothing. */
  function DropCount<T>(ps: seq<Parcel<T>>): nat
  {
    if ps == [] then 0
    else DropCount(ps[..|ps| - 1]) + (if Decode(ps[|ps| - 1]).None? then 1 else 0)
  }

  /** N elements with K failed decodes leave exactly N - K survivors. */
  lemma {:induction false} DecodedLength<T>(ps: seq<Parcel<T>>)
    ensures |Decoded(ps)| + DropCount(ps) == |ps|
  {
    if ps != [] {
      DecodedLength(ps[..|ps| - 1]);
    }
  }

  /** Decoding distributes over concatenation: the filter keeps relative order. */
  lemma {:induction false} DecodedAppend<T>(a: seq<Parcel<T>>, b: seq<Parcel<T>>)
    ensures Decoded(a + b) == Decoded(a) + Decoded(b)
    ensures DropCount(a + b) == DropCount(a) + DropCount(b)
  {
    if b == [] {
      assert a + b == a;
    } else {
      var b' := b[..|b| - 1];
      assert (a + b)[..|a + b| - 1] == a + b';
      DecodedAppend(a, b');
    }
  }

  /** An element survives exactly when some raw record decodes to it. */
  lemma {:induction false} DecodedMembers<T>(ps: seq<Parcel<T>>, x: T)
    ensures x in Decoded(ps) <==> exists i :: 0 <= i < |ps| && Decode(ps[i]) == Some(x)
  {
    if ps != [] {
      var init := ps[..|ps| - 1];
      DecodedMembers(init, x);
      if exists i :: 0 <= i < |init| && Decode(init[i]) == Some(x) {
        var i :| 0 <= i < |init| && Decode(init[i]) == Some(x);
        assert Decode(ps[i]) == Some(x);
      }
      if exists i :: 0 <= i < |ps| && Decode(ps[i]) == Some(x) {
        var i :| 0 <= i < |ps| && Decode(ps[i]) == Some(x);
        if i < |init| {
          assert Decode(init[i]) == Some(x);
        }
      }
    }
  }

  /** When every record decodes, nothing is dropped and the order is kept element for element. */
  lemma {:induction false} DecodedAllPresent<T>(ps: seq<Parcel<T>>)
    requires forall i :: 0 <= i < |ps| ==> Decode(ps[i]).Some?
    ensures DropCount(ps) == 0
    ensures |Decoded(ps)| == |ps|
    ensures forall i :: 0 <= i < |ps| ==> Some(Decoded(ps)[i]) == Decode(ps[i])
  {
    if ps != [] {
      DecodedAllPresent(ps[..|ps| - 1]);
    }
  }

  /** When no record decodes, every one is dropped. */
  lemma {:induction false} DecodedAllAbsent<T>(ps: seq<Parcel<T>>)
    requires forall i :: 0 <= i < |ps| ==> Decode(ps[i]).None?
    ensures Decoded(ps) == []
    ensures DropCount(ps) == |ps|
  {
    if ps != [] {
      DecodedAllAbsent(ps[..|ps| - 1]);
    }
  }

  /**
   * The rebuilding loop: walk the list once, keep each element that decodes.
   * Used for the playlist of a connection and for a custom layout, neither of
   * which logs the dropped elements.
   */
  method DecodeEach<T>(ps: seq<Parcel<T>>) returns (items: seq<T>)
    ensures items == Decoded(ps)
  {
    items := [];
    var i := 0;
    while i < |ps|
      invariant 0 <= i <= |ps|
      invariant items == Decoded(ps[..i])
    {
      var item := Decode(ps[i]);
      assert ps[..i + 1][..i] == ps[..i];
      if item.Some? {
        items := items + [item.value];
      }
      i := i + 1;
    }
    assert ps[..|ps|] == ps;
  }
}
