/**
 * The values a media controller exchanges with its session. Everything the
 * relay only passes along is an abstract type: the relay never looks inside.
 */
module MediaTypes {
  import opened Wrappers

  /** android.os.Bundle, an opaque key/value bag. */
  type Bundle
  /** A playback speed; a Java float that the relay passes through unchanged. */
  type Speed
  /** The session's binder (IMediaSession2). */
  type SessionBinder
  /** android.app.PendingIntent for the session activity. */
  type PendingIntent
  /** android.os.ResultReceiver handed along with a custom command. */
  type ResultReceiver

  /** Decoded domain objects. */
  type MediaItem
  type CommandButton
  type PlaybackInfo
  type CommandGroup
  type SessionCommand

  /**
   * A raw record as it arrives over the wire (ParcelImpl). The codec that turns
   * it into a domain object is not part of this model; `decoded` is what it
   * yields, and `None` is a failed decode (a null result).
   */
  datatype Parcel<T> = Parcel(decoded: Option<T>)

  /** ParcelUtils.fromParcelable: the decoded object, or None. */
  function Decode<T>(p: Parcel<T>): Option<T>
  {
    p.decoded
  }

  /** MediaMetadata2.fromBundle, left uninterpreted: the metadata read from a bundle. */
  datatype Metadata = FromBundle(bundle: Bundle)

  /** android.text.TextUtils.isEmpty: a null or zero-length string. */
  predicate IsEmpty(s: Option<string>)
  {
    s.None? || s.value == []
  }
}
