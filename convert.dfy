/**
 * Conversions between the module and streamdeck-library identifiers, and the
 * construction of touch-strip events (internal/module/convert.go).
 */
module Convert {
  import opened Geometry
  import opened Resources
  import opened Events

  /** The streamdeck library's own identifier types (also bytes). */
  newtype SdKeyId = x: int | 0 <= x < 256
  newtype SdDialId = x: int | 0 <= x < 256

  function KeyToStreamdeck(k: KeyId): SdKeyId { k as SdKeyId }

  function KeyIdFromStreamdeck(k: SdKeyId): (r: KeyId)
    ensures KeyToStreamdeck(r) == k
  {
    k as int
  }

  function DialToStreamdeck(d: DialId): SdDialId { d as SdDialId }

  function DialIdFromStreamdeck(d: SdDialId): (r: DialId)
    ensures DialToStreamdeck(r) == d
  {
    d as int
  }

  /** Converting to the library's identifier and back is the identity. */
  lemma IdentifierRoundTrip(k: KeyId, d: DialId)
    ensures KeyIdFromStreamdeck(KeyToStreamdeck(k)) == k
    ensures DialIdFromStreamdeck(DialToStreamdeck(d)) == d
  {
  }

  /** The event for a tap or long tap at `point`; swipe fields stay zero. */
  function TouchStripEventFromTap(touchType: TouchType, point: Point): (e: TouchStripEvent)
    ensures e.kind == TouchLongTap <==> touchType == TouchLong
    ensures e.kind != TouchSwipe
    ensures e.point == point && e.swipeStart == Origin && e.swipeEnd == Origin
  {
    var kind :=
      if touchType == TouchShort then TouchTap
      else if touchType == TouchLong then TouchLongTap
      else TouchTap;
    TouchStripEvent(kind, point, Origin, Origin)
  }

  /** The event for a swipe: it starts, and is located, at `origin`. */
  function TouchStripEventFromSwipe(origin: Point, destination: Point): (e: TouchStripEvent)
    ensures e.kind == TouchSwipe
    ensures e.point == origin && e.swipeStart == origin && e.swipeEnd == destination
  {
    TouchStripEvent(TouchSwipe, origin, origin, destination)
  }
}
