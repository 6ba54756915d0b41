/**
 * The events modules receive (internal/module/events.go) and the device's
 * touch types (internal/device/device.go). Durations are in milliseconds.
 */
module Events {
  import opened Geometry
  import opened Resources

  /** Go's int8, the type of a dial rotation delta. */
  type Int8 = x: int | -128 <= x < 128

  datatype KeyEvent = KeyEvent(pressed: bool, duration: int)

  datatype DialEventType = DialRotate | DialPress | DialRelease

  datatype DialEvent = DialEvent(kind: DialEventType, delta: Int8, duration: int)

  function Rotation(delta: Int8): DialEvent { DialEvent(DialRotate, delta, 0) }

  datatype TouchStripEventType = TouchTap | TouchLongTap | TouchSwipe

  datatype TouchStripEvent = TouchStripEvent(
    kind: TouchStripEventType,
    point: Point,
    swipeStart: Point,
    swipeEnd: Point)

  /** The device's touch type: 1 is a short touch, 2 a long one. */
  type TouchType = Byte

  const TouchShort: TouchType := 1
  const TouchLong: TouchType := 2
}
