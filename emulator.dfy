/**
 * The on-screen Stream Deck Plus (internal/device/emulator/emulator.go):
 * its open flag, key images and handler tables, the window layout and its
 * hit tests, the classification of mouse input into device events, and the
 * nearest-neighbour index mapping used to scale key images. Handlers are
 * abstract references; what a handler does is not part of this model.
 */
module EmulatedDevice {
  import opened Wrappers
  import opened Geometry
  import opened Imaging
  import opened Resources
  import opened Events

  type HandlerRef = nat

  // Layout constants, in window pixels.
  const KeySize := 72
  const KeyDisplaySize := 144
  const KeysPerRow := 4
  const KeyRows := 2
  const KeyCount := 8
  const DialCount := 4
  const DialSize := 120
  const MarginX := 20
  const MarginY := 20
  const HeaderHeight := 30
  const StripMarginY := 72
  const DialMarginY := 50
  const BottomMarginY := 50
  const StripWidth := 800
  const StripHeight := 100

  const KeyAreaWidth := KeysPerRow * KeyDisplaySize
  const KeySpacing := (StripWidth - KeyAreaWidth) / (KeysPerRow + 1)
  const KeyAreaHeight := KeyRows * KeyDisplaySize + (KeyRows - 1) * KeySpacing
  const DialSpacing := (StripWidth - DialCount * DialSize) / (DialCount + 1)
  const WindowWidth := 2 * MarginX + StripWidth
  const WindowHeight := HeaderHeight + MarginY + KeyAreaHeight + StripMarginY + StripHeight + DialMarginY + DialSize + BottomMarginY

  const KeysStartX := MarginX + KeySpacing
  const KeysStartY := HeaderHeight + MarginY
  const StripStartX := MarginX
  const StripStartY := KeysStartY + KeyAreaHeight + StripMarginY
  const DialStartY := StripStartY + StripHeight + DialMarginY
  const DialRadius := DialSize / 2

  const KeyBounds := R(0, 0, KeySize, KeySize)
  const StripBounds := R(0, 0, StripWidth, StripHeight)

  /** The on-screen rectangle of key index `i` (key `i + 1`): four to a row, two rows. */
  function KeyRect(i: nat): (r: Rect)
    requires i < KeyCount
    ensures r.Dx() == KeyDisplaySize && r.Dy() == KeyDisplaySize
  {
    var row := i / KeysPerRow;
    var col := i % KeysPerRow;
    var kx := KeysStartX + col * (KeyDisplaySize + KeySpacing);
    var ky := KeysStartY + row * (KeyDisplaySize + KeySpacing);
    R(kx, ky, kx + KeyDisplaySize, ky + KeyDisplaySize)
  }

  /** The centre of dial index `i`. */
  function DialCentre(i: nat): Point {
    Point(StripStartX + DialSpacing + i * (DialSize + DialSpacing) + DialSize / 2, DialStartY + DialSize / 2)
  }

  function DistSq(a: Point, b: Point): int {
    (a.x - b.x) * (a.x - b.x) + (a.y - b.y) * (a.y - b.y)
  }

  /** A point on dial index `i`'s circle or inside it. */
  predicate OnDial(i: nat, p: Point) {
    DistSq(p, DialCentre(i)) <= DialRadius * DialRadius
  }

  /** The touch strip's on-screen rectangle. */
  const StripArea := R(StripStartX, StripStartY, StripStartX + StripWidth, StripStartY + StripHeight)

  /** The first key, from index `i` on, whose rectangle holds `p`. */
  function KeyHitFrom(i: nat, p: Point): (k: Option<KeyId>)
    requires i <= KeyCount
    ensures k.Some? ==> i < k.value <= KeyCount
    decreases KeyCount - i
  {
    if i == KeyCount then None
    else if KeyRect(i).Contains(p) then Some(i + 1)
    else KeyHitFrom(i + 1, p)
  }

  /** The first dial, from index `i` on, whose circle holds `p`. */
  function DialHitFrom(i: nat, p: Point): (d: Option<DialId>)
    requires i <= DialCount
    ensures d.Some? ==> i < d.value <= DialCount
    decreases DialCount - i
  {
    if i == DialCount then None
    else if OnDial(i, p) then Some(i + 1)
    else DialHitFrom(i + 1, p)
  }

  /** The derived layout values. */
  lemma LayoutValues()
    ensures KeySpacing == 44 && KeyAreaHeight == 332 && DialSpacing == 64
    ensures WindowWidth == 840 && WindowHeight == 774
    ensures StripStartY == 454 && DialStartY == 604
    ensures forall i :: 0 <= i < DialCount ==> DialCentre(i) == Point(144 + 184 * i, 664)
  {
  }

  /** Each key's rectangle, written out. */
  lemma KeyRectValues()
    ensures KeyRect(0) == R(64, 50, 208, 194) && KeyRect(1) == R(252, 50, 396, 194)
    ensures KeyRect(2) == R(440, 50, 584, 194) && KeyRect(3) == R(628, 50, 772, 194)
    ensures KeyRect(4) == R(64, 238, 208, 382) && KeyRect(5) == R(252, 238, 396, 382)
    ensures KeyRect(6) == R(440, 238, 584, 382) && KeyRect(7) == R(628, 238, 772, 382)
  {
    assert 4 / KeysPerRow == 1 && 5 / KeysPerRow == 1 && 6 / KeysPerRow == 1 && 7 / KeysPerRow == 1;
    assert 4 % KeysPerRow == 0 && 5 % KeysPerRow == 1 && 6 % KeysPerRow == 2 && 7 % KeysPerRow == 3;
  }

  /** The eight key rectangles are pairwise disjoint and lie above the strip. */
  lemma KeyRectsDisjoint(i: nat, j: nat)
    requires i < KeyCount && j < KeyCount && i != j
    ensures !KeyRect(i).Overlaps(KeyRect(j))
    ensures !KeyRect(i).Overlaps(StripArea)
  {
    KeyRectValues();
  }

  /** So a click lands on a key exactly when the key's rectangle holds it. */
  lemma {:induction false} KeyHitExact(p: Point, k: KeyId)
    ensures KeyHitFrom(0, p) == Some(k) <==> 1 <= k <= KeyCount && KeyRect(k - 1).Contains(p)
  {
    KeyHitFromExact(0, p, k);
  }

  lemma {:induction false} KeyHitFromExact(i: nat, p: Point, k: KeyId)
    requires i <= KeyCount
    ensures KeyHitFrom(i, p) == Some(k) <==> i + 1 <= k <= KeyCount && KeyRect(k - 1).Contains(p)
    decreases KeyCount - i
  {
    if i < KeyCount {
      if KeyRect(i).Contains(p) {
        assert KeyHitFrom(i, p) == Some(i + 1);
        if k != i + 1 && i + 1 <= k <= KeyCount {
          OneKeyHolds(i, k - 1, p);
        }
      } else {
        assert KeyHitFrom(i, p) == KeyHitFrom(i + 1, p);
        KeyHitFromExact(i + 1, p, k);
      }
    }
  }

  /** A point inside one key's rectangle is inside no other key's. */
  lemma OneKeyHolds(i: nat, j: nat, p: Point)
    requires i < KeyCount && j < KeyCount && i != j
    requires KeyRect(i).Contains(p)
    ensures !KeyRect(j).Contains(p)
  {
    KeyRectsDisjoint(i, j);
    OverlapsIffCommonPoint(KeyRect(i), KeyRect(j));
  }

  lemma SquareAtMost(a: int, b: int, r: int)
    requires r >= 0 && a * a + b * b <= r * r
    ensures -r <= a <= r
  {
    assert b * b >= 0;
  }

  /** The four dial circles are pairwise disjoint, so a click or a scroll reaches at most one dial. */
  lemma DialsDisjoint(i: nat, j: nat, p: Point)
    requires i < DialCount && j < DialCount && i != j
    ensures !(OnDial(i, p) && OnDial(j, p))
  {
    LayoutValues();
    if OnDial(i, p) && OnDial(j, p) {
      SquareAtMost(p.x - DialCentre(i).x, p.y - DialCentre(i).y, DialRadius);
      SquareAtMost(p.x - DialCentre(j).x, p.y - DialCentre(j).y, DialRadius);
      assert false;
    }
  }

  /** So a click or a scroll reaches a dial exactly when the point is on that dial's circle. */
  lemma {:induction false} DialHitExact(p: Point, d: DialId)
    ensures DialHitFrom(0, p) == Some(d) <==> 1 <= d <= DialCount && OnDial(d - 1, p)
  {
    DialHitFromExact(0, p, d);
  }

  lemma {:induction false} DialHitFromExact(i: nat, p: Point, d: DialId)
    requires i <= DialCount
    ensures DialHitFrom(i, p) == Some(d) <==> i + 1 <= d <= DialCount && OnDial(d - 1, p)
    decreases DialCount - i
  {
    if i < DialCount {
      DialHitFromExact(i + 1, p, d);
      if OnDial(i, p) && d != i + 1 && 1 <= d <= DialCount {
        DialsDisjoint(i, d - 1, p);
      }
    }
  }

  /** The release point, clamped into the strip. */
  function ClampToStrip(x: int, y: int): (p: Point)
    ensures 0 <= p.x < StripWidth && 0 <= p.y < StripHeight
    ensures StripBounds.Contains(Point(x, y)) ==> p == Point(x, y)
    ensures x < 0 ==> p.x == 0
    ensures x >= StripWidth ==> p.x == StripWidth - 1
    ensures y < 0 ==> p.y == 0
    ensures y >= StripHeight ==> p.y == StripHeight - 1
  {
    var cx := if x < 0 then 0 else if x >= StripWidth then StripWidth - 1 else x;
    var cy := if y < 0 then 0 else if y >= StripHeight then StripHeight - 1 else y;
    Point(cx, cy)
  }

  /** What one input frame makes the device fire; every handler registered for it is then called. */
  datatype Dispatch =
    | KeyPressed(key: KeyId)
    | DialPressed(dial: DialId)
    | DialRotated(dial: DialId, delta: Int8)
    | StripTouched(touch: TouchType, point: Point)
    | StripSwiped(origin: Point, destination: Point)
  {
    /** Whether its key or dial ID names one of the device's; a strip gesture always does. */
    predicate InRange() {
      match this
      case KeyPressed(k) => 1 <= k <= KeyCount
      case DialPressed(n) => 1 <= n <= DialCount
      case DialRotated(n, _) => 1 <= n <= DialCount
      case StripTouched(_, _) => true
      case StripSwiped(_, _) => true
    }
  }

  /** One handler call a trigger makes: the handler and the event it is given. */
  datatype Invocation = Invocation(handler: HandlerRef, event: Dispatch)

  /** What a strip release becomes: a tap, long if held more than half a second, or a swipe of 20 pixels or more. */
  function ReleaseDispatch(start: Point, end: Point, held: int): (d: Dispatch)
    ensures d.StripTouched? <==> DistSq(start, end) < 400
    ensures d.StripTouched? ==> d.point == start && (d.touch == TouchLong <==> held > 500) && d.touch in {TouchShort, TouchLong}
    ensures d.StripSwiped? ==> d.origin == start && d.destination == end
    ensures d.StripTouched? || d.StripSwiped?
  {
    if DistSq(start, end) < 400 then StripTouched(if held > 500 then TouchLong else TouchShort, start)
    else StripSwiped(start, end)
  }

  /** The wheel delta, clamped to five steps either way. */
  function ClampDelta(w: Int8): (d: Int8)
    ensures -5 <= d <= 5
    ensures -5 <= w <= 5 ==> d == w
    ensures w > 5 ==> d == 5
    ensures w < -5 ==> d == -5
  {
    if w > 5 then 5 else if w < -5 then -5 else w
  }

  /**
   * One frame of mouse input: cursor, button edge and level, the wheel, and
   * the clock in milliseconds. `wheelMoved` is whether the wheel's raw
   * offset is non-zero; `wheel` is that offset truncated to `int8`, so a
   * fractional offset moves the wheel with zero steps.
   */
  datatype Frame = Frame(mx: int, my: int, justPressed: bool, mousePressed: bool, wheelMoved: bool, wheel: Int8, now: int)

  /** The nearest source column (or row) for destination column `x`. */
  function NearestIndex(x: int, srcSize: int, newSize: int): int
    requires newSize > 0
  {
    x * srcSize / newSize
  }

  /** For in-range destination coordinates the nearest source coordinate is in range too. */
  lemma NearestIndexInRange(x: int, srcSize: nat, newSize: int)
    requires newSize > 0 && 0 <= x < newSize && srcSize > 0
    ensures 0 <= NearestIndex(x, srcSize, newSize) < srcSize
  {
    assert x * srcSize >= 0;
    assert x * srcSize < newSize * srcSize by {
      assert (newSize - x) * srcSize > 0;
    }
    var q := x * srcSize / newSize;
    assert q * newSize <= x * srcSize;
  }

  /**
   * `scaleImageNearest`: the source is `at` over [0, srcW) x [0, srcH); the
   * result has `newHeight` rows of `newWidth` pixels, each copied from its
   * nearest source pixel.
   */
  method ScaleImageNearest<P>(at: (int, int) -> P, srcW: nat, srcH: nat, newWidth: int, newHeight: int)
    returns (dst: seq<seq<P>>)
    ensures |dst| == (if newHeight > 0 then newHeight else 0)
    ensures forall y :: 0 <= y < |dst| ==> |dst[y]| == (if newWidth > 0 then newWidth else 0)
    ensures forall y, x :: 0 <= y < |dst| && 0 <= x < |dst[y]| ==>
      dst[y][x] == at(NearestIndex(x, srcW, newWidth), NearestIndex(y, srcH, newHeight))
  {
    dst := [];
    var y := 0;
    while y < newHeight
      invariant 0 <= y && |dst| == y && (y == 0 || y <= newHeight)
      invariant forall r :: 0 <= r < y ==> |dst[r]| == (if newWidth > 0 then newWidth else 0)
      invariant forall r, x :: 0 <= r < y && 0 <= x < |dst[r]| ==>
        dst[r][x] == at(NearestIndex(x, srcW, newWidth), NearestIndex(r, srcH, newHeight))
    {
      var row := [];
      var x := 0;
      while x < newWidth
        invariant 0 <= x && |row| == x && (x == 0 || x <= newWidth)
        invariant forall c :: 0 <= c < x ==> row[c] == at(NearestIndex(c, srcW, newWidth), NearestIndex(y, srcH, newHeight))
      {
        row := row + [at(x * srcW / newWidth, y * srcH / newHeight)];
        x := x + 1;
      }
      dst := dst + [row];
      y := y + 1;
    }
  }

  class Emulator {
    var open: bool
    var brightness: Byte
    const keyImages: array<Image>
    var stripImage: Image

    const keyHandlers: array<seq<HandlerRef>>
    const dialRotateHandlers: array<seq<HandlerRef>>
    const dialSwitchHandlers: array<seq<HandlerRef>>
    var stripTouchHandlers: seq<HandlerRef>
    var stripSwipeHandlers: seq<HandlerRef>

    /** Whether `Listen` has attached an error channel. */
    var listening: bool

    var prevMousePressed: bool
    var dragStart: Point
    var dragStartTime: int
    var dragging: bool

    /** One image per key, one handler list per key and per dial. */
    ghost predicate Valid() {
      && keyImages.Length == KeyCount
      && keyHandlers.Length == KeyCount
      && dialRotateHandlers.Length == DialCount
      && dialSwitchHandlers.Length == DialCount
      && dialRotateHandlers != dialSwitchHandlers
    }

    /** `New`: closed, brightness 80, every key and the strip black, no handlers. */
    constructor()
      ensures Valid()
      ensures !open && brightness == 80 && !listening && !dragging && !prevMousePressed
      ensures fresh(keyImages) && fresh(keyHandlers) && fresh(dialRotateHandlers) && fresh(dialSwitchHandlers)
      ensures keyImages[..] == seq(KeyCount, _ => Black(KeyBounds))
      ensures stripImage == Black(StripBounds)
      ensures keyHandlers[..] == seq(KeyCount, _ => [])
      ensures dialRotateHandlers[..] == seq(DialCount, _ => []) && dialSwitchHandlers[..] == seq(DialCount, _ => [])
      ensures stripTouchHandlers == [] && stripSwipeHandlers == []
    {
      open := false;
      brightness := 80;
      keyImages := new Image[KeyCount](_ => Black(KeyBounds));
      stripImage := Black(StripBounds);
      keyHandlers := new seq<HandlerRef>[KeyCount](_ => []);
      dialRotateHandlers := new seq<HandlerRef>[DialCount](_ => []);
      dialSwitchHandlers := new seq<HandlerRef>[DialCount](_ => []);
      stripTouchHandlers := [];
      stripSwipeHandlers := [];
      listening := false;
      prevMousePressed := false;
      dragStart := Origin;
      dragStartTime := 0;
      dragging := false;
    }

    /** Fails when already open; afterwards the device is open either way. */
    method Open() returns (err: bool)
      modifies this`open
      ensures err <==> old(open)
      ensures open
    {
      if open {
        return true;
      }
      open := true;
      return false;
    }

    /** Fails when not open; afterwards the device is closed either way. */
    method Close() returns (err: bool)
      modifies this`open
      ensures err <==> !old(open)
      ensures !open
    {
      if !open {
        return true;
      }
      open := false;
      return false;
    }

    function IsOpen(): bool
      reads this`open
    {
      open
    }

    /** Refused on a closed device; otherwise the error channel is attached (and the call blocks, not modelled). */
    method Listen() returns (err: bool)
      modifies this`listening
      ensures err <==> !open
      ensures listening == (old(listening) || open)
    {
      if !open {
        return true;
      }
      listening := true;
      return false;
    }

    method SetBrightness(perc: Byte)
      modifies this`brightness
      ensures brightness == perc
    {
      brightness := perc;
    }

    /** A valid key gets a fresh 72x72 canvas with `img` drawn on it; any other ID is refused and nothing changes. */
    method SetKeyImage(key: KeyId, img: Image) returns (err: bool)
      requires Valid()
      modifies keyImages
      ensures err <==> !(1 <= key <= KeyCount)
      ensures err ==> keyImages[..] == old(keyImages[..])
      ensures !err ==> keyImages[..] == old(keyImages[..])[key - 1 := Composite(KeyBounds, [img])]
    {
      var idx := key as int - 1;
      if idx < 0 || idx >= KeyCount {
        return true;
      }
      keyImages[idx] := Composite(KeyBounds, [img]);
      return false;
    }

    method SetTouchStripImage(img: Image)
      modifies this`stripImage
      ensures stripImage == Composite(StripBounds, [img])
    {
      stripImage := Composite(StripBounds, [img]);
    }

    /** A valid key is set to black; any other ID is refused and nothing changes. */
    method ClearKey(key: KeyId) returns (err: bool)
      requires Valid()
      modifies keyImages
      ensures err <==> !(1 <= key <= KeyCount)
      ensures err ==> keyImages[..] == old(keyImages[..])
      ensures !err ==> keyImages[..] == old(keyImages[..])[key - 1 := Black(KeyBounds)]
    {
      var idx := key as int - 1;
      if idx < 0 || idx >= KeyCount {
        return true;
      }
      keyImages[idx] := Black(KeyBounds);
      return false;
    }

    /** Calls the callback on Key1..Key8 in order, stopping at the first key whose callback fails. */
    method ForEachKey(failing: set<KeyId>) returns (visited: seq<KeyId>, err: Option<KeyId>)
      ensures |visited| <= KeyCount && visited == AllKeys[..|visited|]
      ensures err.None? ==> visited == AllKeys && forall k :: k in AllKeys ==> k !in failing
      ensures err.Some? ==>
        && visited != [] && err.value == visited[|visited| - 1] && err.value in failing
        && forall j :: 0 <= j < |visited| - 1 ==> visited[j] !in failing
    {
      IdentifierRanges();
      visited := [];
      var i: KeyId := Key1;
      while i <= Key8
        invariant 1 <= i <= Key8 + 1
        invariant visited == AllKeys[..i - 1]
        invariant forall j :: 0 <= j < |visited| ==> visited[j] !in failing
      {
        visited := visited + [i];
        if i in failing {
          return visited, Some(i);
        }
        i := i + 1;
      }
      return visited, None;
    }

    /** Calls the callback on Dial1..Dial4 in order, stopping at the first dial whose callback fails. */
    method ForEachDial(failing: set<DialId>) returns (visited: seq<DialId>, err: Option<DialId>)
      ensures |visited| <= DialCount && visited == AllDials[..|visited|]
      ensures err.None? ==> visited == AllDials && forall d :: d in AllDials ==> d !in failing
      ensures err.Some? ==>
        && visited != [] && err.value == visited[|visited| - 1] && err.value in failing
        && forall j :: 0 <= j < |visited| - 1 ==> visited[j] !in failing
    {
      IdentifierRanges();
      visited := [];
      var i: DialId := Dial1;
      while i <= Dial4
        invariant 1 <= i <= Dial4 + 1
        invariant visited == AllDials[..i - 1]
        invariant forall j :: 0 <= j < |visited| ==> visited[j] !in failing
      {
        visited := visited + [i];
        if i in failing {
          return visited, Some(i);
        }
        i := i + 1;
      }
      return visited, None;
    }

    /** A valid key's handler list gets `h` appended; any other ID is refused and nothing changes. */
    method AddKeyHandler(key: KeyId, h: HandlerRef) returns (err: bool)
      requires Valid()
      modifies keyHandlers
      ensures err <==> !(1 <= key <= KeyCount)
      ensures err ==> keyHandlers[..] == old(keyHandlers[..])
      ensures !err ==> keyHandlers[..] == old(keyHandlers[..])[key - 1 := old(keyHandlers[key - 1]) + [h]]
      ensures !err ==> HandlersFor(KeyPressed(key)) == old(HandlersFor(KeyPressed(key))) + [h]
      ensures forall d: Dispatch :: d.InRange() && d != KeyPressed(key) ==> HandlersFor(d) == old(HandlersFor(d))
    {
      var idx := key as int - 1;
      if idx < 0 || idx >= KeyCount {
        return true;
      }
      keyHandlers[idx] := keyHandlers[idx] + [h];
      return false;
    }

    method AddDialRotateHandler(dial: DialId, h: HandlerRef) returns (err: bool)
      requires Valid()
      modifies dialRotateHandlers
      ensures err <==> !(1 <= dial <= DialCount)
      ensures err ==> dialRotateHandlers[..] == old(dialRotateHandlers[..])
      ensures !err ==> dialRotateHandlers[..] == old(dialRotateHandlers[..])[dial - 1 := old(dialRotateHandlers[dial - 1]) + [h]]
      ensures !err ==> forall delta: Int8 :: HandlersFor(DialRotated(dial, delta)) == old(HandlersFor(DialRotated(dial, delta))) + [h]
      ensures forall d: Dispatch :: d.InRange() && !(d.DialRotated? && d.dial == dial) ==> HandlersFor(d) == old(HandlersFor(d))
    {
      var idx := dial as int - 1;
      if idx < 0 || idx >= DialCount {
        return true;
      }
      dialRotateHandlers[idx] := dialRotateHandlers[idx] + [h];
      return false;
    }

    method AddDialSwitchHandler(dial: DialId, h: HandlerRef) returns (err: bool)
      requires Valid()
      modifies dialSwitchHandlers
      ensures err <==> !(1 <= dial <= DialCount)
      ensures err ==> dialSwitchHandlers[..] == old(dialSwitchHandlers[..])
      ensures !err ==> dialSwitchHandlers[..] == old(dialSwitchHandlers[..])[dial - 1 := old(dialSwitchHandlers[dial - 1]) + [h]]
      ensures !err ==> HandlersFor(DialPressed(dial)) == old(HandlersFor(DialPressed(dial))) + [h]
      ensures forall d: Dispatch :: d.InRange() && d != DialPressed(dial) ==> HandlersFor(d) == old(HandlersFor(d))
    {
      var idx := dial as int - 1;
      if idx < 0 || idx >= DialCount {
        return true;
      }
      dialSwitchHandlers[idx] := dialSwitchHandlers[idx] + [h];
      return false;
    }

    method AddTouchStripTouchHandler(h: HandlerRef)
      requires Valid()
      modifies this`stripTouchHandlers
      ensures stripTouchHandlers == old(stripTouchHandlers) + [h]
      ensures forall d: Dispatch :: d.StripTouched? ==> HandlersFor(d) == old(HandlersFor(d)) + [h]
      ensures forall d: Dispatch :: d.InRange() && !d.StripTouched? ==> HandlersFor(d) == old(HandlersFor(d))
    {
      stripTouchHandlers := stripTouchHandlers + [h];
    }

    method AddTouchStripSwipeHandler(h: HandlerRef)
      requires Valid()
      modifies this`stripSwipeHandlers
      ensures stripSwipeHandlers == old(stripSwipeHandlers) + [h]
      ensures forall d: Dispatch :: d.StripSwiped? ==> HandlersFor(d) == old(HandlersFor(d)) + [h]
      ensures forall d: Dispatch :: d.InRange() && !d.StripSwiped? ==> HandlersFor(d) == old(HandlersFor(d))
    {
      stripSwipeHandlers := stripSwipeHandlers + [h];
    }

    /**
     * The handler list a trigger reads: a key press reaches the key's list,
     * a dial press the dial's switch list, a rotation the dial's rotate list
     * whatever its delta, a tap or a swipe the strip's list. The hit tests
     * only produce IDs in range, which the trigger indexes unchecked.
     */
    function HandlersFor(d: Dispatch): (hs: seq<HandlerRef>)
      requires Valid() && d.InRange()
      reads keyHandlers, dialRotateHandlers, dialSwitchHandlers, this`stripTouchHandlers, this`stripSwipeHandlers
      ensures d.KeyPressed? ==> hs == keyHandlers[d.key - 1]
      ensures d.DialPressed? ==> hs == dialSwitchHandlers[d.dial - 1]
      ensures d.DialRotated? ==> hs == dialRotateHandlers[d.dial - 1]
      ensures d.StripTouched? ==> hs == stripTouchHandlers
      ensures d.StripSwiped? ==> hs == stripSwipeHandlers
    {
      match d
      case KeyPressed(k) => keyHandlers[k - 1]
      case DialPressed(n) => dialSwitchHandlers[n - 1]
      case DialRotated(n, _) => dialRotateHandlers[n - 1]
      case StripTouched(_, _) => stripTouchHandlers
      case StripSwiped(_, _) => stripSwipeHandlers
    }

    /**
     * `triggerKeyPress`, `triggerDialPress`, `triggerDialRotate`,
     * `triggerStripTouch` and `triggerStripSwipe`: every handler registered
     * for the event is called with it, once each, in registration order.
     */
    method Trigger(d: Dispatch) returns (calls: seq<Invocation>)
      requires Valid() && d.InRange()
      ensures |calls| == |HandlersFor(d)|
      ensures forall i :: 0 <= i < |calls| ==> calls[i] == Invocation(HandlersFor(d)[i], d)
    {
      var handlers := HandlersFor(d);
      calls := [];
      for i := 0 to |handlers|
        invariant |calls| == i
        invariant forall j :: 0 <= j < i ==> calls[j] == Invocation(handlers[j], d)
      {
        calls := calls + [Invocation(handlers[i], d)];
      }
    }

    /**
     * `handleInput`, one frame. A fresh click on a key or a dial fires its
     * press and ends the frame. A fresh click on the strip starts a drag; a
     * drag ends when the button is up, as a tap or a swipe. A wheel that moved
     * over a dial rotates that dial by the truncated, clamped steps, zero
     * included.
     */
    method HandleInput(f: Frame) returns (fired: seq<Dispatch>)
      modifies this`dragging, this`dragStart, this`dragStartTime, this`prevMousePressed
      ensures forall d :: d in fired ==> d.InRange()
      ensures var p := Point(f.mx, f.my);
        if f.justPressed && KeyHitFrom(0, p).Some? then
          && fired == [KeyPressed(KeyHitFrom(0, p).value)]
          && dragging == old(dragging) && dragStart == old(dragStart)
          && dragStartTime == old(dragStartTime) && prevMousePressed == old(prevMousePressed)
        else if f.justPressed && DialHitFrom(0, p).Some? then
          && fired == [DialPressed(DialHitFrom(0, p).value)]
          && dragging == old(dragging) && dragStart == old(dragStart)
          && dragStartTime == old(dragStartTime) && prevMousePressed == old(prevMousePressed)
        else
          var grabbed := f.justPressed && StripArea.Contains(p);
          var start := if grabbed then Point(f.mx - StripStartX, f.my - StripStartY) else old(dragStart);
          var startTime := if grabbed then f.now else old(dragStartTime);
          var released := (old(dragging) || grabbed) && !f.mousePressed;
          var release := if released
            then [ReleaseDispatch(start, ClampToStrip(f.mx - StripStartX, f.my - StripStartY), f.now - startTime)]
            else [];
          var wheel := if f.wheelMoved && DialHitFrom(0, p).Some?
            then [DialRotated(DialHitFrom(0, p).value, ClampDelta(f.wheel))]
            else [];
          && fired == release + wheel
          && dragging == ((old(dragging) || grabbed) && !released)
          && dragStart == start && dragStartTime == startTime
          && prevMousePressed == f.mousePressed
    {
      var p := Point(f.mx, f.my);
      if f.justPressed {
        var key := FindKey(p);
        if key.Some? {
          return [KeyPressed(key.value)];
        }
        var dial := FindDial(p);
        if dial.Some? {
          return [DialPressed(dial.value)];
        }
        if StripArea.Contains(p) {
          dragging := true;
          dragStart := Point(f.mx - StripStartX, f.my - StripStartY);
          dragStartTime := f.now;
        }
      }
      fired := [];
      if dragging && !f.mousePressed {
        var endPoint := ClampToStrip(f.mx - StripStartX, f.my - StripStartY);
        fired := [ReleaseDispatch(dragStart, endPoint, f.now - dragStartTime)];
        dragging := false;
      }
      if f.wheelMoved {
        var dial := FindDial(p);
        if dial.Some? {
          fired := fired + [DialRotated(dial.value, ClampDelta(f.wheel))];
        }
      }
      prevMousePressed := f.mousePressed;
    }
  }

  /** The key hit-test loop: the first key whose rectangle holds `p`. */
  method FindKey(p: Point) returns (key: Option<KeyId>)
    ensures key == KeyHitFrom(0, p)
  {
    var i := 0;
    while i < KeyCount
      invariant 0 <= i <= KeyCount
      invariant KeyHitFrom(0, p) == KeyHitFrom(i, p)
    {
      if KeyRect(i).Contains(p) {
        return Some(i + 1);
      }
      i := i + 1;
    }
    return None;
  }

  /** The dial hit-test loop: the first dial whose circle holds `p`. */
  method FindDial(p: Point) returns (dial: Option<DialId>)
    ensures dial == DialHitFrom(0, p)
  {
    var i := 0;
    while i < DialCount
      invariant 0 <= i <= DialCount
      invariant DialHitFrom(0, p) == DialHitFrom(i, p)
    {
      if OnDial(i, p) {
        return Some(i + 1);
      }
      i := i + 1;
    }
    return None;
  }

  /** Opening twice is refused; open, close and open again succeed. */
  /**
   * Two handlers on key 3 are both called, in order, on its press; key 4 has
   * none; key 9 is refused.
   */
  method RegistrationScenario() returns (first: bool, second: bool, bad: bool, onKey3: seq<Invocation>, onKey4: seq<Invocation>)
    ensures !first && !second && bad
    ensures onKey3 == [Invocation(7, KeyPressed(3)), Invocation(9, KeyPressed(3))]
    ensures onKey4 == []
  {
    var e := new Emulator();
    first := e.AddKeyHandler(3, 7);
    second := e.AddKeyHandler(3, 9);
    bad := e.AddKeyHandler(9, 5);
    onKey3 := e.Trigger(KeyPressed(3));
    onKey4 := e.Trigger(KeyPressed(4));
  }

  method ReopenScenario() returns (first: bool, again: bool, closed: bool, reopened: bool, stillOpen: bool)
    ensures !first && again && !closed && !reopened && stillOpen
  {
    var e := new Emulator();
    first := e.Open();
    again := e.Open();
    closed := e.Close();
    reopened := e.Open();
    stillOpen := e.IsOpen();
  }
}
