/**
 Pure decoding of the bytes the controller reports: the gesture identifier
 register and the four touch-value registers of the first touch point.
 */
module Decoding {

  import opened Bus

  // Gesture codes (the driver's Gesture type is a plain integer)
  const MOVE_UP: int := 0x10
  const MOVE_LEFT: int := 0x14
  const MOVE_DOWN: int := 0x18
  const MOVE_RIGHT: int := 0x1C
  const ZOOM_IN: int := 0x48
  const ZOOM_OUT: int := 0x49
  const NO_GESTURE: int := 0x00
  const GESTURE_UNKNOWN: int := 0xFF

  /** The named gestures, an independent view of the code table above. */
  datatype Gesture = MoveUp | MoveLeft | MoveDown | MoveRight | ZoomIn | ZoomOut | NoGesture | Unknown

  function Code(g: Gesture): int {
    match g
    case MoveUp => MOVE_UP
    case MoveLeft => MOVE_LEFT
    case MoveDown => MOVE_DOWN
    case MoveRight => MOVE_RIGHT
    case ZoomIn => ZOOM_IN
    case ZoomOut => ZOOM_OUT
    case NoGesture => NO_GESTURE
    case Unknown => GESTURE_UNKNOWN
  }

  /** The gestures the decoder passes through: the moves and the zooms. */
  predicate Decodable(g: Gesture) {
    g != NoGesture && g != Unknown
  }

  /** A gesture code paired with the error the driver returns beside it. */
  datatype GestureReply = GestureReply(code: int, err: Option<Error>)

  /** Decodes the gesture identifier byte: the six move and zoom codes come
      back as themselves, every other byte (0x00 included) as GESTURE_UNKNOWN
      with an "unknown response" error. */
  function DecodeGesture(b: bv8): (r: GestureReply)
    ensures r.err.None? <==> exists g :: Decodable(g) && Code(g) == b as int
    ensures r.err.None? ==> r.code == b as int
    ensures r.err.Some? ==> r == GestureReply(GESTURE_UNKNOWN, Some(UnknownResponse))
  {
    if b as int == MOVE_UP then assert Code(MoveUp) == b as int; GestureReply(MOVE_UP, None)
    else if b as int == MOVE_LEFT then assert Code(MoveLeft) == b as int; GestureReply(MOVE_LEFT, None)
    else if b as int == MOVE_DOWN then assert Code(MoveDown) == b as int; GestureReply(MOVE_DOWN, None)
    else if b as int == MOVE_RIGHT then assert Code(MoveRight) == b as int; GestureReply(MOVE_RIGHT, None)
    else if b as int == ZOOM_IN then assert Code(ZoomIn) == b as int; GestureReply(ZOOM_IN, None)
    else if b as int == ZOOM_OUT then assert Code(ZoomOut) == b as int; GestureReply(ZOOM_OUT, None)
    else
      assert forall g :: Decodable(g) ==> Code(g) != b as int;
      GestureReply(GESTURE_UNKNOWN, Some(UnknownResponse))
  }

  /** Every move or zoom gesture survives a trip through its byte. */
  lemma {:induction false} GestureRoundTrip(g: Gesture)
    requires Decodable(g)
    ensures 0 <= Code(g) < 256
    ensures DecodeGesture(Code(g) as bv8) == GestureReply(Code(g), None)
  {
    match g
    case MoveUp =>
    case MoveLeft =>
    case MoveDown =>
    case MoveRight =>
    case ZoomIn =>
    case ZoomOut =>
  }

  /** The declared "no gesture" byte is not decoded: it is reported as an
      unknown response, the same as any byte outside the table. */
  lemma NoGestureIsUnknown()
    ensures DecodeGesture(NO_GESTURE as bv8) == GestureReply(GESTURE_UNKNOWN, Some(UnknownResponse))
    ensures DecodeGesture(0x7F) == GestureReply(GESTURE_UNKNOWN, Some(UnknownResponse))
    ensures DecodeGesture(0x48) == GestureReply(ZOOM_IN, None)
  {
  }

  /** The first touch point, in the controller's 12-bit coordinate space. */
  datatype TouchPoint = TouchPoint(x: int, y: int)

  /** The 12-bit join of the low nibble of `hi` with all of `lo`. */
  function Join(hi: bv8, lo: bv8): bv16 {
    (((hi as bv16) & 0x0F) << 8) | lo as bv16
  }

  /** The 12-bit coordinate formed by the low nibble of `hi` and all of `lo`.
      The high nibble of `hi` (event flags or touch id) does not contribute. */
  function Coordinate(hi: bv8, lo: bv8): (c: int)
    ensures 0 <= c < 4096
    ensures c == (hi as int % 16) * 256 + lo as int
  {
    JoinValue(hi, lo);
    Join(hi, lo) as int
  }

  lemma JoinValue(hi: bv8, lo: bv8)
    ensures ((((hi as bv16) & 0x0F) << 8) | lo as bv16) as int == (hi as int % 16) * 256 + lo as int
  {
  }

  /** Decodes the four touch-value bytes [xHigh, xLow, yHigh, yLow]. */
  function DecodeTouchPoint(b0: bv8, b1: bv8, b2: bv8, b3: bv8): (p: TouchPoint)
    ensures 0 <= p.x < 4096 && 0 <= p.y < 4096
    ensures p.x == (b0 as int % 16) * 256 + b1 as int
    ensures p.y == (b2 as int % 16) * 256 + b3 as int
  {
    TouchPoint(Coordinate(b0, b1), Coordinate(b2, b3))
  }

  /** Masking the byte before widening, as the source does for y, is the same
      as masking after, as it does for x. */
  lemma MaskCommutesWithWidening(b: bv8)
    ensures (b & 0x0F) as bv16 == (b as bv16) & 0x0F
  {
  }

  /** The bytes a controller sends for the point (x, y), with `xFlags` and
      `yFlags` in the high nibbles of the two high bytes. */
  function EncodeTouchPoint(x: bv16, y: bv16, xFlags: bv8, yFlags: bv8): (bytes: seq<bv8>)
    requires x < 4096 && y < 4096
    requires xFlags < 16 && yFlags < 16
    ensures |bytes| == 4
  {
    [ (xFlags << 4) | (x >> 8) as bv8, (x & 0xFF) as bv8,
      (yFlags << 4) | (y >> 8) as bv8, (y & 0xFF) as bv8 ]
  }

  /** Decoding recovers the point whatever the flag nibbles are. */
  lemma {:induction false} DecodeEncode(x: bv16, y: bv16, xFlags: bv8, yFlags: bv8)
    requires x < 4096 && y < 4096
    requires xFlags < 16 && yFlags < 16
    ensures var b := EncodeTouchPoint(x, y, xFlags, yFlags);
            DecodeTouchPoint(b[0], b[1], b[2], b[3]) == TouchPoint(x as int, y as int)
  {
    var b := EncodeTouchPoint(x, y, xFlags, yFlags);
    JoinOfSplit(x, xFlags);
    JoinOfSplit(y, yFlags);
    assert Coordinate(b[0], b[1]) == x as int;
    assert Coordinate(b[2], b[3]) == y as int;
  }

  lemma JoinOfSplit(c: bv16, flags: bv8)
    requires c < 4096 && flags < 16
    ensures Join((flags << 4) | (c >> 8) as bv8, (c & 0xFF) as bv8) == c
  {
  }

  /** Two readings decode to the same point exactly when they agree in
      everything but the high nibbles of the two high bytes: those nibbles
      are all the decoder loses. */
  lemma {:induction false} SameDecodeIff(b0: bv8, b1: bv8, b2: bv8, b3: bv8, c0: bv8, c1: bv8, c2: bv8, c3: bv8)
    ensures DecodeTouchPoint(b0, b1, b2, b3) == DecodeTouchPoint(c0, c1, c2, c3) <==>
      b0 & 0x0F == c0 & 0x0F && b1 == c1 && b2 & 0x0F == c2 & 0x0F && b3 == c3
  {
    SameCoordinateIff(b0, b1, c0, c1);
    SameCoordinateIff(b2, b3, c2, c3);
  }

  lemma {:induction false} SameCoordinateIff(hi: bv8, lo: bv8, hi': bv8, lo': bv8)
    ensures Coordinate(hi, lo) == Coordinate(hi', lo') <==> hi & 0x0F == hi' & 0x0F && lo == lo'
  {
    LowNibble(hi);
    LowNibble(hi');
    SameCoordinate(hi as int % 16, lo as int, hi' as int % 16, lo' as int);
    SameByteValue(hi & 0x0F, hi' & 0x0F);
    SameByteValue(lo, lo');
  }

  lemma {:induction false} SameCoordinate(h: int, l: int, h': int, l': int)
    requires 0 <= h < 16 && 0 <= l < 256 && 0 <= h' < 16 && 0 <= l' < 256
    ensures h * 256 + l == h' * 256 + l' <==> h == h' && l == l'
  {
  }

  lemma SameByteValue(a: bv8, b: bv8)
    ensures a as int == b as int <==> a == b
  {
  }

  lemma LowNibble(b: bv8)
    ensures (b & 0x0F) as int == b as int % 16
  {
  }

  /** The worked example: [0x01, 0x23, 0x04, 0x56] is the point (0x123, 0x456). */
  lemma TouchPointExample()
    ensures DecodeTouchPoint(0x01, 0x23, 0x04, 0x56) == TouchPoint(291, 1110)
  {
  }
}
