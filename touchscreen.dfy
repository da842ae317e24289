/**
 The touchscreen driver object. Each register operation is specified by a
 function of the driver's type field and of the transfer's outcome, which
 says what the operation returns and which bus requests it makes; the class
 methods do the work step by step, keep the I/O trace, and are proved to
 agree with those functions.
 */
module Driver {

  import opened Bus
  import opened Registers
  import opened Decoding
  import opened Latch

  /** The default threshold, 50% sensitivity. */
  const THRESHOLD_DEFAULT: bv8 := 0x80

  /** A returned value, the error returned beside it, and the bus requests made. */
  datatype Outcome<T> = Outcome(value: T, err: Option<Error>, io: seq<IoOp>)

  /** Writing the default threshold. A write failure is reported as a
      threshold error, whatever the transport said. */
  function WriteThreshold(tt: int, writeErr: Option<Error>): (o: Outcome<()>)
    ensures !Recognised(tt) ==> o == Outcome((), Some(UnrecognisedType), [])
    ensures Recognised(tt) ==> o.io == [WriteReg(0x80, [0x80])]
    ensures Recognised(tt) ==> (o.err.None? <==> writeErr.None?)
    ensures Recognised(tt) && writeErr.Some? ==> o.err == Some(ThresholdFailed)
  {
    match Address(tt, Threshold)
    case None => Outcome((), Some(UnrecognisedType), [])
    case Some(reg) =>
      Outcome((), if writeErr.Some? then Some(ThresholdFailed) else None, [WriteReg(reg, [THRESHOLD_DEFAULT])])
  }

  /** Reading a one-byte identification register. The byte left in the buffer
      is returned even when the read failed; an unrecognised type returns 0. */
  function ReadIdByte(tt: int, r: Reg, reply: Transfer): (o: Outcome<bv8>)
    requires r == ChipVendId || r == CtpmVendId
    requires |reply.buf| == 1
    ensures !Recognised(tt) ==> o == Outcome(0, Some(UnrecognisedType), [])
    ensures Recognised(tt) ==> o.io == [ReadReg(Address(tt, r).value, 1)] && o.value == reply.buf[0]
    ensures Recognised(tt) ==> (o.err.None? <==> reply.err.None?)
    ensures Recognised(tt) && o.err.Some? ==> o.err == Some(VendorRegReadFailed)
  {
    match Address(tt, r)
    case None => Outcome(0, Some(UnrecognisedType), [])
    case Some(reg) =>
      Outcome(reply.buf[0], if reply.err.Some? then Some(VendorRegReadFailed) else None, [ReadReg(reg, 1)])
  }

  /** The chip vendor id, register 0xA3. */
  function ReadVendorId(tt: int, reply: Transfer): (o: Outcome<bv8>)
    requires |reply.buf| == 1
    ensures Recognised(tt) ==> o.io == [ReadReg(0xA3, 1)] && o.value == reply.buf[0]
    ensures Recognised(tt) ==> o.err == if reply.err.Some? then Some(VendorRegReadFailed) else None
    ensures !Recognised(tt) ==> o.io == [] && o.value == 0 && o.err == Some(UnrecognisedType)
  {
    ReadIdByte(tt, ChipVendId, reply)
  }

  /** The CTPM vendor id, register 0xA8. */
  function ReadCtpmVendorId(tt: int, reply: Transfer): (o: Outcome<bv8>)
    requires |reply.buf| == 1
    ensures Recognised(tt) ==> o.io == [ReadReg(0xA8, 1)] && o.value == reply.buf[0]
    ensures Recognised(tt) ==> o.err == if reply.err.Some? then Some(VendorRegReadFailed) else None
    ensures !Recognised(tt) ==> o.io == [] && o.value == 0 && o.err == Some(UnrecognisedType)
  {
    ReadIdByte(tt, CtpmVendId, reply)
  }

  /** Polling the touch count: the guards, then one step of the latch. Every
      failure returns 0 and leaves the latch as it was. */
  function ReadTouchCount(bound: bool, tt: int, latched: bool, reply: Transfer): (o: Outcome<Step>)
    requires |reply.buf| == 1
    ensures !bound ==> o == Outcome(Step(0, latched), Some(NotInitialised), [])
    ensures bound && !Recognised(tt) ==> o == Outcome(Step(0, latched), Some(UnrecognisedType), [])
    ensures bound && Recognised(tt) ==> o.io == [ReadReg(0x02, 1)]
    ensures bound && Recognised(tt) && reply.err.Some? ==>
      o.value == Step(0, latched) && o.err == Some(CountRegReadFailed)
    ensures bound && Recognised(tt) && reply.err.None? ==>
      o.err.None? && o.value == Poll(latched, Some(reply.buf[0]))
    ensures 0 <= o.value.count <= 2
  {
    if !bound then Outcome(Step(0, latched), Some(NotInitialised), [])
    else match Address(tt, TouchCount)
      case None => Outcome(Step(0, latched), Some(UnrecognisedType), [])
      case Some(reg) =>
        if reply.err.Some? then Outcome(Step(0, latched), Some(CountRegReadFailed), [ReadReg(reg, 1)])
        else Outcome(Poll(latched, Some(reply.buf[0])), None, [ReadReg(reg, 1)])
  }

  /** Reading the gesture register. A failed read returns GESTURE_UNKNOWN with
      the transport's own error; an unrecognised type returns 0. */
  function ReadGesture(tt: int, reply: Transfer): (o: Outcome<int>)
    requires |reply.buf| == 1
    ensures !Recognised(tt) ==> o == Outcome(0, Some(UnrecognisedType), [])
    ensures Recognised(tt) ==> o.io == [ReadReg(0x01, 1)]
    ensures Recognised(tt) && reply.err.Some? ==> o.value == GESTURE_UNKNOWN && o.err == reply.err
    ensures Recognised(tt) && reply.err.None? ==> GestureReply(o.value, o.err) == DecodeGesture(reply.buf[0])
  {
    match Address(tt, GestureId)
    case None => Outcome(0, Some(UnrecognisedType), [])
    case Some(reg) =>
      if reply.err.Some? then Outcome(GESTURE_UNKNOWN, reply.err, [ReadReg(reg, 1)])
      else
        var g := DecodeGesture(reply.buf[0]);
        Outcome(g.code, g.err, [ReadReg(reg, 1)])
  }

  /** No byte decodes to NO_GESTURE: its value 0 comes back only beside the
      unrecognised-type error, so a 0 gesture means the type was not set. */
  lemma {:induction false} NoGestureMeansTypeError(tt: int, reply: Transfer)
    requires |reply.buf| == 1
    ensures ReadGesture(tt, reply).value == NO_GESTURE <==> !Recognised(tt)
    ensures ReadGesture(tt, reply).value == NO_GESTURE ==> ReadGesture(tt, reply).err == Some(UnrecognisedType)
  {
  }

  /** Reading the first touch point from the four touch-value registers.
      Every failure returns the point (0, 0). */
  function ReadTouchPoint(tt: int, reply: Transfer): (o: Outcome<TouchPoint>)
    requires |reply.buf| == 4
    ensures !Recognised(tt) ==> o == Outcome(TouchPoint(0, 0), Some(UnrecognisedType), [])
    ensures Recognised(tt) ==> o.io == [ReadReg(0x03, 4)]
    ensures Recognised(tt) && reply.err.Some? ==> o.value == TouchPoint(0, 0) && o.err == Some(TouchRegReadFailed)
    ensures Recognised(tt) && reply.err.None? ==>
      o.err.None? && o.value == DecodeTouchPoint(reply.buf[0], reply.buf[1], reply.buf[2], reply.buf[3])
    ensures 0 <= o.value.x < 4096 && 0 <= o.value.y < 4096
  {
    match Address(tt, TouchVal)
    case None => Outcome(TouchPoint(0, 0), Some(UnrecognisedType), [])
    case Some(reg) =>
      if reply.err.Some? then Outcome(TouchPoint(0, 0), Some(TouchRegReadFailed), [ReadReg(reg, 4)])
      else Outcome(DecodeTouchPoint(reply.buf[0], reply.buf[1], reply.buf[2], reply.buf[3]), None, [ReadReg(reg, 4)])
  }

  /** Every register operation touches the bus exactly when the type is
      recognised, and then with a single request. */
  lemma BusUsedIffRecognised(tt: int, writeErr: Option<Error>, one: Transfer, four: Transfer, latched: bool)
    requires |one.buf| == 1 && |four.buf| == 4
    ensures |WriteThreshold(tt, writeErr).io| == if Recognised(tt) then 1 else 0
    ensures |ReadVendorId(tt, one).io| == if Recognised(tt) then 1 else 0
    ensures |ReadCtpmVendorId(tt, one).io| == if Recognised(tt) then 1 else 0
    ensures |ReadTouchCount(true, tt, latched, one).io| == if Recognised(tt) then 1 else 0
    ensures |ReadGesture(tt, one).io| == if Recognised(tt) then 1 else 0
    ensures |ReadTouchPoint(tt, four).io| == if Recognised(tt) then 1 else 0
  {
  }

  /** The driver object. `Device` is None until Init opens the bus; `Trace`
      records, in order, every request the driver made to the transport. */
  class TouchScreen {
    var Device: Option<Handle>
    var Touched: bool
    var Debug: bool
    var TType: int
    ghost var Trace: seq<IoOp>

    /** A zero-valued driver: no device, no type, latch clear. */
    constructor ()
      ensures Device.None? && !Touched && !Debug && TType == 0 && Trace == []
    {
      Device := None;
      Touched := false;
      Debug := false;
      TType := 0;
      Trace := [];
    }

    /** Opens the bus and sets the defaults. The threshold is written before
        the type is stored, so it is written for the type held before the
        call, and its error is discarded. */
    method Init(tt: int, openErr: Option<Error>, writeErr: Option<Error>) returns (err: Option<Error>)
      modifies this
      ensures old(Device).Some? ==> err == Some(AlreadyInitialised) && unchanged(this)
      ensures old(Device).None? && openErr.Some? ==>
        && err == openErr && Device.None?
        && TType == old(TType) && Touched == old(Touched) && Debug == old(Debug)
        && Trace == old(Trace) + [Open(DEV_PATH, DEV_ADDR)]
      ensures old(Device).None? && openErr.None? ==>
        && err.None? && Device == Some(Handle(DEV_PATH, DEV_ADDR))
        && TType == tt && !Touched && !Debug
        && Trace == old(Trace) + [Open(DEV_PATH, DEV_ADDR)] + WriteThreshold(old(TType), writeErr).io
    {
      if Device.Some? {
        return Some(AlreadyInitialised);
      }
      Trace := Trace + [Open(DEV_PATH, DEV_ADDR)];
      if openErr.Some? {
        return openErr;
      }
      Device := Some(Handle(DEV_PATH, DEV_ADDR));
      var ignored := SetThreshold(writeErr);
      TType := tt;
      Touched := false;
      Debug := false;
      return None;
    }

    /** Init with the type stored before the threshold is written. */
    method InitThresholdForType(tt: int, openErr: Option<Error>, writeErr: Option<Error>) returns (err: Option<Error>)
      modifies this
      ensures old(Device).Some? ==> err == Some(AlreadyInitialised) && unchanged(this)
      ensures old(Device).None? && openErr.Some? ==>
        && err == openErr && Device.None?
        && TType == old(TType) && Touched == old(Touched) && Debug == old(Debug)
        && Trace == old(Trace) + [Open(DEV_PATH, DEV_ADDR)]
      ensures old(Device).None? && openErr.None? ==>
        && err.None? && Device == Some(Handle(DEV_PATH, DEV_ADDR))
        && TType == tt && !Touched && !Debug
        && Trace == old(Trace) + [Open(DEV_PATH, DEV_ADDR)] + WriteThreshold(tt, writeErr).io
      ensures old(Device).None? && openErr.None? && Recognised(tt) ==>
        Trace == old(Trace) + [Open(DEV_PATH, DEV_ADDR), WriteReg(0x80, [0x80])]
    {
      if Device.Some? {
        return Some(AlreadyInitialised);
      }
      Trace := Trace + [Open(DEV_PATH, DEV_ADDR)];
      if openErr.Some? {
        return openErr;
      }
      Device := Some(Handle(DEV_PATH, DEV_ADDR));
      TType := tt;
      var ignored := SetThreshold(writeErr);
      Touched := false;
      Debug := false;
      return None;
    }

    method SetThreshold(writeErr: Option<Error>) returns (err: Option<Error>)
      requires Device.Some? || !Recognised(TType)
      modifies this`Trace
      ensures err == WriteThreshold(TType, writeErr).err
      ensures Trace == old(Trace) + WriteThreshold(TType, writeErr).io
    {
      var reg: bv8;
      if TType == FT62XX {
        reg := FT62XXAddress(Threshold);
      } else if TType == FT5X06 {
        reg := FT5X06Address(Threshold);
      } else {
        return Some(UnrecognisedType);
      }
      Trace := Trace + [WriteReg(reg, [THRESHOLD_DEFAULT])];
      if writeErr.Some? {
        return Some(ThresholdFailed);
      }
      return None;
    }

    method GetVendorID(reply: Transfer) returns (id: bv8, err: Option<Error>)
      requires Device.Some? || !Recognised(TType)
      requires |reply.buf| == 1
      modifies this`Trace
      ensures id == ReadVendorId(TType, reply).value && err == ReadVendorId(TType, reply).err
      ensures Trace == old(Trace) + ReadVendorId(TType, reply).io
    {
      id, err := ReadIdRegister(ChipVendId, reply);
    }

    method GetCTPMVendorId(reply: Transfer) returns (id: bv8, err: Option<Error>)
      requires Device.Some? || !Recognised(TType)
      requires |reply.buf| == 1
      modifies this`Trace
      ensures id == ReadCtpmVendorId(TType, reply).value && err == ReadCtpmVendorId(TType, reply).err
      ensures Trace == old(Trace) + ReadCtpmVendorId(TType, reply).io
    {
      id, err := ReadIdRegister(CtpmVendId, reply);
    }

    /** The shared body of the two identification reads. */
    method ReadIdRegister(r: Reg, reply: Transfer) returns (id: bv8, err: Option<Error>)
      requires r == ChipVendId || r == CtpmVendId
      requires Device.Some? || !Recognised(TType)
      requires |reply.buf| == 1
      modifies this`Trace
      ensures id == ReadIdByte(TType, r, reply).value && err == ReadIdByte(TType, r, reply).err
      ensures Trace == old(Trace) + ReadIdByte(TType, r, reply).io
    {
      var reg: bv8;
      if TType == FT62XX {
        reg := FT62XXAddress(r);
      } else if TType == FT5X06 {
        reg := FT5X06Address(r);
      } else {
        return 0, Some(UnrecognisedType);
      }
      Trace := Trace + [ReadReg(reg, 1)];
      var buf := reply.buf;
      if reply.err.Some? {
        return buf[0], Some(VendorRegReadFailed);
      }
      return buf[0], None;
    }

    /** The number of touches, or 0 if this touch was already reported. */
    method GetTouchesCount(reply: Transfer) returns (count: int, err: Option<Error>)
      requires |reply.buf| == 1
      modifies this`Touched, this`Trace
      ensures count == ReadTouchCount(Device.Some?, TType, old(Touched), reply).value.count
      ensures err == ReadTouchCount(Device.Some?, TType, old(Touched), reply).err
      ensures Touched == ReadTouchCount(Device.Some?, TType, old(Touched), reply).value.latched
      ensures Trace == old(Trace) + ReadTouchCount(Device.Some?, TType, old(Touched), reply).io
    {
      if Device.None? {
        return 0, Some(NotInitialised);
      }
      var reg: bv8;
      if TType == FT62XX {
        reg := FT62XXAddress(TouchCount);
      } else if TType == FT5X06 {
        reg := FT5X06Address(TouchCount);
      } else {
        return 0, Some(UnrecognisedType);
      }
      Trace := Trace + [ReadReg(reg, 1)];
      if reply.err.Some? {
        return 0, Some(CountRegReadFailed);
      }
      var touchCount := reply.buf[0] as int;
      if touchCount > 2 {
        touchCount := 0;
      }
      if Touched && touchCount == 0 {
        Touched := false;
        return 0, None;
      }
      if Touched {
        // already reported this touch
        return 0, None;
      }
      if touchCount > 0 && touchCount < 3 {
        Touched := true;
      }
      return touchCount, None;
    }

    method GetGestureType(reply: Transfer) returns (gesture: int, err: Option<Error>)
      requires Device.Some? || !Recognised(TType)
      requires |reply.buf| == 1
      modifies this`Trace
      ensures gesture == ReadGesture(TType, reply).value && err == ReadGesture(TType, reply).err
      ensures Trace == old(Trace) + ReadGesture(TType, reply).io
    {
      var reg: bv8;
      if TType == FT62XX {
        reg := FT62XXAddress(GestureId);
      } else if TType == FT5X06 {
        reg := FT5X06Address(GestureId);
      } else {
        return 0, Some(UnrecognisedType);
      }
      Trace := Trace + [ReadReg(reg, 1)];
      if reply.err.Some? {
        return GESTURE_UNKNOWN, reply.err;
      }
      var b := reply.buf[0] as int;
      if b == MOVE_UP {
        return MOVE_UP, None;
      } else if b == MOVE_LEFT {
        return MOVE_LEFT, None;
      } else if b == MOVE_DOWN {
        return MOVE_DOWN, None;
      } else if b == MOVE_RIGHT {
        return MOVE_RIGHT, None;
      } else if b == ZOOM_IN {
        return ZOOM_IN, None;
      } else if b == ZOOM_OUT {
        return ZOOM_OUT, None;
      } else {
        return GESTURE_UNKNOWN, Some(UnknownResponse);
      }
    }

    /** The first touch point; only one touch is decoded. */
    method GetTouches(reply: Transfer) returns (p: TouchPoint, err: Option<Error>)
      requires Device.Some? || !Recognised(TType)
      requires |reply.buf| == 4
      modifies this`Trace
      ensures p == ReadTouchPoint(TType, reply).value && err == ReadTouchPoint(TType, reply).err
      ensures Trace == old(Trace) + ReadTouchPoint(TType, reply).io
    {
      p := TouchPoint(0, 0);
      var reg: bv8;
      if TType == FT62XX {
        reg := FT62XXAddress(TouchVal);
      } else if TType == FT5X06 {
        reg := FT5X06Address(TouchVal);
      } else {
        return p, Some(UnrecognisedType);
      }
      Trace := Trace + [ReadReg(reg, 4)];
      if reply.err.Some? {
        return p, Some(TouchRegReadFailed);
      }
      var buf := reply.buf;
      // mask off the high nibble and join it to the low byte
      var x := (buf[0] as bv16) & 0x0F;
      x := x << 8;
      x := x | buf[1] as bv16;
      var y := (buf[2] & 0x0F) as bv16;
      y := y << 8;
      y := y | buf[3] as bv16;
      assert x as int == Coordinate(buf[0], buf[1]);
      assert y as int == Coordinate(buf[2], buf[3]) by { MaskCommutesWithWidening(buf[2]); }
      p := TouchPoint(x as int, y as int);
      assert ReadTouchPoint(TType, reply) == Outcome(p, None, [ReadReg(reg, 4)]);
      return p, None;
    }
  }

  /** On a freshly made driver the type is still unset when Init writes the
      threshold, so no threshold write ever reaches the bus. */
  method InitOnFreshDriver(tt: int) returns (t: TouchScreen, err: Option<Error>)
    requires Recognised(tt)
    ensures err.None? && t.Device.Some? && t.TType == tt
    ensures t.Trace == [Open(DEV_PATH, DEV_ADDR)]
    ensures forall op :: op in t.Trace ==> !op.WriteReg?
  {
    t := new TouchScreen();
    err := t.Init(tt, None, None);
  }

  /** With the type stored first, the same start-up writes the threshold. */
  method InitThresholdOnFreshDriver(tt: int) returns (t: TouchScreen, err: Option<Error>)
    requires Recognised(tt)
    ensures err.None? && t.Device.Some? && t.TType == tt
    ensures t.Trace == [Open(DEV_PATH, DEV_ADDR), WriteReg(0x80, [0x80])]
  {
    t := new TouchScreen();
    err := t.InitThresholdForType(tt, None, None);
  }

  /** A second Init fails and leaves the first binding in place. */
  method InitTwice(tt: int, other: int) returns (t: TouchScreen, first: Option<Error>, second: Option<Error>)
    ensures first.None? && second == Some(AlreadyInitialised)
    ensures t.Device == Some(Handle(DEV_PATH, DEV_ADDR)) && t.TType == tt
  {
    t := new TouchScreen();
    first := t.Init(tt, None, None);
    second := t.Init(other, None, None);
  }

  /** Before Init the type is unset, so every register operation returns the
      type error without touching the bus (and without needing a device). */
  method QueryFreshDriver(one: Transfer, four: Transfer) returns (t: TouchScreen, errs: seq<Option<Error>>)
    requires |one.buf| == 1 && |four.buf| == 4
    ensures errs == [Some(UnrecognisedType), Some(UnrecognisedType), Some(UnrecognisedType),
                     Some(UnrecognisedType), Some(UnrecognisedType), Some(NotInitialised)]
    ensures t.Device.None? && !t.Touched && t.Trace == []
  {
    t := new TouchScreen();
    var e1 := t.SetThreshold(None);
    var id, e2 := t.GetVendorID(one);
    var ctpm, e3 := t.GetCTPMVendorId(one);
    var g, e4 := t.GetGestureType(one);
    var p, e5 := t.GetTouches(four);
    var n, e6 := t.GetTouchesCount(one);
    errs := [e1, e2, e3, e4, e5, e6];
  }
}
