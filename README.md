# FTXXXX touchscreen driver — a Dafny model

This project models the Go driver for the FT62XX and FT5X06 capacitive
touchscreen controllers (`TouchScreen` in `main.go`). The driver talks to
the controller over I2C. It opens the device, sets the type, writes a
default touch threshold (`SetThreshold`), reads the two vendor-id registers, and polls three things: the
touch count, the gesture register and the first touch point.

The model has five modules:

- `Bus` (bus.dfy) holds the transport as the driver sees it. It defines the
  error values, the device path and address, the I/O requests (`Open`,
  `ReadReg`, `WriteReg`), and `Transfer`. A `Transfer` is the outcome of one
  register read: what the buffer holds afterwards, plus the transport's error.
- `Registers` (registers.dfy) holds the type constants `FT62XX = 1` and
  `FT5X06 = 2` and the register table of each family. `Address` is the lookup
  that fails for an unset or unrecognised type.
- `Decoding` (decoding.dfy) holds the gesture table and the 12-bit
  touch-point decoder. Beside them sit an independent `Gesture` enumeration
  and a touch-point encoder, with round-trip lemmas.
- `Latch` (latch.dfy) holds the touch-count de-duplication latch. `Poll` is
  one poll and `Run` a series of polls. `LatchAfter` is a reference view: the
  latch is set exactly when the last successful read saw a touch. The lemmas
  show that a held touch is reported once, on its rising edge, and reported
  again after a lift.
- `Driver` (touchscreen.dfy) holds one specification function per register
  operation and the `TouchScreen` class. A specification function gives the
  value the operation returns, its error, and the bus requests it makes. The
  class has the driver's fields `Device`, `Touched`, `Debug` and `TType`,
  plus a ghost I/O `Trace`. Its methods follow the Go code branch by branch
  and are proved to agree with the specification functions.

The bus is passed in from outside. Every method that reads takes the
read's outcome (`Transfer`) as a parameter, `SetThreshold` takes the write's
error, and `Init` takes the open error and the write error. Each method
appends the requests it made to `Trace`. So "performs no I/O" reads as
`Trace == old(Trace)`, and "writes `[0x80]` to register `0x80`" is a
statement about `Trace`.

Three behaviours of the code are kept as written:

- Byte `0x00` is not decoded to `NO_GESTURE`. Like any byte outside the
  table, it yields `GESTURE_UNKNOWN` with an "unknown response" error
  (main.go:191-205). No byte decodes to `NO_GESTURE`. Its value 0 is
  returned only beside the unrecognised-type error (main.go:184).
- `Init` calls `SetThreshold` before it stores the new type, and it discards
  the threshold error (main.go:69-76). See Findings.
- Each failing read returns the error text of its own method, and the model
  keeps them apart: `VendorRegReadFailed`, `CountRegReadFailed` and
  `TouchRegReadFailed`. A failed gesture read returns the transport's own
  error unchanged (main.go:187-189).

## Model

| member | source | states |
|---|---|---|
| `Registers.Address` | main.go:85-91 | a register can be addressed exactly when the type is FT62XX (1) or FT5X06 (2); this is the type dispatch each register method repeats (also main.go:104-109, 121-126, 144-150, 179-185, 215-221), over the tables at main.go:11-25 |
| `Registers.FamiliesShareLayout` | main.go:11-25 | both families have the same register addresses: vendor 0xA3, CTPM vendor 0xA8, count 0x02, touch values 0x03, threshold 0x80, gesture 0x01 |
| `Decoding.DecodeGesture` | main.go:191-205 | the decode has no error exactly when the byte is the code of a move or zoom gesture, and then it returns that byte; every other byte gives GESTURE_UNKNOWN (0xFF) with the unknown-response error |
| `Decoding.GestureRoundTrip` | main.go:42-48 | each of the six move and zoom gestures decodes from its byte back to itself with no error |
| `Decoding.NoGestureIsUnknown` | main.go:49-50 | 0x00 (NO_GESTURE) and 0x7F decode to GESTURE_UNKNOWN with an error; 0x48 decodes to ZOOM_IN |
| `Decoding.Coordinate` | main.go:227-230 | the masked, shifted and joined coordinate equals (hi mod 16) * 256 + lo and lies in [0, 4095] |
| `Decoding.DecodeTouchPoint` | main.go:227-234 | both coordinates lie in [0, 4095]; x is built from the low nibble of byte 0 and byte 1, y from the low nibble of byte 2 and byte 3 |
| `Decoding.DecodeEncode` | main.go:227-234 | coordinates below 4096, split into bytes with any flag nibbles in the high bytes, decode back to the same point |
| `Decoding.SameDecodeIff` | main.go:227-234 | two readings decode to the same point exactly when they agree in bytes 1 and 3 and in the low nibbles of bytes 0 and 2, so the high nibbles are all the decoder loses |
| `Decoding.TouchPointExample` | main.go:227-234 | the bytes [0x01, 0x23, 0x04, 0x56] decode to (291, 1110) |
| `Latch.Normalize` | main.go:156-159 | a clamped count lies in 0..2; a count up to 2 is kept; the result is 0 exactly when the raw count is 0 or above 2 |
| `Latch.Poll` | main.go:156-173 | after a successful read the latch is "clamped count > 0", and the poll returns 0 if the latch was set and the clamped count otherwise; a poll returns non-zero exactly when it sets a clear latch; a failed read returns 0 and keeps the latch |
| `Latch.NoiseActsAsLift` | main.go:156-163 | a raw count above 2 acts exactly like 0, so it clears a set latch too |
| `Latch.Run` | main.go:137-174 | a series of polls returns one count per poll, each in 0..2 |
| `Latch.LatchAfterCons` | main.go:160-172 | the reference latch after a first poll and then the rest equals the reference latch of the rest, started from that first poll's latch |
| `Latch.RunLatch` | main.go:160-172 | the latch left by a series of polls is set exactly when the last successful read saw a touch, or is the initial latch if no read succeeded |
| `Latch.RunAt` | main.go:135-136 | poll i returns the clamped count when its read succeeded and the latch before it was clear, and 0 otherwise; every returned count lies in 0..2 |
| `Latch.LatchHeld` | main.go:165-168 | once a read sees a touch, the latch stays set until a lift is read, whatever reads fail in between |
| `Latch.ReportedOnce` | main.go:135-136 | between any two polls that report a touch, some poll read a lift, so a sustained touch is reported only once |
| `Latch.ReportedAfterLift` | main.go:160-173 | a touch read right after a lift is reported with its count, so the latch can be reused |
| `Latch.Examples` | main.go:156-173 | from a clear latch, raw counts [0,1,1,1,0] give [0,1,0,0,0] and [1,1,0,1] give [1,0,0,1] |
| `Driver.WriteThreshold` | main.go:81-99 | an unrecognised type gives a type error and no bus access; otherwise exactly one write of [0x80] to register 0x80, and any write failure becomes the threshold error |
| `Driver.ReadIdByte` | main.go:101-133 | an unrecognised type returns 0 with a type error and no bus access; otherwise one 1-byte read of the family's register, returning the buffer byte even on failure, with the vendor-read error exactly when the read failed |
| `Driver.ReadVendorId` | main.go:101-116 | with a recognised type, one 1-byte read of register 0xA3 whose byte is returned, with the vendor-read error exactly when the read failed; with an unrecognised type, 0, a type error and no bus access |
| `Driver.ReadCtpmVendorId` | main.go:118-133 | with a recognised type, one 1-byte read of register 0xA8 whose byte is returned, with the vendor-read error exactly when the read failed; with an unrecognised type, 0, a type error and no bus access |
| `Driver.ReadTouchCount` | main.go:137-174 | an unbound device, an unrecognised type or a failed read each return 0 with an error and keep the latch (the first two without bus access); a successful 1-byte read of register 0x02 gives one latch step and no error; the count always lies in 0..2 |
| `Driver.ReadGesture` | main.go:176-206 | an unrecognised type returns 0 with a type error and no bus access; otherwise one 1-byte read of register 0x01; a failed read gives GESTURE_UNKNOWN with the transport's error; a successful read gives the gesture decode |
| `Driver.NoGestureMeansTypeError` | main.go:176-206 | the gesture read returns NO_GESTURE (0) exactly when the type is unrecognised, and then with the type error; no byte read from the device decodes to it |
| `Driver.ReadTouchPoint` | main.go:210-234 | an unrecognised type or a failed 4-byte read of register 0x03 returns (0, 0) with an error; a successful read returns the decoded point; both coordinates always lie in [0, 4095] |
| `Driver.BusUsedIffRecognised` | main.go:81-234 | every register operation makes exactly one bus request when the type is recognised, and none otherwise |
| `Driver.TouchScreen.constructor` | main.go:27-33 | a zero-valued driver has no device, type 0, a clear latch, debug off and an empty trace |
| `Driver.TouchScreen.Init` | main.go:60-79 | an already-bound driver returns the already-initialised error and changes nothing; an open failure is returned unchanged and leaves the driver unbound; otherwise the device is bound, the type stored, the latch and debug cleared, no error is returned, and the trace gains the open and then the threshold requests made for the previous type |
| `Driver.TouchScreen.InitThresholdForType` | main.go:60-79 | like Init, but the threshold requests are made for the new type, so a recognised type gets the open followed by the write of [0x80] to 0x80 |
| `Driver.TouchScreen.SetThreshold` | main.go:81-99 | returns the error of WriteThreshold for the current type, and the trace gains exactly its requests |
| `Driver.TouchScreen.ReadIdRegister` | main.go:101-133 | returns the byte and error of ReadIdByte for the current type, and the trace gains exactly its requests |
| `Driver.TouchScreen.GetVendorID` | main.go:101-116 | returns the byte and error of ReadVendorId for the current type, and the trace gains exactly its requests |
| `Driver.TouchScreen.GetCTPMVendorId` | main.go:118-133 | returns the byte and error of ReadCtpmVendorId for the current type, and the trace gains exactly its requests |
| `Driver.TouchScreen.GetTouchesCount` | main.go:137-174 | the count, the error, the new latch and the trace's new requests are those of ReadTouchCount for the old latch |
| `Driver.TouchScreen.GetGestureType` | main.go:176-206 | returns the code and error of ReadGesture for the current type, and the trace gains exactly its requests |
| `Driver.TouchScreen.GetTouches` | main.go:210-241 | the straight-line mask, shift and join returns the point and error of ReadTouchPoint, and the trace gains exactly its requests |
| `Driver.InitOnFreshDriver` | main.go:69-76 | on a zero-valued driver, Init with a recognised type succeeds, but the trace holds only the open and no register write |
| `Driver.InitThresholdOnFreshDriver` | main.go:69-76 | on a zero-valued driver, the corrected Init makes the open and then writes [0x80] to register 0x80 |
| `Driver.InitTwice` | main.go:61-63 | a second Init returns the already-initialised error and keeps the first binding and type |
| `Driver.QueryFreshDriver` | main.go:81-174 | on a zero-valued driver, SetThreshold, both vendor reads, the gesture read and the touch read return the type error, the touch count returns the not-initialised error, and no bus request is made |

## Left out

- The I2C transport is not part of this model. That covers `i2c.Open` on `/dev/i2c-1` at address 0x38, and `ReadReg` and `WriteReg`. Each transfer's outcome is a parameter, and the requests are recorded in a ghost trace.
- The debug `fmt.Printf` in `GetTouches` (main.go:236-238) is left out. It only prints and changes no value or state.
- `LastScreenChange` (main.go:30) is left out because the code never reads or writes it.
- `SetThreshold`, `GetVendorID`, `GetCTPMVendorId`, `GetGestureType` and `GetTouches` do not check for a nil `Device`. With a recognised type and no device, Go would panic on the nil call. Their models require a bound device or an unrecognised type, so only the panic is excluded. The type error on an unbound driver is modelled (`Driver.QueryFreshDriver`).
- The length of each read buffer is fixed by the code (1 byte, or 4 for the touch point). It appears as a precondition on the reply.
- Go's `int` is modelled as an unbounded integer. Every computed value fits in any Go int, 32-bit or 64-bit: the raw count is at most 255 and each coordinate at most 4095. `TType` is only compared, never computed with.
- Only the first touch point is decoded. The code ignores a second touch, and so does the model.

## Findings

| source | as written | input that shows it | evidently intended | confidence | as-written member | corrected member |
|---|---|---|---|---|---|---|
| main.go:69-76 | `Init` calls `SetThreshold` before `t.TType = tt`, so the write is chosen by the type held before the call, and the error is discarded | a zero-valued `TouchScreen`, `Init(FT62XX)`, open succeeds: the type is still 0, so `SetThreshold` fails with "type not set" and register 0x80 is never written, while `Init` reports success | the default threshold 0x80 is written to register 0x80 for the type being initialised | medium, not executed | `Driver.InitOnFreshDriver` | `Driver.TouchScreen.InitThresholdForType` |
