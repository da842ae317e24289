/**
 The I2C transport as the driver sees it: an opaque device that can be
 opened, read from and written to. Nothing here talks to hardware; every
 transfer's outcome is handed to the driver from outside, and the driver
 records what it asked the bus to do in an I/O trace.
 */
module Bus {

  datatype Option<+T> = None | Some(value: T)

  /** The errors the driver returns; each stands for one message of the source,
      `Transport` for an error coming unchanged from the I2C layer. */
  datatype Error =
    | AlreadyInitialised      // "Device already initialiased"
    | NotInitialised          // "Touchscreen not initialised yet"
    | UnrecognisedType        // "Touchscreen Type is not set or is unrecognized"
    | ThresholdFailed         // "Failed to set the threshold"
    | VendorRegReadFailed     // "Failed to read in the Vendor Reg"
    | CountRegReadFailed      // "Error reading register"
    | TouchRegReadFailed      // "Failed to read in the touch registers"
    | UnknownResponse         // "Unknown response from device"
    | Transport(cause: string)

  /** The device file and 7-bit bus address the driver opens. */
  const DEV_PATH: string := "/dev/i2c-1"
  const DEV_ADDR: bv8 := 0x38

  /** An opened device handle. */
  datatype Handle = Handle(path: string, addr: bv8)

  /** One request the driver issues to the transport. */
  datatype IoOp =
    | Open(path: string, addr: bv8)
    | ReadReg(reg: bv8, len: nat)
    | WriteReg(reg: bv8, data: seq<bv8>)

  /** What a register read left behind: the contents of the caller's buffer
      afterwards (which the driver may return even when the read failed) and
      the transport's error, if any. */
  datatype Transfer = Transfer(buf: seq<bv8>, err: Option<Error>)
}
