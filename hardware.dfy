/** The hardware the rover layer talks to, as plain values.  Every effect on the
    hardware is recorded as an entry of an append-only log kept by the rover
    object; the values read back from the hardware are supplied as inputs. */
module Hardware {

  datatype Option<T> = None | Some(value: T)

  /** The micro:bit edge-connector pins the layer uses. */
  datatype Pin = P0 | P1 | P2 | P8 | P12 | P13 | P16

  /** One call into the pin collaborator.  Only what the layer sends is
      logged: the writes, the period, the pull mode and each echo measurement
      with its timeout (the measured level is always high, so it is not
      recorded).  Reads of the data lines are inputs, not log entries. */
  datatype PinOp =
    | DigitalWrite(pin: Pin, level: int)
    | AnalogWrite(pin: Pin, duty: int)
    | AnalogPeriod(pin: Pin, micros: int)
    | PullNone(pin: Pin)
    | EchoPulse(pin: Pin, timeoutMicros: int)

  /** One two-byte I2C buffer write: device address, register, data byte. */
  datatype I2cWrite = I2cWrite(addr: int, reg: int, data: int)

  /** What a one-byte buffer cell keeps of an integer stored into it: the low
      eight bits, read as an unsigned value. */
  function Byte(x: int): (b: int)
    ensures 0 <= b < 256
    ensures 0 <= x < 256 ==> b == x
    ensures (x - b) % 256 == 0
  {
    x % 256
  }
}
