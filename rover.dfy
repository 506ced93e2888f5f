/** The rover namespace as one object: the servo-initialised flag, the
    16-entry calibration table, the LED update mode and the lazily created
    strip, plus append-only logs of what is sent to the hardware. */
module MarsRover {
  import opened Hardware
  import opened Servo
  import opened Motors
  import opened Sonar
  import opened Keypad
  import opened Leds

  class Rover {
    /** Set once the servo driver has been initialised. */
    var initI2C: bool
    /** Per-channel calibration offsets, in degrees. */
    const servoOffset: array<int>
    var updateMode: UpdateMode
    var strip: Option<Strip>

    /** Writes sent to I2C devices, oldest first. */
    var i2c: seq<I2cWrite>
    /** Calls on the edge-connector pins, oldest first. */
    var pins: seq<PinOp>
    /** Calls on the neopixel strip, oldest first. */
    var leds: seq<LedOp>

    ghost predicate Valid()
      reads this
    {
      servoOffset.Length == Channels &&
      (strip == None || strip == Some(DefaultStrip))
    }

    /** The state at start-up: nothing initialised, Auto refresh, empty logs.
        The offsets are not read before the first initialisation overwrites
        them, so their start values do not matter. */
    constructor ()
      ensures Valid() && fresh(servoOffset)
      ensures !initI2C && updateMode == Auto && strip == None
      ensures i2c == [] && pins == [] && leds == []
    {
      initI2C := false;
      servoOffset := new int[Channels](_ => 0);
      updateMode := Auto;
      strip := None;
      i2c, pins, leds := [], [], [];
    }

    // ----- collaborators -----

    /** Fill the two-byte buffer with a register and a value (each cell keeps
        the low eight bits) and send it to the servo driver. */
    method I2cWriteBuffer(buf: array<int>, reg: int, data: int)
      requires buf.Length == 2
      modifies buf, this`i2c
      ensures i2c == old(i2c) + [I2cWrite(PCA, Byte(reg), Byte(data))]
    {
      buf[0], buf[1] := Byte(reg), Byte(data);
      i2c := i2c + [I2cWrite(PCA, buf[0], buf[1])];
    }

    method DigitalWritePin(pin: Pin, level: int)
      modifies this`pins
      ensures pins == old(pins) + [DigitalWrite(pin, level)]
    {
      pins := pins + [DigitalWrite(pin, level)];
    }

    method AnalogWritePin(pin: Pin, duty: int)
      modifies this`pins
      ensures pins == old(pins) + [AnalogWrite(pin, duty)]
    {
      pins := pins + [AnalogWrite(pin, duty)];
    }

    /** Time an echo pulse; `reading` is what the hardware measures. */
    method PulseIn(pin: Pin, timeout: int, reading: nat) returns (d: nat)
      modifies this`pins
      ensures pins == old(pins) + [EchoPulse(pin, timeout)]
      ensures d == reading
    {
      pins := pins + [EchoPulse(pin, timeout)];
      d := reading;
    }

    /** Make one call on the strip. */
    method StripCall(s: Strip, op: LedOp)
      requires strip == Some(s)
      modifies this`leds
      ensures leds == old(leds) + [op]
    {
      leds := leds + [op];
    }

    // ----- servo controller -----

    /** Wake the servo driver, zero every channel's start registers and load
        the calibration table. */
    method InitPCA()
      requires Valid()
      modifies this`initI2C, this`i2c, servoOffset
      ensures Valid() && initI2C
      ensures i2c == old(i2c) + InitWrites()
      ensures servoOffset[..] == NoOffsets
    {
      var i2cData := new int[2];
      initI2C := true;

      I2cWriteBuffer(i2cData, MODE1, 0x10);     // sleep
      I2cWriteBuffer(i2cData, PRESCALE, 101);   // 60 Hz
      I2cWriteBuffer(i2cData, MODE1, 0x81);     // wake

      for servo := 0 to Channels
        invariant initI2C
        invariant i2c == old(i2c) + WakeWrites + StartWrites(servo)
      {
        I2cWriteBuffer(i2cData, SERVOS + servo * 4 + 0, 0x00);
        I2cWriteBuffer(i2cData, SERVOS + servo * 4 + 1, 0x00);
        StartWritesStep(servo);
      }

      assert i2c == old(i2c) + InitWrites();
      for i := 0 to Channels
        invariant initI2C && i2c == old(i2c) + InitWrites()
        invariant forall j :: 0 <= j < i ==> servoOffset[j] == ReadEEROM(j)
      {
        servoOffset[i] := ReadEEROM(i);
      }
      assert servoOffset[..] == NoOffsets;
    }

    /** Turn servo `servo` to `angle` degrees, limited to [-90, 90] and
        corrected by its calibration offset; initialises the driver first if
        that has not happened yet. */
    method SetServo(servo: int, angle: int)
      requires Valid() && 0 <= servo < Channels
      modifies this`initI2C, this`i2c, servoOffset
      ensures Valid() && initI2C
      ensures old(initI2C) ==>
                servoOffset[..] == old(servoOffset[..]) &&
                i2c == old(i2c) + ServoWrites(servo, Clamp(angle), old(servoOffset[servo]))
      ensures !old(initI2C) ==>
                servoOffset[..] == NoOffsets &&
                i2c == old(i2c) + InitWrites() + ServoWrites(servo, Clamp(angle), 0)
    {
      if initI2C == false {
        InitPCA();
      }
      var i2cData := new int[2];
      var a := angle;
      if a > 90 {
        a := 90;
      }
      if a < -90 {
        a := -90;
      }
      var stop := PulseWidth(a, servoOffset[servo]);

      I2cWriteBuffer(i2cData, SERVOS + servo * 4 + 2, LowByte(stop));
      I2cWriteBuffer(i2cData, SERVOS + servo * 4 + 3, stop / 256);
    }

    /** Store a calibration offset and centre that servo with it. */
    method SetOffset(servo: int, offset: int)
      requires Valid() && 0 <= servo < Channels
      modifies this`initI2C, this`i2c, servoOffset
      ensures Valid() && initI2C
      ensures old(initI2C) ==>
                servoOffset[..] == old(servoOffset[..])[servo := offset] &&
                i2c == old(i2c) + ServoWrites(servo, 0, offset)
      ensures !old(initI2C) ==>
                servoOffset[..] == NoOffsets &&
                i2c == old(i2c) + InitWrites() + ServoWrites(servo, 0, 0)
    {
      servoOffset[servo] := offset;
      SetServo(servo, 0);
    }

    /** Centre servos 0 .. 15 in ascending order. */
    method ZeroServos()
      requires Valid()
      modifies this`initI2C, this`i2c, servoOffset
      ensures Valid() && initI2C
      ensures old(initI2C) ==>
                servoOffset[..] == old(servoOffset[..]) &&
                i2c == old(i2c) + CentreWrites(old(servoOffset[..]), Channels)
      ensures !old(initI2C) ==>
                servoOffset[..] == NoOffsets &&
                i2c == old(i2c) + InitWrites() + CentreWrites(NoOffsets, Channels)
    {
      for i := 0 to Channels
        invariant Valid()
        invariant initI2C == (old(initI2C) || i > 0)
        invariant servoOffset[..] == if i > 0 && !old(initI2C) then NoOffsets else old(servoOffset[..])
        invariant i2c == old(i2c) + (if i > 0 && !old(initI2C) then InitWrites() else []) +
                         CentreWrites(servoOffset[..], i)
      {
        SetServo(i, 0);
        CentreWritesStep(servoOffset[..], i);
      }
    }

    // ----- motor driver -----

    /** Pick the PWM period for a (non-negative) speed. */
    method SetPWM(speed: int)
      modifies this`pins
      ensures pins == old(pins) + [AnalogPeriod(P0, Period(speed))]
    {
      if speed < 200 {
        pins := pins + [AnalogPeriod(P0, 60000)];
      } else if speed < 300 {
        pins := pins + [AnalogPeriod(P0, 40000)];
      } else {
        pins := pins + [AnalogPeriod(P0, 30000)];
      }
    }

    /** Drive the left, right or both motors at a signed speed. */
    method Motor(target: MotorSel, speed: int)
      modifies this`pins
      ensures pins == old(pins) + MotorWrites(target, speed)
    {
      var speed0 := 0;
      var speed1 := 0;
      SetPWM(Abs(speed));
      if speed > 0 {
        speed0 := speed;
        speed1 := 0;
      } else {
        speed0 := 0;
        speed1 := 0 - speed;
      }
      assert (speed0, speed1) == Duties(speed);
      WriteDuties(target, speed0, speed1);
    }

    /** The duty writes of `motor` once the duties are known: forward duty on
        the first pin of each selected motor, reverse duty on its second. */
    method WriteDuties(target: MotorSel, speed0: int, speed1: int)
      modifies this`pins
      ensures pins == old(pins) + DutyWrites(target, (speed0, speed1))
    {
      if target == Left || target == Both {
        AnalogWritePin(P1, speed0);
        AnalogWritePin(P12, speed1);
      }
      if target == Right || target == Both {
        AnalogWritePin(P8, speed0);
        AnalogWritePin(P0, speed1);
      }
    }

    method Drive(speed: int)
      modifies this`pins
      ensures pins == old(pins) + MotorWrites(Both, speed)
    {
      Motor(Both, speed);
    }

    /** Coast (0) or brake (1) on all four motor pins. */
    method Stop(mode: StopMode)
      modifies this`pins
      ensures pins == old(pins) + StopWrites(mode)
    {
      var stopMode := 0;
      if mode == Brake {
        stopMode := 1;
      }
      DigitalWritePin(P1, stopMode);
      DigitalWritePin(P12, stopMode);
      DigitalWritePin(P8, stopMode);
      DigitalWritePin(P0, stopMode);
    }

    /** Drive, wait `milliseconds` (not modelled), then coast. */
    method DriveMilliseconds(speed: int, milliseconds: int)
      modifies this`pins
      ensures pins == old(pins) + MotorWrites(Both, speed) + StopWrites(Coast)
    {
      Drive(speed);
      Stop(Coast);
    }

    // ----- sonar -----

    /** The trigger pulse: low, high, low on the ranger's trigger pin. */
    method Trigger()
      modifies this`pins
      ensures pins == old(pins) + Ping[..3]
    {
      DigitalWritePin(P13, 0);
      DigitalWritePin(P13, 1);
      DigitalWritePin(P13, 0);
    }

    /** Ping up to ten times until an echo comes back and report its time in
        `unit`.  `echoes[x]` is what the x-th echo measurement reads. */
    method ReadSonar(unit: PingUnit, echoes: seq<nat>) returns (r: real)
      requires Attempts <= |echoes|
      modifies this`pins
      ensures var k := KeptEcho(echoes, 0);
              pins == old(pins) + [PullNone(P13)] + Pings(k + 1) &&
              r == Convert(unit, echoes[k])
    {
      var d: nat := 10;
      pins := pins + [PullNone(P13)];
      ghost var base := pins;
      var x := 0;
      while x < Attempts
        invariant 0 <= x <= Attempts
        invariant forall j :: 0 <= j < x ==> echoes[j] == 0
        invariant pins == base + Pings(x)
        invariant x > 0 ==> d == echoes[x - 1]
      {
        ghost var before := pins;
        Trigger();
        d := PulseIn(P13, EchoTimeout, echoes[x]);
        assert pins == before + Ping;
        assert Pings(x + 1) == Pings(x) + Ping;
        if d > 0 {
          break;
        }
        x := x + 1;
      }
      ghost var k := if x < Attempts then x else Attempts - 1;
      KeptEchoUnique(echoes, k);
      r := Convert(unit, d);
    }

    // ----- keypad -----

    /** One attempt: raise the clock, then clock in 16 bits, most significant
        first.  `frame[i]` is the data line's level at the i-th clock. */
    method ClockFrame(frame: seq<Bit>) returns (keypad: int)
      requires |frame| == FrameBits
      modifies this`pins
      ensures keypad == Fold(frame)
      ensures pins == old(pins) + FrameClock
    {
      keypad := 0;
      DigitalWritePin(P16, 1);
      for index := 0 to FrameBits
        invariant keypad == Fold(frame[..index])
        invariant pins == old(pins) + [DigitalWrite(P16, 1)] + ClockBits(index)
      {
        DigitalWritePin(P16, 0);
        assert frame[..index + 1][..index] == frame[..index];
        keypad := keypad * 2 + frame[index];
        DigitalWritePin(P16, 1);
        ClockBitsStep(index);
      }
      assert frame[..FrameBits] == frame;
    }

    /** Clock 16-bit frames in from the keypad until one is not all ones and
        return its complement.  `frames[a]` is what the a-th attempt samples. */
    method WaitKey(frames: seq<seq<Bit>>) returns (key: int)
      requires forall j :: 0 <= j < |frames| ==> |frames[j]| == FrameBits
      requires exists j :: 0 <= j < |frames| && KeyCode(frames[j]) != 0
      modifies this`pins
      ensures var n := FirstKeyFrame(frames, 0);
              key == KeyCode(frames[n]) && pins == old(pins) + KeyClocks(n + 1)
      ensures 1 <= key <= 65535
    {
      ghost var n := FirstKeyFrame(frames, 0);
      var keypad: int := 0;
      var attempt := 0;
      while keypad == 0
        invariant 0 <= attempt <= n + 1
        invariant keypad == 0 ==> attempt <= n
        invariant keypad != 0 ==> attempt == n + 1 && keypad == KeyCode(frames[n])
        invariant pins == old(pins) + KeyClocks(attempt)
        decreases n + 1 - attempt
      {
        ghost var before := pins;
        keypad := ClockFrame(frames[attempt]);
        keypad := 65535 - keypad;
        assert keypad == KeyCode(frames[attempt]);
        assert pins == old(pins) + KeyClocks(attempt + 1) by {
          assert pins == before + FrameClock;
          assert KeyClocks(attempt + 1) == KeyClocks(attempt) + FrameClock;
        }
        attempt := attempt + 1;
      }
      key := keypad;
    }

    // ----- LEDs -----

    /** The strip, created on first use. */
    method Neo() returns (s: Strip)
      requires Valid()
      modifies this`strip, this`leds
      ensures Valid() && strip == Some(s) && s == DefaultStrip
      ensures old(strip).Some? ==> s == old(strip).value
      ensures leds == old(leds) + StripSetup(old(strip).Some?)
    {
      if strip.None? {
        strip := Some(Strip(P2, 4));
        leds := leds + [Create(P2, 4)];
        StripCall(strip.value, SetBrightness(40));
      }
      s := strip.value;
    }

    /** Refresh the strip when the mode is Auto. */
    method UpdateLEDs()
      requires Valid()
      modifies this`strip, this`leds
      ensures Valid()
      ensures updateMode == Auto ==>
                strip == Some(DefaultStrip) && leds == old(leds) + StripSetup(old(strip).Some?) + [Show]
      ensures updateMode == Manual ==> strip == old(strip) && leds == old(leds)
    {
      if updateMode == Auto {
        var s := Neo();
        StripCall(s, Show);
      }
    }

    /** One mutating LED block: make the change on the strip, then refresh if
        the mode says so. */
    method Change(op: LedOp)
      requires Valid()
      modifies this`strip, this`leds
      ensures Valid() && strip == Some(DefaultStrip)
      ensures leds == old(leds) + BlockLog(old(strip).Some?, op, updateMode)
    {
      var s := Neo();
      StripCall(s, op);
      UpdateLEDs();
    }

    method SetLedColor(rgb: int)
      requires Valid()
      modifies this`strip, this`leds
      ensures Valid() && strip == Some(DefaultStrip)
      ensures leds == old(leds) + BlockLog(old(strip).Some?, ShowColor(rgb), updateMode)
    {
      Change(ShowColor(rgb));
    }

    method LedClear()
      requires Valid()
      modifies this`strip, this`leds
      ensures Valid() && strip == Some(DefaultStrip)
      ensures leds == old(leds) + BlockLog(old(strip).Some?, Clear, updateMode)
    {
      Change(Clear);
    }

    method SetPixelColor(ledId: int, rgb: int)
      requires Valid()
      modifies this`strip, this`leds
      ensures Valid() && strip == Some(DefaultStrip)
      ensures leds == old(leds) + BlockLog(old(strip).Some?, SetPixel(ledId, rgb), updateMode)
    {
      Change(SetPixel(ledId, rgb));
    }

    method LedBrightness(brightness: int)
      requires Valid()
      modifies this`strip, this`leds
      ensures Valid() && strip == Some(DefaultStrip)
      ensures leds == old(leds) + BlockLog(old(strip).Some?, SetBrightness(brightness), updateMode)
    {
      Change(SetBrightness(brightness));
    }

    method LedRainbow()
      requires Valid()
      modifies this`strip, this`leds
      ensures Valid() && strip == Some(DefaultStrip)
      ensures leds == old(leds) + BlockLog(old(strip).Some?, Rainbow(1, 360), updateMode)
    {
      Change(Rainbow(1, 360));
    }

    method LedRotate()
      requires Valid()
      modifies this`strip, this`leds
      ensures Valid() && strip == Some(DefaultStrip)
      ensures leds == old(leds) + BlockLog(old(strip).Some?, Rotate(1), updateMode)
    {
      Change(Rotate(1));
    }

    method LedShift()
      requires Valid()
      modifies this`strip, this`leds
      ensures Valid() && strip == Some(DefaultStrip)
      ensures leds == old(leds) + BlockLog(old(strip).Some?, Shift(1), updateMode)
    {
      Change(Shift(1));
    }

    method SetUpdateMode(mode: UpdateMode)
      modifies this`updateMode
      ensures updateMode == mode
    {
      updateMode := mode;
    }

    /** Refresh the strip now, whatever the mode. */
    method LedShow()
      requires Valid()
      modifies this`strip, this`leds
      ensures Valid() && strip == Some(DefaultStrip)
      ensures leds == old(leds) + StripSetup(old(strip).Some?) + [Show]
    {
      var s := Neo();
      StripCall(s, Show);
    }
  }
}
