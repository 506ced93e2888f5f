# Mars rover control layer, modelled in Dafny

This project models the `Rover` namespace of the 4tronix Mars Rover MakeCode
extension (`custom.ts`). That namespace is the robot's hardware layer. It
covers:

- a PCA9685 servo driver on I2C, with a 16-entry calibration table and lazy
  one-time initialisation;
- two DC motors driven by PWM, with a three-tier PWM period;
- an ultrasonic ranger, which retries until it gets an echo;
- a bit-banged 16-bit keypad;
- a four-pixel neopixel strip, refreshed either at once (Auto) or only on an
  explicit show (Manual).

The namespace's module-level state is the class `MarsRover.Rover`. Its fields
are `initI2C`, the `servoOffset` array, `updateMode` and `strip`. Hardware
effects go into three append-only logs:

- `i2c`: every two-byte write as (device address, register, byte);
- `pins`: digital and analog writes, the period choice, the pull mode and each
  echo measurement;
- `leds`: every call on the neopixel strip, where `Show` is the hardware
  refresh.

What the hardware hands back is a parameter: the echo readings of the ranger
and the data-line samples of each keypad frame. The pure parts live in their
own modules, and each class method is proved against them:

- `Servo`: clamping, the pulse-width mapping and the register writes;
- `Motors`: the period tiers, the duty split and the pins per target;
- `Sonar`: which echo is kept and the unit conversion;
- `Keypad`: the bit fold, the complement and which frame is returned;
- `Leds`: the refresh policy and `convertRGB`.

Every method frames only the fields it touches (`modifies this`pins` and so
on), so "nothing else changes" is part of each contract.

Arithmetic follows the TypeScript:

- **Servo pulse width.** `369 + (angle + offset) * 223 / 90` is a real number.
  `& 0xff` and `>> 8` truncate it toward zero. `PulseWidth` computes
  `(33210 + (angle + offset) * 223) / 90` and rounds toward zero.
- **Servo bytes.** The low byte is `t % 256`. The high byte is `t / 256`
  (floor, like the arithmetic shift), stored mod 256 into the byte buffer.
  The 32-bit wrap of the shift operand changes only bits that the byte cell
  drops.
- **`convertRGB`.** `x & 0xFF` is `x % 256` for every integer. The three
  shifted fields do not overlap, so the bitwise or is a sum.
- **Sonar units.** The unit conversion uses exact `real` division.

## Model

| member | source | states |
|---|---|---|
| `Hardware.Byte` | custom.ts:154-156 | a byte buffer cell always holds a value in 0..255 congruent to the stored value mod 256, so a value already in that range is kept unchanged |
| `Servo.ReadEEROM` | custom.ts:428-429 | the calibration store reads a signed byte; the stub always reads 0 |
| `Servo.Clamp` | custom.ts:227-230 | the angle used lies in [-90, 90]: an in-range angle is kept, one above 90 becomes 90, one below -90 becomes -90 |
| `Servo.PulseWidth` | custom.ts:231 | the stop value is `(33210 + (angle+offset)*223)/90` truncated toward zero (characterised by bounds for each sign of the numerator); with offset 0 and an angle in [-90, 90] it lies in 146..592 |
| `Servo.BytesRecombine` | custom.ts:234-238 | for a stop value below 65536, low byte + 256 * high byte gives it back, and both bytes are in 0..255 |
| `Servo.BytesAlways` | custom.ts:234-238 | for every stop value, negative ones included, low byte + 256 * high byte is the value mod 2^16 |
| `Servo.ServoWrites` | custom.ts:231-239 | setting a servo makes two writes to the PCA9685: register 8+4s, then 9+4s, with bytes that always recombine to the pulse width mod 2^16, and to the pulse width itself whenever it fits in 16 bits |
| `Servo.NegativeStopWraps` | custom.ts:231-238 | angle -90 with offset -60 gives stop -2, written as bytes 254 and 255 |
| `Servo.ServoWritesUncalibrated` | custom.ts:227-239 | with offset 0, every angle (after clamping) writes a pulse width of 146..592 into the stop registers |
| `Servo.ClampSaturates` | custom.ts:227-230 | any angle of 90 or more writes exactly what 90 writes; any angle of -90 or less writes exactly what -90 writes |
| `Servo.StartWritesStep` | custom.ts:167-175 | zeroing the start registers of one more channel n appends exactly (6+4n, 0) then (7+4n, 0), so the channels are zeroed in ascending order |
| `Servo.InitWritesLayout` | custom.ts:154-175 | initialisation makes 35 writes, all to address 0x40: sleep (0, 0x10), prescale (0xFE, 101), wake (0, 0x81), then for each channel s in order (6+4s, 0) and (7+4s, 0) |
| `Servo.CentreWritesStep` | custom.ts:202-205 | centring one more channel n appends exactly the two stop writes of servo n at angle 0 with its offset, so servos are centred in ascending order |
| `Motors.Abs` | custom.ts:340 | the absolute value is the speed or its negation, and is non-negative |
| `Motors.Period` | custom.ts:183-190 | period 60000 exactly when the speed is below 200, 40000 exactly when it is in 200..299, 30000 exactly when it is 300 or more |
| `Motors.PeriodMonotone` | custom.ts:181-190 | a faster speed never gets a longer PWM period |
| `Motors.Duties` | custom.ts:338-348 | both duties are non-negative, at most one is non-zero, and forward minus reverse equals the speed (so speed 0 gives (0, 0)) |
| `Motors.DutiesUnique` | custom.ts:338-348 | those three conditions determine the duty pair uniquely |
| `Motors.DutyWrites` | custom.ts:349-357 | Left writes forward duty to P1 and reverse to P12, Right forward to P8 and reverse to P0, Both does Left then Right |
| `Motors.MotorWrites` | custom.ts:337-358 | a motor command makes 3 writes for one motor and 5 for Both, and the first sets the period of abs(speed) |
| `Motors.MotorWritesPins` | custom.ts:349-357 | after the period a motor command writes only duties: Left touches only P1/P12, Right only P8/P0 |
| `Motors.BothIsLeftThenRight` | custom.ts:349-357 | driving Both writes the Left duties followed by the Right duties, with the same period |
| `Motors.StopLevel` | custom.ts:319-321 | the stop level is 0 exactly for Coast and 1 exactly for Brake |
| `Motors.StopWrites` | custom.ts:318-326 | a stop writes the same level to P1, P12, P8 and P0, in that order |
| `Sonar.Pings` | custom.ts:377-386 | n attempts make 4n pin operations |
| `Sonar.PingsRepeat` | custom.ts:377-386 | n attempts log n repetitions of trigger low, high, low and one echo measurement with a 29000 µs timeout |
| `Sonar.KeptEcho` | custom.ts:376-388 | the kept reading's index is below 10, every earlier reading is 0, and the kept one is non-zero unless it is the tenth |
| `Sonar.KeptEchoUnique` | custom.ts:376-388 | any index whose earlier readings are all 0 and which is non-zero or the tenth is the kept one: the loop's stopping rule determines it |
| `Sonar.KeptEchoZero` | custom.ts:376-388 | the kept reading is 0 exactly when all ten readings are 0 |
| `Sonar.Convert` | custom.ts:389-393 | MicroSeconds returns the raw time unchanged; the Centimeters result times 58, and the Inches result times 148, give the raw time back |
| `Keypad.Fold` | custom.ts:632-638 | shifting n bits in most significant first gives a value below 2^n |
| `Keypad.FoldToBits` | custom.ts:632-638 | folding the n-bit binary form of any v < 2^n gives v back |
| `Keypad.ToBitsFold` | custom.ts:632-638 | the binary form of a folded frame is the frame: no two frames decode alike |
| `Keypad.FoldAllOnes` | custom.ts:624-639 | a frame folds to the largest n-bit value exactly when every bit is 1 |
| `Keypad.FoldInvert` | custom.ts:639 | `(2^n - 1) - value` is the fold of the inverted bits |
| `Keypad.KeyCode` | custom.ts:639 | a frame's code is in 0..65535 and is the fold of the inverted bits (the keypad is active low) |
| `Keypad.KeyCodeZero` | custom.ts:624-640 | a frame's code is 0, so the read is retried, exactly when every bit of the frame is 1 |
| `Keypad.FirstKeyFrame` | custom.ts:622-641 | the frame a read returns is the first one whose code is non-zero; every earlier frame's code is 0 |
| `Keypad.ClockBitsStep` | custom.ts:632-637 | each bit adds one clock-low then clock-high write on P16 |
| `Keypad.KeyClocks` | custom.ts:626-637 | n attempts make 33 n clock writes |
| `Keypad.KeyClocksOnClockPin` | custom.ts:626-637 | every write of n attempts is a digital write on P16, and after each attempt the clock is left high |
| `Keypad.StopKeyDecodes` | custom.ts:97 | a frame with every line high except bit 7 decodes to the stop key 0b0000000010000000 |
| `Leds.StripSetup` | custom.ts:442-448 | creating the strip calls create(P2, 4) then setBrightness(40), and does nothing when a strip exists |
| `Leds.Refreshes` | custom.ts:450-454 | the refresh count of a log is at most its length, and is 0 exactly when the log has no show |
| `Leds.RefreshesAppend` | custom.ts:450-454 | the refresh count of two logs in a row is the sum of their counts |
| `Leds.BlockRefreshes` | custom.ts:451-454 | a mutating LED block performs exactly one refresh in Auto mode and none in Manual mode |
| `Leds.ShowRefreshes` | custom.ts:556-558 | an explicit show performs exactly one refresh in either mode |
| `Leds.ConvertRGB` | custom.ts:595-597 | the packed colour is below 2^24 and holds r mod 256 in its high byte, g mod 256 in its middle byte and b mod 256 in its low byte |
| `Leds.ConvertRGBRoundTrip` | custom.ts:595-597 | packing the three bytes of a 24-bit colour gives the colour back |
| `Leds.ConvertRGBExamples` | custom.ts:69-79 | (255,0,0) packs to 0xFF0000, (0,255,0) to 0x00FF00, (1,2,3) to 0x010203 |
| `MarsRover.Rover.constructor` | custom.ts:136-144 | at start-up the driver is not initialised, the mode is Auto, there is no strip and nothing has been sent |
| `MarsRover.Rover.I2cWriteBuffer` | custom.ts:154-156 | filling the two-byte buffer with a register and a value and sending it to the PCA9685 appends (0x40, register mod 256, value mod 256) to the I2C log |
| `MarsRover.Rover.DigitalWritePin` | custom.ts:322 | a digital write appends exactly that write to the pin log |
| `MarsRover.Rover.AnalogWritePin` | custom.ts:350 | an analog write appends exactly that write to the pin log |
| `MarsRover.Rover.PulseIn` | custom.ts:385 | an echo measurement is logged with its timeout and returns the hardware's reading |
| `MarsRover.Rover.StripCall` | custom.ts:465 | a call on the existing strip appends exactly that call to the strip log |
| `MarsRover.Rover.InitPCA` | custom.ts:150-179 | initialisation sets the flag, sends exactly the initialisation writes and leaves every offset equal to the store's value, 0 |
| `MarsRover.Rover.SetServo` | custom.ts:216-240 | on an initialised driver: two stop writes for the clamped angle and the servo's offset, offsets unchanged; otherwise first the full initialisation, then the writes with offset 0 |
| `MarsRover.Rover.SetOffset` | custom.ts:251-254 | on an initialised driver only servo s's offset changes and s is centred with it; otherwise initialisation overwrites it with 0 before the centring |
| `MarsRover.Rover.ZeroServos` | custom.ts:202-205 | centres servos 0..15 in ascending order with their offsets, initialising first if needed; offsets are unchanged once initialised |
| `MarsRover.Rover.SetPWM` | custom.ts:183-190 | appends exactly one period setting on P0, the tier of the speed |
| `MarsRover.Rover.Motor` | custom.ts:337-358 | appends exactly the motor writes for the target and speed |
| `MarsRover.Rover.WriteDuties` | custom.ts:349-357 | appends the duty writes of the selected motors, Left before Right |
| `MarsRover.Rover.Drive` | custom.ts:291-293 | driving is a motor command to Both |
| `MarsRover.Rover.Stop` | custom.ts:318-326 | appends the same stop level on P1, P12, P8, P0 |
| `MarsRover.Rover.DriveMilliseconds` | custom.ts:305-309 | drives Both at the speed and then coasts |
| `MarsRover.Rover.Trigger` | custom.ts:378-382 | the trigger pulse appends low, high, low on P13 |
| `MarsRover.Rover.ReadSonar` | custom.ts:371-394 | sets the pin floating, pings once per attempt until the kept echo (1 to 10 attempts), and returns that echo in the requested unit |
| `MarsRover.Rover.ClockFrame` | custom.ts:626-638 | one attempt raises the clock, clocks 16 bits and returns their most-significant-first fold |
| `MarsRover.Rover.WaitKey` | custom.ts:622-642 | returns the code of the first frame that is not all ones (so a value in 1..65535) after exactly that many attempts |
| `MarsRover.Rover.Neo` | custom.ts:442-448 | creates the 4-pixel strip on P2 at brightness 40 only when there is none, and returns the same strip afterwards |
| `MarsRover.Rover.UpdateLEDs` | custom.ts:451-454 | refreshes the strip exactly when the mode is Auto; in Manual it changes nothing |
| `MarsRover.Rover.Change` | custom.ts:464-582 | a mutating block creates the strip if needed, makes its one call, then refreshes if the mode is Auto |
| `MarsRover.Rover.SetLedColor` | custom.ts:464-467 | logs showColor(rgb) as a mutating block |
| `MarsRover.Rover.LedClear` | custom.ts:476-479 | logs clear as a mutating block |
| `MarsRover.Rover.SetPixelColor` | custom.ts:491-494 | logs setPixelColor(ledId, rgb) as a mutating block |
| `MarsRover.Rover.LedBrightness` | custom.ts:505-508 | logs setBrightness(brightness) as a mutating block |
| `MarsRover.Rover.LedRainbow` | custom.ts:517-520 | logs showRainbow(1, 360) as a mutating block |
| `MarsRover.Rover.LedRotate` | custom.ts:567-570 | logs rotate(1) as a mutating block |
| `MarsRover.Rover.LedShift` | custom.ts:579-582 | logs shift(1) as a mutating block |
| `MarsRover.Rover.SetUpdateMode` | custom.ts:545-547 | sets the update mode and nothing else |
| `MarsRover.Rover.LedShow` | custom.ts:556-558 | creates the strip if needed and refreshes it, whatever the mode |

## Left out

- `writeEEROM` (custom.ts:409-418): its body is commented out, so it does nothing. The commented-out EEPROM read in `readEEROM` is dead code; only its `return 0` is modelled.
- The identity accessors `getServoNumber`, `eColours` and `eKeyValue`, `getMotorAngle` (which returns `"hello"`), the block annotations and the UI enumerations: they have no behaviour.
- The unused module variables `EEROM`, `leftSpeed` and `rightSpeed`.
- Timing: `control.waitMicros` and `basic.pause`. Their durations are not logged.
- MarsRover.Rover.ReadSonar: the echo readings are inputs. `pulseIn`'s timeout is logged but not simulated. The method needs ten readings to be supplied.
- MarsRover.Rover.WaitKey: the two busy-wait polls on P15 before each frame are hardware handshakes with no bound, so they are left out. The source retries forever on all-ones frames, so the method needs the supplied frames to hold one that is not all ones.
- The neopixel library's internals: `create`, `showColor`, `clear`, `setPixelColor`, `setBrightness`, `showRainbow`, `rotate`, `shift` and `show` are logged calls. Any refresh they perform internally is not modelled.
- What the PCA9685 and the PWM hardware physically do with the values written.
- Numbers are integers. TypeScript `number`s can be fractional (a fractional angle, say), and that is not modelled. The sonar divisions use exact reals rather than floating point.
- A servo index outside 0..15 is a precondition (`servoOffset[servo]` is undefined in the source).
- The offsets the array holds before the first initialisation (the source starts with an empty array). Every read comes after initialisation, which overwrites all 16 entries.
- Concurrency: the layer is single-threaded.

The model follows the code as written:

- motor speeds are not clamped to [-1023, 1023];
- there are no error kinds for a bad channel, a missing echo or a keypad timeout;
- a sonar reading that stays 0 after ten attempts is returned as 0.
