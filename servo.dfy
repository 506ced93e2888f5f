/** The servo controller's pure part: angle clamping, the angle-to-pulse
    mapping, and the register writes the PCA9685 receives. */
module Servo {
  import opened Hardware

  /** I2C address of the PCA9685 servo driver. */
  const PCA := 0x40
  /** First channel register (LED0_ON_L); channel s owns registers 6+4s .. 9+4s. */
  const SERVOS := 0x06
  /** Number of servo channels. */
  const Channels := 16

  /** Mode 1 register and prescale register of the driver. */
  const MODE1 := 0
  const PRESCALE := 0xFE

  /** The calibration store is a stub: every address reads as zero.  A real
      store would hand back a signed byte. */
  function ReadEEROM(address: int): (b: int)
    ensures -128 <= b < 128
  {
    0
  }

  /** The calibration table right after initialisation. */
  const NoOffsets: seq<int> := seq(Channels, i => ReadEEROM(i))

  /** The angle limited to [-90, 90]. */
  function Clamp(angle: int): (a: int)
    ensures -90 <= a <= 90
    ensures -90 <= angle <= 90 ==> a == angle
    ensures angle > 90 ==> a == 90
    ensures angle < -90 ==> a == -90
  {
    if angle > 90 then 90 else if angle < -90 then -90 else angle
  }

  /** `369 + (angle + offset) * 223 / 90` computed as a real number and then
      truncated toward zero, which is what the integer conversion of `& 0xff`
      and `>> 8` does to it.  Multiplied out: (33210 + (angle + offset) * 223) / 90. */
  function PulseWidth(angle: int, offset: int): (t: int)
    ensures var n := 33210 + (angle + offset) * 223;
            (n >= 0 ==> 0 <= t && 90 * t <= n < 90 * t + 90) &&
            (n < 0 ==> t <= 0 && 90 * t - 90 < n <= 90 * t)
    ensures offset == 0 && -90 <= angle <= 90 ==> 146 <= t <= 592
  {
    var n := 33210 + (angle + offset) * 223;
    if n >= 0 then n / 90 else -((-n) / 90)
  }

  /** `stop & 0xff`. */
  function LowByte(t: int): int
  {
    t % 256
  }

  /** `stop >> 8` stored into a byte cell.  The arithmetic shift floors, like
      Dafny's `/`; the 32-bit wrap of the shift operand only changes bits
      that the byte cell drops. */
  function HighByte(t: int): int
  {
    Byte(t / 256)
  }

  /** Splitting a pulse width into bytes loses nothing when it fits in 16 bits. */
  lemma BytesRecombine(t: int)
    requires 0 <= t < 0x1_0000
    ensures 0 <= LowByte(t) < 256 && 0 <= HighByte(t) < 256
    ensures LowByte(t) + 256 * HighByte(t) == t
  {
  }

  /** Whatever the pulse width, even a negative one or one of 16 bits or
      more, the two bytes keep it modulo 2^16. */
  lemma {:induction false} BytesAlways(t: int)
    ensures LowByte(t) + 256 * HighByte(t) == t % 0x1_0000
  {
    var q := t / 256;
    assert t == 256 * q + t % 256;
    assert q == 256 * (q / 256) + q % 256;
    assert t == 0x1_0000 * (q / 256) + (t % 256 + 256 * (q % 256));
  }

  /** The two writes that set channel `servo`'s stop (OFF) registers for a
      clamped angle and a calibration offset. */
  function ServoWrites(servo: int, angle: int, offset: int): (w: seq<I2cWrite>)
    requires 0 <= servo < Channels
    ensures |w| == 2
    ensures w[0].addr == PCA && w[0].reg == 8 + 4 * servo
    ensures w[1].addr == PCA && w[1].reg == 9 + 4 * servo
    ensures 0 <= w[0].data < 256 && 0 <= w[1].data < 256
    ensures w[0].data + 256 * w[1].data == PulseWidth(angle, offset) % 0x1_0000
    ensures 0 <= PulseWidth(angle, offset) < 0x1_0000 ==>
              w[0].data + 256 * w[1].data == PulseWidth(angle, offset)
  {
    var t := PulseWidth(angle, offset);
    BytesRecombine(t % 0x1_0000);
    BytesAlways(t);
    [I2cWrite(PCA, SERVOS + servo * 4 + 2, LowByte(t)),
     I2cWrite(PCA, SERVOS + servo * 4 + 3, HighByte(t))]
  }

  /** A large negative offset makes the stop value negative, and the bytes
      written are its two's-complement low 16 bits. */
  lemma NegativeStopWraps()
    ensures PulseWidth(-90, -60) == -2
    ensures ServoWrites(0, -90, -60)[0].data == 254 && ServoWrites(0, -90, -60)[1].data == 255
  {
  }

  /** With no calibration offset, every angle puts a pulse width of 146..592
      into the stop registers, low byte first. */
  lemma ServoWritesUncalibrated(servo: int, angle: int)
    requires 0 <= servo < Channels
    ensures var w := ServoWrites(servo, Clamp(angle), 0);
            146 <= w[0].data + 256 * w[1].data <= 592 &&
            w[0].data + 256 * w[1].data == PulseWidth(Clamp(angle), 0)
  {
  }

  /** An angle beyond either limit writes exactly what the limit writes. */
  lemma ClampSaturates(servo: int, angle: int, offset: int)
    requires 0 <= servo < Channels
    ensures angle >= 90 ==> ServoWrites(servo, Clamp(angle), offset) == ServoWrites(servo, 90, offset)
    ensures angle <= -90 ==> ServoWrites(servo, Clamp(angle), offset) == ServoWrites(servo, -90, offset)
  {
  }

  /** The writes that zero the start (ON) registers of channels 0 .. n-1: the
      low register of channel k/2 at even positions k, its high register at
      odd ones. */
  function StartWrites(n: nat): (w: seq<I2cWrite>)
  {
    seq(2 * n, k => I2cWrite(PCA, SERVOS + 4 * (k / 2) + k % 2, 0))
  }

  /** Zeroing one more channel appends its low then its high start register. */
  lemma StartWritesStep(n: nat)
    ensures StartWrites(n + 1) ==
            StartWrites(n) + [I2cWrite(PCA, SERVOS + n * 4 + 0, 0), I2cWrite(PCA, SERVOS + n * 4 + 1, 0)]
  {
    var w, v := StartWrites(n + 1), StartWrites(n) + [I2cWrite(PCA, SERVOS + n * 4 + 0, 0), I2cWrite(PCA, SERVOS + n * 4 + 1, 0)];
    forall k | 0 <= k < 2 * n + 2
      ensures w[k] == v[k]
    {
      if k >= 2 * n {
        assert k / 2 == n;
      }
    }
  }

  /** Sleep, prescale for a 60 Hz frame, wake. */
  const WakeWrites: seq<I2cWrite> :=
    [I2cWrite(PCA, MODE1, 0x10), I2cWrite(PCA, PRESCALE, 101), I2cWrite(PCA, MODE1, 0x81)]

  /** Everything the one-time initialisation sends to the driver. */
  function InitWrites(): seq<I2cWrite>
  {
    WakeWrites + StartWrites(Channels)
  }

  /** The initialisation writes, one by one: sleep, prescale to 60 Hz, wake,
      then (6+4s, 0) and (7+4s, 0) for s = 0 .. 15 in ascending order, all to
      the servo driver. */
  lemma InitWritesLayout()
    ensures |InitWrites()| == 3 + 2 * Channels
    ensures InitWrites()[0] == I2cWrite(PCA, MODE1, 0x10)
    ensures InitWrites()[1] == I2cWrite(PCA, PRESCALE, 101)
    ensures InitWrites()[2] == I2cWrite(PCA, MODE1, 0x81)
    ensures forall s :: 0 <= s < Channels ==>
              InitWrites()[3 + 2 * s] == I2cWrite(PCA, 6 + 4 * s, 0) &&
              InitWrites()[4 + 2 * s] == I2cWrite(PCA, 7 + 4 * s, 0)
  {
    var w, st := InitWrites(), StartWrites(Channels);
    forall s | 0 <= s < Channels
      ensures w[3 + 2 * s] == I2cWrite(PCA, 6 + 4 * s, 0) && w[4 + 2 * s] == I2cWrite(PCA, 7 + 4 * s, 0)
    {
      assert w[3 + 2 * s] == st[2 * s] && w[4 + 2 * s] == st[2 * s + 1];
      assert (2 * s) / 2 == s && (2 * s + 1) / 2 == s && (2 * s + 1) % 2 == 1;
    }
  }

  /** The writes that centre channels 0 .. n-1 with the given offsets: the two
      stop writes of channel k/2 at positions k. */
  function CentreWrites(offsets: seq<int>, n: nat): seq<I2cWrite>
    requires |offsets| == Channels && n <= Channels
  {
    seq(2 * n, k requires 0 <= k < 2 * n => ServoWrites(k / 2, 0, offsets[k / 2])[k % 2])
  }

  /** Centring one more channel appends that channel's two stop writes. */
  lemma CentreWritesStep(offsets: seq<int>, n: nat)
    requires |offsets| == Channels && n < Channels
    ensures CentreWrites(offsets, n + 1) == CentreWrites(offsets, n) + ServoWrites(n, 0, offsets[n])
  {
    var w, v := CentreWrites(offsets, n + 1), CentreWrites(offsets, n) + ServoWrites(n, 0, offsets[n]);
    forall k | 0 <= k < 2 * n + 2
      ensures w[k] == v[k]
    {
      if k >= 2 * n {
        assert k / 2 == n;
      }
    }
  }
}
