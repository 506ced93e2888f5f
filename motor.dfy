/** The motor driver's pure part: the PWM frequency tiers, the split of a
    signed speed into two duties, and the pin writes per target. */
module Motors {
  import opened Hardware

  datatype MotorSel = Left | Right | Both
  datatype StopMode = Coast | Brake

  /** `Math.abs`. */
  function Abs(x: int): (r: nat)
    ensures r == x || r == -x
  {
    if x < 0 then -x else x
  }

  /** The analog period (in microseconds) chosen for a speed: slower speeds get
      a lower PWM frequency for more torque. */
  function Period(speed: int): (p: int)
    ensures p == 60000 <==> speed < 200
    ensures p == 40000 <==> 200 <= speed < 300
    ensures p == 30000 <==> 300 <= speed
  {
    if speed < 200 then 60000
    else if speed < 300 then 40000
    else 30000
  }

  /** A faster speed never gets a longer period. */
  lemma PeriodMonotone(a: int, b: int)
    requires a <= b
    ensures Period(b) <= Period(a)
  {
  }

  /** The duty pair (forward, reverse) for a signed speed. */
  function Duties(speed: int): (d: (int, int))
    ensures d.0 >= 0 && d.1 >= 0
    ensures d.0 == 0 || d.1 == 0
    ensures d.0 - d.1 == speed
  {
    if speed > 0 then (speed, 0) else (0, 0 - speed)
  }

  /** The three conditions of `Duties` determine the pair: any pair of
      non-negative duties, at most one non-zero, whose difference is the speed,
      is the one `Duties` gives. */
  lemma DutiesUnique(speed: int, fwd: int, rev: int)
    requires fwd >= 0 && rev >= 0 && (fwd == 0 || rev == 0) && fwd - rev == speed
    ensures Duties(speed) == (fwd, rev)
  {
  }

  /** The duty writes for one target, forward pin first. */
  function DutyWrites(target: MotorSel, d: (int, int)): (w: seq<PinOp>)
    ensures target == Left ==> w == [AnalogWrite(P1, d.0), AnalogWrite(P12, d.1)]
    ensures target == Right ==> w == [AnalogWrite(P8, d.0), AnalogWrite(P0, d.1)]
    ensures target == Both ==> w == [AnalogWrite(P1, d.0), AnalogWrite(P12, d.1), AnalogWrite(P8, d.0), AnalogWrite(P0, d.1)]
  {
    (if target == Left || target == Both then [AnalogWrite(P1, d.0), AnalogWrite(P12, d.1)] else []) +
    (if target == Right || target == Both then [AnalogWrite(P8, d.0), AnalogWrite(P0, d.1)] else [])
  }

  /** Everything one `motor` call sends to the pins: the period once, first,
      then the duties. */
  function MotorWrites(target: MotorSel, speed: int): (w: seq<PinOp>)
    ensures |w| == if target == Both then 5 else 3
    ensures w[0] == AnalogPeriod(P0, Period(Abs(speed)))
  {
    [AnalogPeriod(P0, Period(Abs(speed)))] + DutyWrites(target, Duties(speed))
  }

  /** After the period, a motor command only writes duties, and a single
      motor's command only touches that motor's two pins. */
  lemma MotorWritesPins(target: MotorSel, speed: int)
    ensures forall k :: 1 <= k < |MotorWrites(target, speed)| ==> MotorWrites(target, speed)[k].AnalogWrite?
    ensures target == Left ==>
              forall k :: 1 <= k < |MotorWrites(target, speed)| ==> MotorWrites(target, speed)[k].pin in {P1, P12}
    ensures target == Right ==>
              forall k :: 1 <= k < |MotorWrites(target, speed)| ==> MotorWrites(target, speed)[k].pin in {P8, P0}
  {
    assert MotorWrites(target, speed)[1..] == DutyWrites(target, Duties(speed));
  }

  /** Driving both motors writes what driving the left and then the right one
      writes, with the same duties; only the period is set once. */
  lemma BothIsLeftThenRight(speed: int)
    ensures MotorWrites(Both, speed)[1..] == MotorWrites(Left, speed)[1..] + MotorWrites(Right, speed)[1..]
    ensures MotorWrites(Both, speed)[0] == MotorWrites(Left, speed)[0] == MotorWrites(Right, speed)[0]
  {
    assert MotorWrites(Both, speed)[1..] == DutyWrites(Both, Duties(speed));
    assert MotorWrites(Left, speed)[1..] == DutyWrites(Left, Duties(speed));
    assert MotorWrites(Right, speed)[1..] == DutyWrites(Right, Duties(speed));
  }

  /** The level every motor pin gets on a stop. */
  function StopLevel(mode: StopMode): (level: int)
    ensures level == 0 <==> mode == Coast
    ensures level == 1 <==> mode == Brake
  {
    match mode
    case Brake => 1
    case Coast => 0
  }

  /** A stop writes one level to P1, P12, P8 and P0, in that order. */
  function StopWrites(mode: StopMode): (w: seq<PinOp>)
    ensures |w| == 4
    ensures forall k :: 0 <= k < 4 ==> w[k] == DigitalWrite(w[k].pin, StopLevel(mode))
    ensures [w[0].pin, w[1].pin, w[2].pin, w[3].pin] == [P1, P12, P8, P0]
  {
    var level := StopLevel(mode);
    [DigitalWrite(P1, level), DigitalWrite(P12, level), DigitalWrite(P8, level), DigitalWrite(P0, level)]
  }
}
