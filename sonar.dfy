/** The sonar ranger's pure part: which echo reading the retry loop keeps, the
    trigger pulses it sends, and the unit conversion. */
module Sonar {
  import opened Hardware

  datatype PingUnit = Centimeters | Inches | MicroSeconds

  /** The ranger tries at most this many times. */
  const Attempts := 10
  /** Farthest distance waited for, in centimetres; the echo timeout is the
      round trip to it at 58 microseconds per centimetre. */
  const MaxCmDistance := 500
  const EchoTimeout := MaxCmDistance * 58

  /** Trigger low, high, low on the shared pin, then time the echo. */
  const Ping: seq<PinOp> :=
    [DigitalWrite(P13, 0), DigitalWrite(P13, 1), DigitalWrite(P13, 0), EchoPulse(P13, EchoTimeout)]

  /** The pin operations of n attempts. */
  function Pings(n: nat): (w: seq<PinOp>)
    ensures |w| == 4 * n
  {
    if n == 0 then [] else Pings(n - 1) + Ping
  }

  /** The k-th write of n attempts is the (k mod 4)-th write of one ping. */
  lemma {:induction false} PingsRepeat(n: nat)
    ensures forall k :: 0 <= k < |Pings(n)| ==> Pings(n)[k] == Ping[k % 4]
  {
    if n > 0 {
      PingsRepeat(n - 1);
      forall k | 0 <= k < |Pings(n)|
        ensures Pings(n)[k] == Ping[k % 4]
      {
        if k >= 4 * (n - 1) {
          assert Pings(n)[k] == Ping[k - 4 * (n - 1)];
        }
      }
    }
  }

  /** The index, from `from` on, of the reading the ranger keeps: the first
      non-zero one, or the last attempt's when all are zero. */
  function KeptEcho(echoes: seq<nat>, from: nat): (k: nat)
    requires from < Attempts <= |echoes|
    ensures from <= k < Attempts
    ensures forall j :: from <= j < k ==> echoes[j] == 0
    ensures echoes[k] != 0 || k == Attempts - 1
    decreases Attempts - from
  {
    if echoes[from] != 0 || from == Attempts - 1 then from
    else KeptEcho(echoes, from + 1)
  }

  /** The kept reading is the only one with those properties: any index whose
      earlier readings are all zero and which is non-zero or the last attempt's
      is the kept one. */
  lemma KeptEchoUnique(echoes: seq<nat>, k: nat)
    requires Attempts <= |echoes| && k < Attempts
    requires forall j :: 0 <= j < k ==> echoes[j] == 0
    requires echoes[k] != 0 || k == Attempts - 1
    ensures KeptEcho(echoes, 0) == k
  {
  }

  /** The kept reading is zero exactly when all ten readings are zero. */
  lemma KeptEchoZero(echoes: seq<nat>)
    requires Attempts <= |echoes|
    ensures echoes[KeptEcho(echoes, 0)] == 0 <==> forall j :: 0 <= j < Attempts ==> echoes[j] == 0
  {
  }

  /** A raw echo time in microseconds, in the requested unit. */
  function Convert(unit: PingUnit, d: nat): (r: real)
    ensures unit == MicroSeconds ==> r == d as real
    ensures unit == Centimeters ==> r * 58.0 == d as real
    ensures unit == Inches ==> r * 148.0 == d as real
  {
    match unit
    case Centimeters => d as real / 58.0
    case Inches => d as real / 148.0
    case MicroSeconds => d as real
  }
}
