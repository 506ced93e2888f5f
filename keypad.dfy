/** The keypad decoder's pure part: folding a frame of sampled bits into a
    number, the active-low inversion, and which frame a read returns. */
module Keypad {
  import opened Hardware

  type Bit = b: int | 0 <= b <= 1

  /** Bits in one keypad frame. */
  const FrameBits := 16

  function Pow2(n: nat): (p: nat)
    ensures p >= 1
  {
    if n == 0 then 1 else 2 * Pow2(n - 1)
  }

  /** 2^16, unrolled one power at a time: a frame's codes lie below this bound,
      which KeyCode and StopKeyDecodes rely on. */
  lemma Pow2Frame()
    ensures Pow2(FrameBits) == 0x1_0000
  {
    assert Pow2(1) == 2;
    assert Pow2(2) == 4;
    assert Pow2(3) == 8;
    assert Pow2(4) == 16;
    assert Pow2(5) == 32;
    assert Pow2(6) == 64;
    assert Pow2(7) == 128;
    assert Pow2(8) == 256;
    assert Pow2(9) == 512;
    assert Pow2(10) == 1024;
    assert Pow2(11) == 2048;
    assert Pow2(12) == 4096;
    assert Pow2(13) == 8192;
    assert Pow2(14) == 16384;
    assert Pow2(15) == 32768;
    assert Pow2(16) == 65536;
  }

  /** The bits shifted in most significant first: each new bit doubles what
      came before and is added as the low bit. */
  function Fold(bits: seq<Bit>): (v: nat)
    ensures v < Pow2(|bits|)
  {
    if bits == [] then 0
    else 2 * Fold(bits[..|bits| - 1]) + bits[|bits| - 1]
  }

  /** The n-bit binary form of v, most significant bit first. */
  function ToBits(v: nat, n: nat): (bits: seq<Bit>)
    ensures |bits| == n
  {
    if n == 0 then [] else ToBits(v / 2, n - 1) + [v % 2]
  }

  lemma {:induction false} FoldToBits(v: nat, n: nat)
    requires v < Pow2(n)
    ensures Fold(ToBits(v, n)) == v
  {
    if n > 0 {
      var rest := ToBits(v / 2, n - 1);
      FoldToBits(v / 2, n - 1);
      assert (rest + [v % 2])[..n - 1] == rest;
    }
  }

  lemma {:induction false} ToBitsFold(bits: seq<Bit>)
    ensures ToBits(Fold(bits), |bits|) == bits
  {
    if bits != [] {
      var n := |bits|;
      var init := bits[..n - 1];
      ToBitsFold(init);
      assert Fold(bits) / 2 == Fold(init) && Fold(bits) % 2 == bits[n - 1];
      assert bits == init + [bits[n - 1]];
    }
  }

  /** All ones, and only all ones, fold to the largest n-bit value. */
  lemma {:induction false} FoldAllOnes(bits: seq<Bit>)
    ensures Fold(bits) == Pow2(|bits|) - 1 <==> forall i :: 0 <= i < |bits| ==> bits[i] == 1
  {
    if bits != [] {
      var n := |bits|;
      var init := bits[..n - 1];
      FoldAllOnes(init);
      if forall i :: 0 <= i < n ==> bits[i] == 1 {
        assert forall i :: 0 <= i < n - 1 ==> init[i] == 1;
      }
      if Fold(bits) == Pow2(n) - 1 {
        assert Fold(init) == Pow2(n - 1) - 1 && bits[n - 1] == 1;
        forall i | 0 <= i < n
          ensures bits[i] == 1
        {
          if i < n - 1 {
            assert init[i] == bits[i];
          }
        }
      }
    }
  }

  function Invert(bits: seq<Bit>): (r: seq<Bit>)
    ensures |r| == |bits|
    ensures forall i :: 0 <= i < |bits| ==> r[i] == 1 - bits[i]
  {
    seq(|bits|, i requires 0 <= i < |bits| => 1 - bits[i])
  }

  /** Subtracting the folded value from the all-ones value is folding the
      inverted bits. */
  lemma {:induction false} FoldInvert(bits: seq<Bit>)
    ensures Fold(Invert(bits)) == Pow2(|bits|) - 1 - Fold(bits)
  {
    if bits != [] {
      var n := |bits|;
      FoldInvert(bits[..n - 1]);
      assert Invert(bits)[..n - 1] == Invert(bits[..n - 1]);
    }
  }

  /** The code one frame yields: its 16-bit complement (the keypad is active
      low), which is the fold of the inverted bits. */
  function KeyCode(frame: seq<Bit>): (code: int)
    requires |frame| == FrameBits
    ensures 0 <= code < 0x1_0000
    ensures code == Fold(Invert(frame))
  {
    Pow2Frame();
    FoldInvert(frame);
    65535 - Fold(frame)
  }

  /** A frame's code is 0 exactly when every sampled bit is 1, so a read
      retries exactly on all-ones frames. */
  lemma KeyCodeZero(frame: seq<Bit>)
    requires |frame| == FrameBits
    ensures KeyCode(frame) == 0 <==> forall i :: 0 <= i < FrameBits ==> frame[i] == 1
  {
    Pow2Frame();
    FoldAllOnes(frame);
  }

  /** The frame a read returns: the first, from `from` on, that is not all ones. */
  function FirstKeyFrame(frames: seq<seq<Bit>>, from: nat): (n: nat)
    requires forall j :: 0 <= j < |frames| ==> |frames[j]| == FrameBits
    requires exists j :: from <= j < |frames| && KeyCode(frames[j]) != 0
    ensures from <= n < |frames|
    ensures KeyCode(frames[n]) != 0
    ensures forall j :: from <= j < n ==> KeyCode(frames[j]) == 0
    decreases |frames| - from
  {
    if KeyCode(frames[from]) != 0 then from
    else FirstKeyFrame(frames, from + 1)
  }

  /** One clock pulse per bit: clock low, sample, clock high. */
  const ClockPulse: seq<PinOp> := [DigitalWrite(P16, 0), DigitalWrite(P16, 1)]

  /** The clock writes of n bits: low, high, low, high, ... */
  function ClockBits(n: nat): (w: seq<PinOp>)
  {
    seq(2 * n, k => DigitalWrite(P16, k % 2))
  }

  lemma ClockBitsStep(n: nat)
    ensures ClockBits(n + 1) == ClockBits(n) + ClockPulse
  {
    assert forall k :: 0 <= k < 2 * n + 2 ==> ClockBits(n + 1)[k] == (ClockBits(n) + ClockPulse)[k];
  }

  /** The clock writes of one attempt: raise the clock, then clock 16 bits. */
  const FrameClock: seq<PinOp> := [DigitalWrite(P16, 1)] + ClockBits(FrameBits)

  /** The clock writes of n attempts. */
  function KeyClocks(n: nat): (w: seq<PinOp>)
    ensures |w| == (1 + 2 * FrameBits) * n
  {
    if n == 0 then [] else KeyClocks(n - 1) + FrameClock
  }

  /** Every clock write of a read is a digital write on P16, and the clock is
      left high after each attempt. */
  lemma {:induction false} KeyClocksOnClockPin(n: nat)
    ensures forall k :: 0 <= k < |KeyClocks(n)| ==> KeyClocks(n)[k].DigitalWrite? && KeyClocks(n)[k].pin == P16
    ensures n > 0 ==> KeyClocks(n)[|KeyClocks(n)| - 1] == DigitalWrite(P16, 1)
  {
    if n > 0 {
      KeyClocksOnClockPin(n - 1);
      var w := KeyClocks(n);
      forall k | 0 <= k < |w|
        ensures w[k].DigitalWrite? && w[k].pin == P16
      {
        if k >= |KeyClocks(n - 1)| {
          var j := k - |KeyClocks(n - 1)|;
          assert w[k] == FrameClock[j];
          if j > 0 {
            assert FrameClock[j] == ClockBits(FrameBits)[j - 1];
          }
        }
      }
    }
  }

  /** The stop key: every line high except bit 7 decodes to 0b0000000010000000. */
  lemma StopKeyDecodes()
    ensures KeyCode(ToBits(65535 - 0x80, FrameBits)) == 0x80
  {
    Pow2Frame();
    FoldToBits(65535 - 0x80, FrameBits);
  }
}
