/** The LED strip controller's pure part: the calls made on the neopixel
    strip, the refresh policy, and colour packing. */
module Leds {
  import opened Hardware

  datatype UpdateMode = Manual | Auto

  /** The strip handle: the pin it hangs on and its length. */
  datatype Strip = Strip(pin: Pin, length: nat)

  /** The strip created on first use: four pixels on P2 (RGB order). */
  const DefaultStrip := Strip(P2, 4)
  const DefaultBrightness := 40

  /** One call into the neopixel library.  Only `Show` is a refresh; what the
      other calls do inside the library is not modelled. */
  datatype LedOp =
    | Create(pin: Pin, length: nat)
    | SetBrightness(level: int)
    | ShowColor(rgb: int)
    | Clear
    | SetPixel(index: int, rgb: int)
    | Rainbow(startHue: int, endHue: int)
    | Rotate(offset: int)
    | Shift(offset: int)
    | Show

  /** The calls the lazy strip creation makes: none when a strip exists. */
  function StripSetup(hasStrip: bool): (w: seq<LedOp>)
    ensures hasStrip <==> w == []
  {
    if hasStrip then [] else [Create(DefaultStrip.pin, DefaultStrip.length), SetBrightness(DefaultBrightness)]
  }

  /** The number of hardware refreshes in a log. */
  function Refreshes(log: seq<LedOp>): (n: nat)
    ensures n <= |log|
    ensures n == 0 <==> forall k :: 0 <= k < |log| ==> log[k] != Show
  {
    if log == [] then 0
    else Refreshes(log[..|log| - 1]) + (if log[|log| - 1] == Show then 1 else 0)
  }

  lemma {:induction false} RefreshesAppend(a: seq<LedOp>, b: seq<LedOp>)
    ensures Refreshes(a + b) == Refreshes(a) + Refreshes(b)
    decreases |b|
  {
    if b != [] {
      var n := |b|;
      assert (a + b)[..|a + b| - 1] == a + b[..n - 1];
      RefreshesAppend(a, b[..n - 1]);
    } else {
      assert a + b == a;
    }
  }

  /** What one mutating LED block does to the strip log: create the strip if
      needed, make the change, and refresh when the mode is Auto. */
  function BlockLog(hasStrip: bool, change: LedOp, mode: UpdateMode): seq<LedOp>
  {
    StripSetup(hasStrip) + [change] + (if mode == Auto then [Show] else [])
  }

  /** A mutating block refreshes exactly once in Auto mode and never in Manual. */
  lemma BlockRefreshes(hasStrip: bool, change: LedOp, mode: UpdateMode)
    requires change != Show
    ensures Refreshes(BlockLog(hasStrip, change, mode)) == if mode == Auto then 1 else 0
  {
    RefreshesAppend(StripSetup(hasStrip), [change]);
    RefreshesAppend(StripSetup(hasStrip) + [change], if mode == Auto then [Show] else []);
  }

  /** An explicit show refreshes exactly once, whatever the mode. */
  lemma ShowRefreshes(hasStrip: bool)
    ensures Refreshes(StripSetup(hasStrip) + [Show]) == 1
  {
    RefreshesAppend(StripSetup(hasStrip), [Show]);
  }

  /** Pack three channels, each reduced to its low eight bits, red highest.
      The shifted fields do not overlap, so the bitwise or is a sum. */
  function ConvertRGB(r: int, g: int, b: int): (c: int)
    ensures 0 <= c < 0x100_0000
    ensures c / 0x1_0000 == r % 256
    ensures c / 0x100 % 256 == g % 256
    ensures c % 256 == b % 256
  {
    (r % 256) * 0x1_0000 + (g % 256) * 0x100 + b % 256
  }

  /** Unpacking the three channels of a 24-bit colour and packing them again
      gives the colour back. */
  lemma ConvertRGBRoundTrip(c: int)
    requires 0 <= c < 0x100_0000
    ensures ConvertRGB(c / 0x1_0000, c / 0x100 % 256, c % 256) == c
  {
  }

  lemma ConvertRGBExamples()
    ensures ConvertRGB(255, 0, 0) == 0xFF0000
    ensures ConvertRGB(0, 255, 0) == 0x00FF00
    ensures ConvertRGB(1, 2, 3) == 0x010203
  {
  }
}
