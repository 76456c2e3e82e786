/**
  Colours packed into one 32-bit Java int, in the android.graphics.Color layout:
  alpha in bits 24-31, red in 16-23, green in 8-15, blue in 0-7. The channel
  readers behave as Color.alpha/red/green/blue. The ambient conversion comes as
  written (integer division) and as intended (NormalizedAmbient, which
  AdvancedMaterial.SetAmbientColorPacked uses); SetFogColor uses FogRgb.
 */
module PackedColor {

  /** A Java int. */
  type Int32 = x: int | -0x8000_0000 <= x < 0x8000_0000

  /** The 32 bits of a Java int read as an unsigned number. */
  function Bits(c: Int32): (u: nat)
    ensures u < 0x1_0000_0000
    ensures u % 0x1_0000_0000 == c % 0x1_0000_0000
  {
    if c < 0 then c + 0x1_0000_0000 else c
  }

  function Alpha(c: Int32): (ch: nat)
    ensures ch < 256
  {
    Bits(c) / 0x100_0000
  }

  function Red(c: Int32): (ch: nat)
    ensures ch < 256
  {
    Bits(c) / 0x1_0000 % 0x100
  }

  function Green(c: Int32): (ch: nat)
    ensures ch < 256
  {
    Bits(c) / 0x100 % 0x100
  }

  function Blue(c: Int32): (ch: nat)
    ensures ch < 256
  {
    Bits(c) % 0x100
  }

  /** The int whose channels are a, r, g, b (Color.argb); the channel readers undo it. */
  function Argb(a: nat, r: nat, g: nat, b: nat): (c: Int32)
    requires a < 256 && r < 256 && g < 256 && b < 256
    ensures Alpha(c) == a && Red(c) == r && Green(c) == g && Blue(c) == b
  {
    var u := a * 0x100_0000 + r * 0x1_0000 + g * 0x100 + b;
    assert u / 0x100_0000 == a;
    assert u / 0x1_0000 == a * 0x100 + r;
    assert u / 0x100 == a * 0x1_0000 + r * 0x100 + g;
    if u < 0x8000_0000 then u else u - 0x1_0000_0000
  }

  /** The four channels in the order the ambient array takes them: red, green, blue, alpha. */
  function Channels(c: Int32): (ch: seq<nat>)
    ensures |ch| == 4 && forall k :: 0 <= k < 4 ==> ch[k] < 256
  {
    [Red(c), Green(c), Blue(c), Alpha(c)]
  }

  /** Every int is the packing of its own four channels. */
  lemma ArgbOfChannels(c: Int32)
    ensures Argb(Alpha(c), Red(c), Green(c), Blue(c)) == c
  {
    var u := Bits(c);
    var hi, mid, lo := u / 0x1_0000, u / 0x100, u;
    assert u / 0x100_0000 == hi / 0x100;
    assert hi == hi / 0x100 * 0x100 + hi % 0x100;
    assert mid == hi * 0x100 + mid % 0x100;
    assert lo == mid * 0x100 + lo % 0x100;
    assert u == Alpha(c) * 0x100_0000 + Red(c) * 0x1_0000 + Green(c) * 0x100 + Blue(c);
  }

  /**
    The ambient colour as the packed-int setter is written: every channel divided by 255
    in INTEGER arithmetic and then widened to a float, so a component is 1 when its
    channel is 255 and 0 otherwise.
   */
  function AmbientFromPacked(c: Int32): (rgba: seq<real>)
    ensures |rgba| == 4
    ensures forall k :: 0 <= k < 4 ==> rgba[k] == if Channels(c)[k] == 255 then 1.0 else 0.0
  {
    [(Red(c) / 255) as real, (Green(c) / 255) as real, (Blue(c) / 255) as real, (Alpha(c) / 255) as real]
  }

  /** One channel scaled to [0, 1], as `channel / 255f` does (without float rounding). */
  function Normalize(channel: nat): (x: real)
    requires channel < 256
    ensures 0.0 <= x <= 1.0
    ensures x * 255.0 == channel as real
  {
    channel as real / 255.0
  }

  /** The fog colour SetFogColor stores: red, green and blue scaled to [0, 1]. */
  function FogRgb(c: Int32): (rgb: seq<real>)
    ensures |rgb| == 3
    ensures forall k :: 0 <= k < 3 ==> 0.0 <= rgb[k] <= 1.0 && rgb[k] * 255.0 == Channels(c)[k] as real
  {
    [Normalize(Red(c)), Normalize(Green(c)), Normalize(Blue(c))]
  }

  /**
    The ambient colour with every channel scaled to [0, 1], as the fog colour
    setter scales its channels; scaling back by 255 recovers each channel.
   */
  function NormalizedAmbient(c: Int32): (rgba: seq<real>)
    ensures |rgba| == 4
    ensures forall k :: 0 <= k < 4 ==> 0.0 <= rgba[k] <= 1.0 && rgba[k] * 255.0 == Channels(c)[k] as real
  {
    [Normalize(Red(c)), Normalize(Green(c)), Normalize(Blue(c)), Normalize(Alpha(c))]
  }

  /**
    The two ambient conversions agree exactly on the colours whose every channel
    is 0 or 255; on any other colour the integer division loses that channel.
   */
  lemma AmbientAgreesIff(c: Int32)
    ensures AmbientFromPacked(c) == NormalizedAmbient(c)
        <==> forall k :: 0 <= k < 4 ==> Channels(c)[k] == 0 || Channels(c)[k] == 255
  {
    var a, n, ch := AmbientFromPacked(c), NormalizedAmbient(c), Channels(c);
    if a == n {
      forall k | 0 <= k < 4 ensures ch[k] == 0 || ch[k] == 255 {
        assert a[k] == n[k];
      }
    } else {
      var k :| 0 <= k < 4 && a[k] != n[k];
      assert ch[k] != 0 && ch[k] != 255;
    }
  }

  /** 0xFF0000FF, opaque blue in the ARGB layout, becomes the ambient colour (0, 0, 1, 1). */
  lemma OpaqueBlueAmbient()
    ensures Argb(0xFF, 0x00, 0x00, 0xFF) == -0x00FF_FF01
    ensures AmbientFromPacked(-0x00FF_FF01) == [0.0, 0.0, 1.0, 1.0]
  {
  }

  /** Opaque mid grey becomes black: its 128-valued channels divide to 0. */
  lemma GreyAmbientIsBlack()
    ensures AmbientFromPacked(Argb(255, 128, 128, 128)) == [0.0, 0.0, 0.0, 1.0]
    ensures NormalizedAmbient(Argb(255, 128, 128, 128))[0] == 128.0 / 255.0
  {
  }
}
