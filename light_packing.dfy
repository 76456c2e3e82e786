/**
  The layout of the three flat light uniform arrays (uLightPos, uLightPower,
  uLightColor) that AdvancedMaterial.SetLights fills in place. Each layout is a
  function of the light list and of the number of packed lights, built one light
  at a time, the way the packing loop walks the lights. The colour layout comes
  twice: as the loop is written (ColorSlotsAsWritten), where blue lands in the
  green slot, and as intended (ColorSlots), which the material uses.
 */
module LightPacking {

  /** A position as the light reports it (rajawali.math.Number3D). */
  datatype Vec3 = Vec3(x: real, y: real, z: real)

  /** The three channels of a light's colour, in the order the light reports them. */
  datatype Rgb = Rgb(r: real, g: real, b: real)

  /** What the packing reads of one light: its position, colour and power. */
  datatype Light = Light(position: Vec3, color: Rgb, power: real)

  /** The position array for the first n lights: three slots per light, X negated. */
  function PositionSlots(lights: seq<Light>, n: nat): (s: seq<real>)
    requires n <= |lights|
    ensures |s| == 3 * n
  {
    if n == 0 then []
    else
      var p := lights[n - 1].position;
      PositionSlots(lights, n - 1) + [-p.x, p.y, p.z]
  }

  /** The power array for the first n lights: one slot per light. */
  function PowerSlots(lights: seq<Light>, n: nat): (s: seq<real>)
    requires n <= |lights|
    ensures |s| == n
  {
    if n == 0 then [] else PowerSlots(lights, n - 1) + [lights[n - 1].power]
  }

  /**
    The colour array for the first n lights as the packing loop leaves it: slot
    3i gets red, slot 3i+1 is written with green and then overwritten with blue,
    and slot 3i+2 is never written, so it keeps its value from `prev`.
   */
  function ColorSlotsAsWritten(prev: seq<real>, lights: seq<Light>, n: nat): (s: seq<real>)
    requires n <= |lights| && 3 * n <= |prev|
    ensures |s| == 3 * n
  {
    if n == 0 then []
    else
      var c := lights[n - 1].color;
      ColorSlotsAsWritten(prev, lights, n - 1) + [c.r, c.b, prev[3 * (n - 1) + 2]]
  }

  /** The colour array the layout calls for: each channel in its own slot. */
  function ColorSlots(lights: seq<Light>, n: nat): (s: seq<real>)
    requires n <= |lights|
    ensures |s| == 3 * n
  {
    if n == 0 then []
    else
      var c := lights[n - 1].color;
      ColorSlots(lights, n - 1) + [c.r, c.g, c.b]
  }

  /** Light i's position sits at slots 3i, 3i+1, 3i+2, with X negated and Y, Z unchanged. */
  lemma {:induction false} PositionSlotsAt(lights: seq<Light>, n: nat, i: nat)
    requires i < n <= |lights|
    ensures PositionSlots(lights, n)[3 * i] == -lights[i].position.x
    ensures PositionSlots(lights, n)[3 * i + 1] == lights[i].position.y
    ensures PositionSlots(lights, n)[3 * i + 2] == lights[i].position.z
  {
    if i < n - 1 {
      PositionSlotsAt(lights, n - 1, i);
    }
  }

  /** Light i's power sits unchanged at slot i. */
  lemma {:induction false} PowerSlotsAt(lights: seq<Light>, n: nat, i: nat)
    requires i < n <= |lights|
    ensures PowerSlots(lights, n)[i] == lights[i].power
  {
    if i < n - 1 {
      PowerSlotsAt(lights, n - 1, i);
    }
  }

  /**
    As written, slot 3i holds light i's red, slot 3i+1 its blue (not its green),
    and slot 3i+2 whatever it held before the repack.
   */
  lemma {:induction false} ColorSlotsAsWrittenAt(prev: seq<real>, lights: seq<Light>, n: nat, i: nat)
    requires i < n <= |lights| && 3 * n <= |prev|
    ensures ColorSlotsAsWritten(prev, lights, n)[3 * i] == lights[i].color.r
    ensures ColorSlotsAsWritten(prev, lights, n)[3 * i + 1] == lights[i].color.b
    ensures ColorSlotsAsWritten(prev, lights, n)[3 * i + 2] == prev[3 * i + 2]
  {
    if i < n - 1 {
      ColorSlotsAsWrittenAt(prev, lights, n - 1, i);
    }
  }

  /** In the intended layout, light i's red, green and blue sit at 3i, 3i+1, 3i+2. */
  lemma {:induction false} ColorSlotsAt(lights: seq<Light>, n: nat, i: nat)
    requires i < n <= |lights|
    ensures ColorSlots(lights, n)[3 * i] == lights[i].color.r
    ensures ColorSlots(lights, n)[3 * i + 1] == lights[i].color.g
    ensures ColorSlots(lights, n)[3 * i + 2] == lights[i].color.b
  {
    if i < n - 1 {
      ColorSlotsAt(lights, n - 1, i);
    }
  }

  /**
    The packing as written agrees with the intended layout exactly when, for every
    packed light, green equals blue and the blue slot already held that blue.
   */
  lemma {:induction false} AsWrittenMatchesIntendedIff(prev: seq<real>, lights: seq<Light>, n: nat)
    requires n <= |lights| && 3 * n <= |prev|
    ensures ColorSlotsAsWritten(prev, lights, n) == ColorSlots(lights, n)
        <==> forall i :: 0 <= i < n ==>
               lights[i].color.g == lights[i].color.b && prev[3 * i + 2] == lights[i].color.b
  {
    if n > 0 {
      AsWrittenMatchesIntendedIff(prev, lights, n - 1);
      var w, c := ColorSlotsAsWritten(prev, lights, n - 1), ColorSlots(lights, n - 1);
      var l := lights[n - 1].color;
      var tw, tc := [l.r, l.b, prev[3 * (n - 1) + 2]], [l.r, l.g, l.b];
      assert ColorSlotsAsWritten(prev, lights, n) == w + tw;
      assert ColorSlots(lights, n) == c + tc;
      if w + tw == c + tc {
        assert w == (w + tw)[..3 * (n - 1)] && c == (c + tc)[..3 * (n - 1)];
        assert tw == (w + tw)[3 * (n - 1)..] && tc == (c + tc)[3 * (n - 1)..];
      }
    }
  }

  /**
    A light whose colour is pure green packs, as written, with no green at all:
    its green slot receives blue (0.0) and its blue slot keeps the previous 0.0.
   */
  lemma PureGreenIsLost()
    ensures ColorSlotsAsWritten([0.0, 0.0, 0.0], [Light(Vec3(0.0, 0.0, 0.0), Rgb(0.0, 1.0, 0.0), 1.0)], 1)
         == [0.0, 0.0, 0.0]
    ensures ColorSlots([Light(Vec3(0.0, 0.0, 0.0), Rgb(0.0, 1.0, 0.0), 1.0)], 1) == [0.0, 1.0, 0.0]
  {
  }

  /*
    The packing loop's writes, light by light, on top of the array's previous
    contents `prev`: after i lights, slots from 3i (or i) on are untouched.
   */

  function PositionWrites(prev: seq<real>, lights: seq<Light>, i: nat): (s: seq<real>)
    requires i <= |lights| && 3 * i <= |prev|
    ensures |s| == |prev|
  {
    if i == 0 then prev
    else
      var p, index := lights[i - 1].position, 3 * (i - 1);
      PositionWrites(prev, lights, i - 1)[index := -p.x][index + 1 := p.y][index + 2 := p.z]
  }

  function PowerWrites(prev: seq<real>, lights: seq<Light>, i: nat): (s: seq<real>)
    requires i <= |lights| && i <= |prev|
    ensures |s| == |prev|
  {
    if i == 0 then prev else PowerWrites(prev, lights, i - 1)[i - 1 := lights[i - 1].power]
  }

  /** The colour writes as the loop is written: green, then blue, both into slot 3i+1. */
  function ColorWritesAsWritten(prev: seq<real>, lights: seq<Light>, i: nat): (s: seq<real>)
    requires i <= |lights| && 3 * i <= |prev|
    ensures |s| == |prev|
  {
    if i == 0 then prev
    else
      var c, index := lights[i - 1].color, 3 * (i - 1);
      ColorWritesAsWritten(prev, lights, i - 1)[index := c.r][index + 1 := c.g][index + 1 := c.b]
  }

  /** The colour writes with blue going to slot 3i+2. */
  function ColorWrites(prev: seq<real>, lights: seq<Light>, i: nat): (s: seq<real>)
    requires i <= |lights| && 3 * i <= |prev|
    ensures |s| == |prev|
  {
    if i == 0 then prev
    else
      var c, index := lights[i - 1].color, 3 * (i - 1);
      ColorWrites(prev, lights, i - 1)[index := c.r][index + 1 := c.g][index + 2 := c.b]
  }

  /** After i lights, the position array is their layout followed by the untouched rest. */
  lemma {:induction false} PositionWritesLayout(prev: seq<real>, lights: seq<Light>, i: nat)
    requires i <= |lights| && 3 * i <= |prev|
    ensures PositionWrites(prev, lights, i) == PositionSlots(lights, i) + prev[3 * i..]
  {
    if i > 0 {
      PositionWritesLayout(prev, lights, i - 1);
    }
  }

  /** After i lights, the power array is their powers followed by the untouched rest. */
  lemma {:induction false} PowerWritesLayout(prev: seq<real>, lights: seq<Light>, i: nat)
    requires i <= |lights| && i <= |prev|
    ensures PowerWrites(prev, lights, i) == PowerSlots(lights, i) + prev[i..]
  {
    if i > 0 {
      PowerWritesLayout(prev, lights, i - 1);
    }
  }

  /** After i lights as written, the colour array is their as-written layout followed by the untouched rest. */
  lemma {:induction false} ColorWritesAsWrittenLayout(prev: seq<real>, lights: seq<Light>, i: nat)
    requires i <= |lights| && 3 * i <= |prev|
    ensures ColorWritesAsWritten(prev, lights, i) == ColorSlotsAsWritten(prev, lights, i) + prev[3 * i..]
  {
    if i > 0 {
      ColorWritesAsWrittenLayout(prev, lights, i - 1);
    }
  }

  /** After i lights, the colour array is their colour layout followed by the untouched rest. */
  lemma {:induction false} ColorWritesLayout(prev: seq<real>, lights: seq<Light>, i: nat)
    requires i <= |lights| && 3 * i <= |prev|
    ensures ColorWrites(prev, lights, i) == ColorSlots(lights, i) + prev[3 * i..]
  {
    if i > 0 {
      ColorWritesLayout(prev, lights, i - 1);
    }
  }
}
