/**
  The CPU-side state of an advanced material: the flat light arrays it repacks in
  place, the ambient and fog parameters, the uniform handles of its shader, and
  the uniform writes it issues, kept as a trace.
 */
module AdvancedMaterials {
  import opened LightPacking
  import opened PackedColor
  import opened Uniforms
  import opened NormalMatrix

  /** What the material reads of the active camera. */
  datatype Camera = Camera(fogEnabled: bool, fogColor: Int32, fogNear: real, fogFar: real)

  class AdvancedMaterial {
    /** The renderer's maximum light count, fixed when the material is built. */
    const maxLights: nat
    /** The renderer's process-wide fog capability, fixed when the material is built. */
    const fogCapability: bool

    /** The normal matrix last uploaded: nine floats, row by row. */
    var normalMatrix: array<real>
    var lightPos: array<real>
    var lightPower: array<real>
    var lightColor: array<real>
    var ambientColor: array<real>
    var ambientIntensity: array<real>
    /** Allocated only when fog is compiled in. */
    var fogColor: array?<real>
    var fogNear: real
    var fogFar: real
    var fogEnabled: bool

    /** The resolved uniform handles, by uniform name; a missing name is an unassigned handle field. */
    var handles: map<Uniform, int>
    /** Every uniform write issued so far, oldest first. */
    var uploads: seq<Write>

    ghost predicate Valid()
      reads this
    {
      && normalMatrix.Length == 9
      && lightPos.Length == 3 * maxLights
      && lightColor.Length == 3 * maxLights
      && lightPower.Length == maxLights
      && lightPos != lightColor && lightPos != lightPower && lightColor != lightPower
      && normalMatrix != lightPos && normalMatrix != lightPower && normalMatrix != lightColor
      && (fogColor != null ==> fogColor != lightPos && fogColor != lightPower
                               && fogColor != lightColor && fogColor != normalMatrix)
      && (fogColor != null <==> fogCapability)
      && (fogColor != null ==> fogColor.Length == 3)
    }

    /** The fog colour as a value; empty when no fog colour was allocated. */
    function FogColorValues(): (rgb: seq<real>)
      reads this, fogColor
      ensures fogColor != null ==> rgb == fogColor[..]
      ensures fogColor == null ==> rgb == []
    {
      if fogColor == null then [] else fogColor[..]
    }

    constructor (maxLights: nat, fogCapability: bool)
      ensures Valid()
      ensures this.maxLights == maxLights && this.fogCapability == fogCapability
      ensures fresh(normalMatrix) && normalMatrix[..] == seq(9, _ => 0.0)
      ensures fresh(lightPos) && fresh(lightPower) && fresh(lightColor)
      ensures fresh(ambientColor) && fresh(ambientIntensity)
      ensures lightPos[..] == seq(3 * maxLights, _ => 0.0)
      ensures lightColor[..] == seq(3 * maxLights, _ => 0.0)
      ensures lightPower[..] == seq(maxLights, _ => 0.0)
      ensures ambientColor[..] == [0.2, 0.2, 0.2, 1.0]
      ensures ambientIntensity[..] == [0.3, 0.3, 0.3, 1.0]
      ensures fogCapability ==> fogColor != null && fresh(fogColor) && fogColor[..] == [0.8, 0.8, 0.8]
      ensures !fogCapability ==> fogColor == null
      ensures !fogEnabled && fogNear == 0.0 && fogFar == 0.0
      ensures handles == map[] && uploads == []
    {
      this.maxLights := maxLights;
      this.fogCapability := fogCapability;
      normalMatrix := new real[9](_ => 0.0);
      ambientColor := new real[4] [0.2, 0.2, 0.2, 1.0];
      ambientIntensity := new real[4] [0.3, 0.3, 0.3, 1.0];
      var pos := new real[maxLights * 3](_ => 0.0);
      lightPos := pos;
      lightPower := new real[maxLights](_ => 0.0);
      lightColor := new real[pos.Length](_ => 0.0);
      if fogCapability {
        fogColor := new real[3] [0.8, 0.8, 0.8];
      } else {
        fogColor := null;
      }
      fogNear, fogFar, fogEnabled := 0.0, 0.0, false;
      handles, uploads := map[], [];
    }

    /**
      One pass of the packing loop: writes light i's power, position and colour
      slots, with blue in slot 3i+2 (the loop as written puts it in 3i+1 over green).
     */
    method PackLight(lights: seq<Light>, i: nat)
      requires Valid()
      requires i < maxLights <= |lights|
      modifies lightPos, lightPower, lightColor
      ensures lightPower[..] == old(lightPower[..])[i := lights[i].power]
      ensures var p, index := lights[i].position, 3 * i;
              lightPos[..] == old(lightPos[..])[index := -p.x][index + 1 := p.y][index + 2 := p.z]
      ensures var c, index := lights[i].color, 3 * i;
              lightColor[..] == old(lightColor[..])[index := c.r][index + 1 := c.g][index + 2 := c.b]
    {
      var light := lights[i];
      var pos := light.position;
      var color := light.color;
      lightPower[i] := light.power;
      var index := i * 3;
      lightPos[index] := -pos.x;
      lightPos[index + 1] := pos.y;
      lightPos[index + 2] := pos.z;
      lightColor[index] := color.r;
      lightColor[index + 1] := color.g;
      lightColor[index + 2] := color.b;
    }

    /**
      Repacks the first maxLights lights into the three light arrays, in place,
      and uploads the arrays (positions, colours, powers). Each light's colour
      fills its three slots; ColorSlotsAsWritten is what the loop as written leaves.
     */
    method SetLights(lights: seq<Light>)
      requires Valid()
      requires |lights| >= maxLights
      modifies lightPos, lightPower, lightColor, this`uploads
      ensures Valid()
      ensures lightPos[..] == PositionSlots(lights, maxLights)
      ensures lightPower[..] == PowerSlots(lights, maxLights)
      ensures lightColor[..] == ColorSlots(lights, maxLights)
      ensures uploads == old(uploads) + [
                Write(LightPos, Location(handles, LightPos), Vec3Array(maxLights, lightPos[..])),
                Write(LightColor, Location(handles, LightColor), Vec3Array(maxLights, lightColor[..])),
                Write(LightPower, Location(handles, LightPower), FloatArray(maxLights, lightPower[..]))]
    {
      ghost var pos0, power0, color0 := lightPos[..], lightPower[..], lightColor[..];
      var i := 0;
      while i < maxLights
        invariant 0 <= i <= maxLights
        invariant lightPos[..] == PositionWrites(pos0, lights, i)
        invariant lightPower[..] == PowerWrites(power0, lights, i)
        invariant lightColor[..] == ColorWrites(color0, lights, i)
        invariant uploads == old(uploads)
      {
        PackLight(lights, i);
        i := i + 1;
      }
      PositionWritesLayout(pos0, lights, maxLights);
      PowerWritesLayout(power0, lights, maxLights);
      ColorWritesLayout(color0, lights, maxLights);
      assert pos0[3 * maxLights..] == [] && power0[maxLights..] == [] && color0[3 * maxLights..] == [];
      UploadLights();
    }

    /** Uploads the three light arrays: positions, colours, powers, maxLights entries each. */
    method UploadLights()
      modifies this`uploads
      ensures uploads == old(uploads) + [
                Write(LightPos, Location(handles, LightPos), Vec3Array(maxLights, lightPos[..])),
                Write(LightColor, Location(handles, LightColor), Vec3Array(maxLights, lightColor[..])),
                Write(LightPower, Location(handles, LightPower), FloatArray(maxLights, lightPower[..]))]
    {
      uploads := uploads + [Write(LightPos, Location(handles, LightPos), Vec3Array(maxLights, lightPos[..]))];
      uploads := uploads + [Write(LightColor, Location(handles, LightColor), Vec3Array(maxLights, lightColor[..]))];
      uploads := uploads + [Write(LightPower, Location(handles, LightPower), FloatArray(maxLights, lightPower[..]))];
    }

    /** Keeps the given array itself (not a copy) as the ambient colour. */
    method SetAmbientColor(color: array<real>)
      modifies this`ambientColor
      ensures ambientColor == color
    {
      ambientColor := color;
    }

    method SetAmbientColorRgba(r: real, g: real, b: real, a: real)
      modifies this`ambientColor
      ensures fresh(ambientColor) && ambientColor[..] == [r, g, b, a]
    {
      var color := new real[4] [r, g, b, a];
      SetAmbientColor(color);
    }

    /**
      Unpacks an ARGB int with every channel scaled to [0, 1] (see NormalizedAmbient;
      the integer division as written is AmbientFromPacked).
     */
    method SetAmbientColorPacked(color: Int32)
      modifies this`ambientColor
      ensures fresh(ambientColor) && ambientColor[..] == NormalizedAmbient(color)
    {
      var rgba := new real[4] [Normalize(Red(color)), Normalize(Green(color)),
                               Normalize(Blue(color)), Normalize(Alpha(color))];
      SetAmbientColor(rgba);
    }

    /** Keeps the given array itself (not a copy) as the ambient intensity. */
    method SetAmbientIntensity(intensity: array<real>)
      modifies this`ambientIntensity
      ensures ambientIntensity == intensity
    {
      ambientIntensity := intensity;
    }

    method SetAmbientIntensityRgba(r: real, g: real, b: real, a: real)
      modifies this`ambientIntensity
      ensures fresh(ambientIntensity) && ambientIntensity[..] == [r, g, b, a]
    {
      var intensity := new real[4] [r, g, b, a];
      SetAmbientIntensity(intensity);
    }

    /** Overwrites the fog colour in place; there is one only when fog is compiled in. */
    method SetFogColor(color: Int32)
      requires Valid() && fogColor != null
      modifies fogColor
      ensures fogColor[..] == FogRgb(color)
    {
      fogColor[0] := Normalize(Red(color));
      fogColor[1] := Normalize(Green(color));
      fogColor[2] := Normalize(Blue(color));
    }

    method SetFogNear(near: real)
      modifies this`fogNear
      ensures fogNear == near
    {
      fogNear := near;
    }

    method SetFogFar(far: real)
      modifies this`fogFar
      ensures fogFar == far
    {
      fogFar := far;
    }

    method SetFogEnabled(enabled: bool)
      modifies this`fogEnabled
      ensures fogEnabled == enabled
    {
      fogEnabled := enabled;
    }

    /**
      With a fogged camera, copies its fog colour, near and far and turns fog on;
      otherwise only turns fog off, keeping colour, near and far as they were.
     */
    method SetCamera(camera: Camera)
      requires Valid()
      requires camera.fogEnabled ==> fogCapability
      modifies this`fogNear, this`fogFar, this`fogEnabled, fogColor
      ensures Valid()
      ensures fogEnabled == camera.fogEnabled
      ensures camera.fogEnabled ==> FogColorValues() == FogRgb(camera.fogColor)
                                    && fogNear == camera.fogNear && fogFar == camera.fogFar
      ensures !camera.fogEnabled ==> FogColorValues() == old(FogColorValues())
                                     && fogNear == old(fogNear) && fogFar == old(fogFar)
    {
      if camera.fogEnabled {
        SetFogColor(camera.fogColor);
        SetFogNear(camera.fogNear);
        SetFogFar(camera.fogFar);
        SetFogEnabled(true);
      } else {
        SetFogEnabled(false);
      }
    }

    /**
      Binds the material: uploads ambient colour and intensity, and the four fog
      uniforms only while fog is enabled (see BindWrites and BindFogWriteCount).
     */
    method UseProgram()
      requires fogEnabled ==> fogColor != null
      modifies this`uploads
      ensures uploads == old(uploads) + BindWrites(handles, ambientColor[..], ambientIntensity[..],
                                                   fogEnabled, FogColorValues(), fogNear, fogFar)
    {
      uploads := uploads + [Write(AmbientColor, Location(handles, AmbientColor), Vec4Array(1, ambientColor[..]))];
      uploads := uploads + [Write(AmbientIntensity, Location(handles, AmbientIntensity), Vec4Array(1, ambientIntensity[..]))];
      if fogEnabled {
        uploads := uploads + [Write(FogColor, Location(handles, FogColor), Vec3Array(1, fogColor[..]))];
        uploads := uploads + [Write(FogNear, Location(handles, FogNear), Float(fogNear))];
        uploads := uploads + [Write(FogFar, Location(handles, FogFar), Float(fogFar))];
        uploads := uploads + [Write(FogEnabled, Location(handles, FogEnabled),
                                    Int(if fogEnabled then GL_TRUE else GL_FALSE))];
      }
    }

    /**
      Resolves the handles of a freshly linked program: the normal-matrix, ambient
      and light handles always, the fog handles only when fog is compiled in.
     */
    method SetShaders(program: map<string, int>)
      modifies this`handles
      ensures forall u :: u in CORE_UNIFORMS ==> Location(handles, u) == Locate(program, u)
      ensures forall u :: u in FOG_UNIFORMS ==>
                Location(handles, u) == if fogCapability then Locate(program, u) else old(Location(handles, u))
    {
      ResolveOverrides(handles, program, CORE_UNIFORMS);
      handles := handles + Resolve(program, CORE_UNIFORMS);
      if fogCapability {
        CoreAndFogDisjoint();
        ResolveOverrides(handles, program, FOG_UNIFORMS);
        handles := handles + Resolve(program, FOG_UNIFORMS);
      }
    }

    /**
      Recomputes the normal matrix from a 4x4 model matrix and uploads it: the
      inverse of the model matrix's upper-left 3x3 part, transposed. `invert`
      stands for android.graphics.Matrix: its result for a nine-float matrix,
      which is the identity when the matrix is singular (the target is reset
      before inverting).
     */
    method SetModelMatrix(modelMatrix: seq<real>, invert: seq<real> -> seq<real>)
      requires Valid()
      requires |modelMatrix| == 16
      requires |invert(UpperLeft(modelMatrix))| == 9
      modifies normalMatrix, this`uploads
      ensures Valid()
      ensures normalMatrix[..] == Transpose(invert(UpperLeft(modelMatrix)))
      ensures uploads == old(uploads) + [Write(NormalMatrix, Location(handles, NormalMatrix),
                                               Mat3Array(1, false, normalMatrix[..]))]
    {
      var m := modelMatrix;
      var upper := [m[0], m[1], m[2], m[4], m[5], m[6], m[8], m[9], m[10]];
      var tmp := invert(upper);
      normalMatrix[0], normalMatrix[1], normalMatrix[2] := tmp[0], tmp[3], tmp[6];
      normalMatrix[3], normalMatrix[4], normalMatrix[5] := tmp[1], tmp[4], tmp[7];
      normalMatrix[6], normalMatrix[7], normalMatrix[8] := tmp[2], tmp[5], tmp[8];
      uploads := uploads + [Write(NormalMatrix, Location(handles, NormalMatrix),
                                  Mat3Array(1, false, normalMatrix[..]))];
    }
  }
}
