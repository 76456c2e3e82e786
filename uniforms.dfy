/**
  The graphics side of the material, reduced to what the material does with it:
  uniform locations looked up by name, and an ordered trace of uniform writes.
 */
module Uniforms {

  /** GLES20.GL_TRUE and GLES20.GL_FALSE. */
  const GL_TRUE: int := 1
  const GL_FALSE: int := 0

  /** The location glGetUniformLocation reports for a name the program does not use. */
  const NO_LOCATION: int := -1

  /** The value of a handle field that was never resolved (a Java int field's default). */
  const UNRESOLVED: int := 0

  /** The uniforms the material addresses. */
  datatype Uniform =
    | NormalMatrix | AmbientColor | AmbientIntensity
    | LightPos | LightColor | LightPower
    | FogColor | FogNear | FogFar | FogEnabled

  /** The name each uniform has in the shader source. */
  function Name(u: Uniform): string
  {
    match u
    case NormalMatrix => "uNMatrix"
    case AmbientColor => "uAmbientColor"
    case AmbientIntensity => "uAmbientIntensity"
    case LightPos => "uLightPos"
    case LightColor => "uLightColor"
    case LightPower => "uLightPower"
    case FogColor => "uFogColor"
    case FogNear => "uFogNear"
    case FogFar => "uFogFar"
    case FogEnabled => "uFogEnabled"
  }

  /** The uniforms every shader build resolves. */
  const CORE_UNIFORMS: set<Uniform> :=
    {NormalMatrix, AmbientColor, AmbientIntensity, LightPos, LightColor, LightPower}

  /** The uniforms that exist only when fog is compiled in. */
  const FOG_UNIFORMS: set<Uniform> := {FogColor, FogNear, FogFar, FogEnabled}

  /** The payload of one glUniform* call. */
  datatype Value =
    | Mat3Array(count: nat, transpose: bool, data: seq<real>)  // glUniformMatrix3fv(location, count, transpose, data, 0)
    | Vec4Array(count: nat, data: seq<real>)   // glUniform4fv(location, count, data, 0)
    | Vec3Array(count: nat, data: seq<real>)   // glUniform3fv(location, count, data, 0)
    | FloatArray(count: nat, data: seq<real>)  // glUniform1fv(location, count, data, 0)
    | Float(x: real)                           // glUniform1f(location, x)
    | Int(i: int)                              // glUniform1i(location, i)

  /** One uniform write: the uniform whose handle was used, that handle, the value. */
  datatype Write = Write(uniform: Uniform, location: int, value: Value)

  /** getUniformLocation against a linked program's table of active uniforms. */
  function Locate(program: map<string, int>, u: Uniform): (loc: int)
    ensures Name(u) in program ==> loc == program[Name(u)]
    ensures Name(u) !in program ==> loc == NO_LOCATION
  {
    if Name(u) in program then program[Name(u)] else NO_LOCATION
  }

  /** The handle a material holds for a uniform. */
  function Location(handles: map<Uniform, int>, u: Uniform): (loc: int)
    ensures u in handles ==> loc == handles[u]
    ensures u !in handles ==> loc == UNRESOLVED
  {
    if u in handles then handles[u] else UNRESOLVED
  }

  /** The uniforms of a trace, in order. */
  function Names(w: seq<Write>): (names: seq<Uniform>)
    ensures |names| == |w|
    ensures forall k :: 0 <= k < |w| ==> names[k] == w[k].uniform
  {
    if w == [] then [] else [w[0].uniform] + Names(w[1..])
  }

  /** How many writes of a trace go to fog uniforms. */
  function FogWriteCount(w: seq<Write>): nat
  {
    if w == [] then 0
    else (if w[0].uniform in FOG_UNIFORMS then 1 else 0) + FogWriteCount(w[1..])
  }

  /** Counting fog writes distributes over concatenation of traces. */
  lemma {:induction false} FogWriteCountAppend(u: seq<Write>, v: seq<Write>)
    ensures FogWriteCount(u + v) == FogWriteCount(u) + FogWriteCount(v)
  {
    if u != [] {
      assert (u + v)[1..] == u[1..] + v;
      FogWriteCountAppend(u[1..], v);
    } else {
      assert u + v == v;
    }
  }

  /** A trace whose writes all go to non-fog uniforms has no fog writes. */
  lemma {:induction false} NoFogWrites(w: seq<Write>)
    requires forall k :: 0 <= k < |w| ==> w[k].uniform !in FOG_UNIFORMS
    ensures FogWriteCount(w) == 0
  {
    if w != [] {
      NoFogWrites(w[1..]);
    }
  }

  /** The writes of one bind (useProgram), from the material's state. */
  function BindWrites(handles: map<Uniform, int>, ambientColor: seq<real>, ambientIntensity: seq<real>,
                      fogEnabled: bool, fogColor: seq<real>, fogNear: real, fogFar: real): (w: seq<Write>)
  {
    var ambient := [Write(AmbientColor, Location(handles, AmbientColor), Vec4Array(1, ambientColor)),
                    Write(AmbientIntensity, Location(handles, AmbientIntensity), Vec4Array(1, ambientIntensity))];
    if fogEnabled then
      ambient + [Write(FogColor, Location(handles, FogColor), Vec3Array(1, fogColor)),
                 Write(FogNear, Location(handles, FogNear), Float(fogNear)),
                 Write(FogFar, Location(handles, FogFar), Float(fogFar)),
                 Write(FogEnabled, Location(handles, FogEnabled), Int(if fogEnabled then GL_TRUE else GL_FALSE))]
    else ambient
  }

  /**
    A bind writes ambient colour and intensity, and then, only while fog is
    enabled, fog colour, near, far and the enabled flag (as GL_TRUE), each with
    the material's current value and to the handle the material holds for it.
   */
  lemma BindWritesLayout(handles: map<Uniform, int>, ambientColor: seq<real>, ambientIntensity: seq<real>,
                         fogEnabled: bool, fogColor: seq<real>, fogNear: real, fogFar: real)
    ensures var w := BindWrites(handles, ambientColor, ambientIntensity, fogEnabled, fogColor, fogNear, fogFar);
      && Names(w) == [AmbientColor, AmbientIntensity] + (if fogEnabled then [FogColor, FogNear, FogFar, FogEnabled] else [])
      && (forall k :: 0 <= k < |w| ==> w[k].location == Location(handles, w[k].uniform))
      && w[0].value == Vec4Array(1, ambientColor) && w[1].value == Vec4Array(1, ambientIntensity)
      && (fogEnabled ==> w[2].value == Vec3Array(1, fogColor) && w[3].value == Float(fogNear)
                         && w[4].value == Float(fogFar) && w[5].value == Int(GL_TRUE))
  {
  }

  /** A bind issues exactly four fog writes when fog is enabled and none when it is not. */
  lemma BindFogWriteCount(handles: map<Uniform, int>, ambientColor: seq<real>, ambientIntensity: seq<real>,
                          fogEnabled: bool, fogColor: seq<real>, fogNear: real, fogFar: real)
    ensures FogWriteCount(BindWrites(handles, ambientColor, ambientIntensity, fogEnabled, fogColor, fogNear, fogFar))
         == if fogEnabled then 4 else 0
    ensures |BindWrites(handles, ambientColor, ambientIntensity, fogEnabled, fogColor, fogNear, fogFar)|
         == if fogEnabled then 6 else 2
  {
    var w := BindWrites(handles, ambientColor, ambientIntensity, fogEnabled, fogColor, fogNear, fogFar);
    BindWritesLayout(handles, ambientColor, ambientIntensity, fogEnabled, fogColor, fogNear, fogFar);
    assert Names(w)[0] == AmbientColor && Names(w)[1] == AmbientIntensity;
    NoFogWrites(w[..2]);
    if fogEnabled {
      assert w == w[..2] + w[2..];
      FogWriteCountAppend(w[..2], w[2..]);
      var f := w[2..];
      assert f[0].uniform in FOG_UNIFORMS && f[1].uniform in FOG_UNIFORMS;
      assert f[2].uniform in FOG_UNIFORMS && f[3].uniform in FOG_UNIFORMS;
      assert FogWriteCount(f[3..]) == 1 by { assert f[3..][1..] == []; }
      assert FogWriteCount(f[2..]) == 2 by { assert f[2..][1..] == f[3..]; }
      assert FogWriteCount(f[1..]) == 3 by { assert f[1..][1..] == f[2..]; }
      assert FogWriteCount(f) == 4;
    } else {
      assert w == w[..2];
    }
  }

  /** The handles that resolving the uniforms `us` against a linked program yields. */
  function Resolve(program: map<string, int>, us: set<Uniform>): (m: map<Uniform, int>)
    ensures m.Keys == us
    ensures forall u :: u in m ==> m[u] == Locate(program, u)
  {
    map u | u in us :: Locate(program, u)
  }

  /** Merging resolved handles over old ones replaces exactly the resolved uniforms. */
  lemma ResolveOverrides(handles: map<Uniform, int>, program: map<string, int>, us: set<Uniform>)
    ensures forall u :: Location(handles + Resolve(program, us), u)
                     == if u in us then Locate(program, u) else Location(handles, u)
  {
  }

  /** No uniform is both a core and a fog uniform. */
  lemma CoreAndFogDisjoint()
    ensures CORE_UNIFORMS !! FOG_UNIFORMS
  {
  }
}
