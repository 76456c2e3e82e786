# AdvancedMaterial — a Dafny model

This project models `AAdvancedMaterial` from the Rajawali 3D engine. It is the
abstract base of the lit and fogged materials. It keeps on the CPU side the
values its shaders read:

- three flat light arrays: positions, powers and colours, three floats per light for
  positions and colours;
- an ambient colour and an ambient intensity (RGBA);
- a fog colour, fog near and far distances, and a fog switch;
- a normal matrix derived from the model matrix.

On each frame the material repacks the scene's lights into the arrays and
binds them to its program. The bind uploads the ambient values and, while fog
is on, the fog values. The uniform handles are resolved once per shader build.
Fog uniforms are only resolved when the renderer was built with fog.

The model is in four modules plus the class:

- `LightPacking` (`light_packing.dfy`): the light record the packing reads. It
  gives the layout of each light array as a function of the light list (position
  with X negated, power, colour), both as the packing loop writes it and as the
  layout intends it. It also gives the loop's writes, light by light, and lemmas
  that tie the writes to the layouts.
- `PackedColor` (`packed_color.dfy`): Java `int` colours in the
  `android.graphics.Color` ARGB layout, with their channel readers. It holds the
  ambient conversion as written (integer division by 255) and as intended
  (float division by 255), and the fog colour conversion (float division).
- `Uniforms` (`uniforms.dfy`): uniform names and locations, and the GL writes
  as a trace of `Write` values. Three definitions there stand for things the
  material relies on:
  - `Locate` is `getUniformLocation`: a lookup of the uniform's shader name in
    the linked program's table of active uniforms, giving -1 for a name the
    program does not have.
  - `Location` is reading a handle field: the stored location, or 0 (the Java
    default of an `int` field) for a handle never assigned.
  - `Resolve` is the batch of `getUniformLocation` calls one shader build makes
    for a set of uniforms.
- `NormalMatrix` (`normal_matrix.dfy`): the index shuffles around the normal
  matrix, that is, the upper-left 3x3 part of the model matrix and the 3x3
  transpose.
- `AdvancedMaterials.AdvancedMaterial` (`advanced_material.dfy`): the material
  itself, a class.
  - The float arrays become `array<real>` fields and are updated in place.
  - The fog colour array is `null` when fog is not compiled in.
  - `Valid()`, the well-formedness predicate, holds the array lengths. It also
    keeps the light arrays, the normal matrix and the fog colour pairwise
    distinct, as the separate allocations of the constructor leave them. An
    in-place write to one of them therefore leaves the others unchanged.
  - The handle fields are a map from uniform to location, and an unassigned
    handle reads as 0, the Java default.
  - The GL calls append to the `uploads` trace.

The renderer's process-wide settings become `const` fields fixed at
construction: the maximum light count and whether fog is compiled in. The
camera becomes a `Camera` value holding the four fog properties the material
reads. The matrix inversion done by `android.graphics.Matrix` becomes a function
parameter of `SetModelMatrix`.

## Model

| member | source | states |
|---|---|---|
| AdvancedMaterials.AdvancedMaterial.constructor | src/rajawali/materials/AAdvancedMaterial.java:88-104 | Allocates the three light arrays zero-filled: 3·maxLights, maxLights and 3·maxLights floats. Ambient colour starts at (0.2, 0.2, 0.2, 1) and intensity at (0.3, 0.3, 0.3, 1). The fog colour (0.8, 0.8, 0.8) exists exactly when fog is compiled in. Fog starts off and no handle is resolved. |
| AdvancedMaterials.AdvancedMaterial.PackLight | src/rajawali/materials/AAdvancedMaterial.java:115-125 | One pass of the packing loop, with the colour write corrected (see Findings). Light i's power goes to slot i, its position (X negated) to slots 3i..3i+2, and its red, green and blue to colour slots 3i..3i+2. Nothing else changes: the well-formedness predicate keeps the three light arrays, the normal matrix and the fog colour pairwise distinct, so no other array is touched. |
| AdvancedMaterials.AdvancedMaterial.SetLights | src/rajawali/materials/AAdvancedMaterial.java:107-131 | After the loop over maxLights lights, the position array equals PositionSlots and the power array equals PowerSlots. The colour array equals ColorSlots, the corrected layout. The material stays well formed. The trace gains three writes, in this order: positions, colours, powers, each with count maxLights and the array's new contents. |
| AdvancedMaterials.AdvancedMaterial.UploadLights | src/rajawali/materials/AAdvancedMaterial.java:128-130 | Appends the three light-array writes to their handles, in source order, and changes nothing else. |
| LightPacking.PositionSlotsAt | src/rajawali/materials/AAdvancedMaterial.java:119-122 | For every packed light i, slots 3i, 3i+1 and 3i+2 of the position layout hold -x, y and z of light i's position. |
| LightPacking.PowerSlotsAt | src/rajawali/materials/AAdvancedMaterial.java:118 | For every packed light i, slot i of the power layout holds light i's power. |
| LightPacking.ColorSlotsAsWrittenAt | src/rajawali/materials/AAdvancedMaterial.java:123-125 | As the loop is written, slot 3i holds light i's red and slot 3i+1 its blue. Slot 3i+2 keeps the value it held before the repack. |
| LightPacking.ColorSlotsAt | src/rajawali/materials/AAdvancedMaterial.java:123-125 | In the intended colour layout, slots 3i, 3i+1 and 3i+2 hold light i's red, green and blue. |
| LightPacking.AsWrittenMatchesIntendedIff | src/rajawali/materials/AAdvancedMaterial.java:123-125 | The packing as written equals the intended layout if and only if every packed light has green = blue and its blue slot already held that blue. |
| LightPacking.PureGreenIsLost | src/rajawali/materials/AAdvancedMaterial.java:123-125 | A pure green light over a zeroed array packs as (0, 0, 0), where the intended layout gives (0, 1, 0). |
| LightPacking.PositionWritesLayout | src/rajawali/materials/AAdvancedMaterial.java:114-122 | After i passes of the loop, the position array is the layout of the first i lights followed by the untouched rest of the old array. |
| LightPacking.PowerWritesLayout | src/rajawali/materials/AAdvancedMaterial.java:114-118 | After i passes, the power array is the first i powers followed by the untouched rest. |
| LightPacking.ColorWritesAsWrittenLayout | src/rajawali/materials/AAdvancedMaterial.java:114-125 | After i passes of the loop as written, the colour array is ColorSlotsAsWritten of the first i lights followed by the untouched rest. |
| LightPacking.ColorWritesLayout | src/rajawali/materials/AAdvancedMaterial.java:114-125 | After i passes of the corrected loop, the colour array is the intended colour layout of the first i lights followed by the untouched rest. |
| PackedColor.Argb | src/rajawali/materials/AAdvancedMaterial.java:142 | Packing four channels below 256 into an int in the ARGB layout is undone by the channel readers (Color.alpha, red, green, blue). |
| PackedColor.ArgbOfChannels | src/rajawali/materials/AAdvancedMaterial.java:142 | Every Java int is the ARGB packing of its own four channels, so the readers lose nothing. |
| PackedColor.AmbientFromPacked | src/rajawali/materials/AAdvancedMaterial.java:141-143 | The ambient colour of a packed int, in red, green, blue, alpha order. Each component is 1 when its channel is 255 and 0 otherwise, because the division by 255 is integer division. |
| AdvancedMaterials.AdvancedMaterial.SetAmbientColorPacked | src/rajawali/materials/AAdvancedMaterial.java:141-143 | Installs a fresh four-float array equal to NormalizedAmbient of the colour, which is the corrected conversion (see Findings). |
| PackedColor.Normalize | src/rajawali/materials/AAdvancedMaterial.java:154-156 | A channel divided by 255 as a float lies in [0, 1], and scaling it back by 255 gives the channel. |
| PackedColor.FogRgb | src/rajawali/materials/AAdvancedMaterial.java:153-157 | The fog colour of a packed int: three components in [0, 1], each 1/255 of the red, green and blue channel. |
| PackedColor.NormalizedAmbient | src/rajawali/materials/AAdvancedMaterial.java:142 | The corrected ambient conversion: four components in [0, 1], each 1/255 of its channel. |
| PackedColor.AmbientAgreesIff | src/rajawali/materials/AAdvancedMaterial.java:142 | The integer-division ambient equals the normalised ambient if and only if every channel is 0 or 255. |
| PackedColor.OpaqueBlueAmbient | src/rajawali/materials/AAdvancedMaterial.java:141-143 | The int 0xFF0000FF is opaque blue in the ARGB layout, and its ambient colour is (0, 0, 1, 1). |
| PackedColor.GreyAmbientIsBlack | src/rajawali/materials/AAdvancedMaterial.java:142 | Opaque mid grey (128, 128, 128) gives the ambient colour (0, 0, 0, 1), while the normalised red is 128/255. |
| AdvancedMaterials.AdvancedMaterial.SetAmbientColor | src/rajawali/materials/AAdvancedMaterial.java:133-135 | The material keeps the caller's array itself, not a copy, as its ambient colour. |
| AdvancedMaterials.AdvancedMaterial.SetAmbientColorRgba | src/rajawali/materials/AAdvancedMaterial.java:137-139 | The ambient colour becomes a fresh array holding (r, g, b, a). |
| AdvancedMaterials.AdvancedMaterial.SetAmbientIntensity | src/rajawali/materials/AAdvancedMaterial.java:145-147 | The material keeps the caller's array itself as its ambient intensity. |
| AdvancedMaterials.AdvancedMaterial.SetAmbientIntensityRgba | src/rajawali/materials/AAdvancedMaterial.java:149-151 | The ambient intensity becomes a fresh array holding (r, g, b, a). |
| AdvancedMaterials.AdvancedMaterial.SetFogColor | src/rajawali/materials/AAdvancedMaterial.java:153-157 | On a well-formed material, overwrites the existing fog colour array in place with FogRgb of the colour. The fog colour is distinct from the light arrays and the normal matrix, so those are untouched. |
| AdvancedMaterials.AdvancedMaterial.SetFogNear | src/rajawali/materials/AAdvancedMaterial.java:159-161 | The fog near distance becomes the argument. |
| AdvancedMaterials.AdvancedMaterial.SetFogFar | src/rajawali/materials/AAdvancedMaterial.java:163-165 | The fog far distance becomes the argument. |
| AdvancedMaterials.AdvancedMaterial.SetFogEnabled | src/rajawali/materials/AAdvancedMaterial.java:167-169 | The fog switch becomes the argument. |
| AdvancedMaterials.AdvancedMaterial.SetCamera | src/rajawali/materials/AAdvancedMaterial.java:184-195 | The fog switch follows the camera's. With a fogged camera, fog colour (as FogRgb), near and far are copied from it. Without fog, colour, near and far keep their previous values. The material stays well formed. |
| AdvancedMaterials.AdvancedMaterial.UseProgram | src/rajawali/materials/AAdvancedMaterial.java:171-182 | The trace gains exactly BindWrites of the material's current handles, ambient values and fog state. |
| Uniforms.BindWritesLayout | src/rajawali/materials/AAdvancedMaterial.java:174-181 | A bind writes ambient colour and then ambient intensity (count 1 each). Only while fog is enabled does it then write fog colour, near, far, and the switch as GL_TRUE. Each write carries the current value and goes to the handle held for that uniform. |
| Uniforms.BindFogWriteCount | src/rajawali/materials/AAdvancedMaterial.java:176-181 | A bind issues exactly four fog writes out of six when fog is enabled, and none out of two when it is not. |
| Uniforms.ResolveOverrides | src/rajawali/materials/AAdvancedMaterial.java:201-213 | Storing resolved handles replaces exactly the resolved uniforms' handles and keeps every other handle. |
| AdvancedMaterials.AdvancedMaterial.SetShaders | src/rajawali/materials/AAdvancedMaterial.java:197-215 | The normal-matrix, ambient and light handles become their locations in the program. The fog handles become theirs only when fog is compiled in, and otherwise keep their old values. |
| NormalMatrix.UpperLeft | src/rajawali/materials/AAdvancedMaterial.java:221-223 | The nine floats taken from the model matrix are its upper-left 3x3 block: element (row, col) of the result is element (row, col) of the 4x4 matrix. |
| NormalMatrix.UpperLeftIgnoresTranslation | src/rajawali/materials/AAdvancedMaterial.java:221-228 | The 3x3 block, and so the matrix that gets inverted, depends only on the linear part of the model matrix, not on its translation. |
| NormalMatrix.Transpose | src/rajawali/materials/AAdvancedMaterial.java:231-233 | The second shuffle is the transpose: element (row, col) of the result is element (col, row) of the inverse. |
| NormalMatrix.TransposeTwice | src/rajawali/materials/AAdvancedMaterial.java:231-233 | Transposing twice gives back the matrix, so the shuffle loses nothing. |
| AdvancedMaterials.AdvancedMaterial.SetModelMatrix | src/rajawali/materials/AAdvancedMaterial.java:217-238 | The normal matrix becomes the transpose of the inverse of the model matrix's upper-left 3x3 block. It is written into the existing array in place. The trace gains one untransposed 3x3 matrix write of it to the normal-matrix handle. |

## Left out

- The GLSL source fragments (light and fog declarations, the fog density computation) are strings passed to the shader compiler; no Java code path reads them.
- The superclass `AMaterial` is not part of this model. That covers the `super` calls in `setLights`, `useProgram`, `setCamera`, `setShaders` and `setModelMatrix`, the storage of the light list (`mLights`), and program linking. `SetLights` takes the light list directly, and `SetShaders` takes the linked program's table of active uniforms.
- The renderer's static settings (`RajawaliRenderer.getMaxLights()` and `isFogEnabled()`) are constructor parameters held in `const` fields. The model assumes, as the source does, that they do not change after construction.
- The no-argument constructor allocates no arrays; it is not modelled, and every method of the model assumes the arrays of the three-argument constructor. The scratch matrices `mTmp` and `mTmp2` are locals of `SetModelMatrix`.
- All float arithmetic is exact real arithmetic: the literals 0.2f, 0.3f and 0.8f, the division by 255f, and the negation of X. Single-precision rounding is not modelled.
- `SetModelMatrix`: the inversion by `android.graphics.Matrix` is a function parameter, about which nothing is assumed except that it returns nine floats. The model matrix is taken to be 16 floats, although the source only reads its first 11.
- The GL calls are trace entries. The model does not capture GL's own checks (a location of -1 is silently ignored by GL, and an array shorter than the count is rejected by the binding).
- `SetLights`: a light list shorter than the maximum light count is excluded by a precondition. The source throws from `Stack.get` part-way through the loop, and that partial update is not modelled. The overflow of `i*3` cannot occur for any realistic light count and is not modelled.
- `SetFogColor` and `UseProgram` with fog enabled require the fog colour array to exist. When fog is not compiled in, the source fails on the missing array.
- `SetCamera` requires fog to be compiled in when the camera has fog, for the same reason.
- The packed colour 0xFF0000FF is read the way `android.graphics.Color` reads it, in the ARGB layout: alpha FF, red 00, green 00, blue FF. That is opaque blue, and because of the integer division its ambient colour is (0, 0, 1, 1) (see `PackedColor.OpaqueBlueAmbient`).

## Findings

| source | as written | input that shows it | evidently intended | confidence | as-written member | corrected member |
|---|---|---|---|---|---|---|
| src/rajawali/materials/AAdvancedMaterial.java:123-125 | The colour loop writes green and then blue to slot 3i+1 and never writes slot 3i+2. | One pure green light (0, 1, 0) over a zeroed array packs as (0, 0, 0). | Slot 3i+2 receives blue, so each light's (r, g, b) sits at 3i..3i+2. | high (not executed) | LightPacking.AsWrittenMatchesIntendedIff | LightPacking.ColorSlotsAt |
| src/rajawali/materials/AAdvancedMaterial.java:142 | The `int` channels are divided by the `int` 255, so every channel below 255 becomes 0. | Opaque mid grey, ARGB (255, 128, 128, 128), gives the ambient colour (0, 0, 0, 1). | Float division, as `setFogColor` does, giving channel/255 in [0, 1]. | high (not executed) | PackedColor.AmbientAgreesIff | PackedColor.NormalizedAmbient |

The as-written behaviour is modelled as follows:

- the colour loop by `LightPacking.ColorWritesAsWritten`, with its layout
  `ColorSlotsAsWritten` (`ColorWritesAsWrittenLayout`, `ColorSlotsAsWrittenAt`);
- the ambient conversion by `PackedColor.AmbientFromPacked`.

`PureGreenIsLost` and `GreyAmbientIsBlack` give the concrete inputs. The class
uses the corrected definitions: `SetLights` fills the colour array with
`ColorSlots`, and `SetAmbientColorPacked` stores `NormalizedAmbient`.
