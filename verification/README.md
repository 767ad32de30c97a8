# Fast3D OpenGL shader generator and render-target bookkeeping

A Dafny model of the desktop-GLSL core of the Fast3D OpenGL backend. It covers:

- the colour-combiner vocabulary: the term selectors, the option bits and the decoded feature set;
- the combiner terms and formulas as GLSL expressions;
- the vertex stage text and the fragment stage text;
- the interleaved vertex layout: the attribute table, the float count and the attribute pointers;
- the program cache: lookup, info, creation and loading, unloading;
- the framebuffer table: the default entry, creation, and resizing with its attachment calls;
- depth readback at a set of pixels.

The module layout:

| module | what it holds |
|---|---|
| `Base` | fixed-width integers, `Option`, pairs, decimal rendering |
| `CC` | selectors, option masks, `CCFeatures` |
| `Terms` | term and formula rendering |
| `Layout` | the attribute table and float count |
| `Vertex`, `Fragment` | the two stages |
| `Cache` | the program pool, loading and unloading |
| `Framebuffers` | the framebuffer table and a model of the GL objects it touches |
| `PixelDepth` | the depth readback |

Shader text is modelled as a sequence of lines. A stage is the concatenation of those lines. Calls into OpenGL do not become side effects. Each one is one of these:

- a parameter: attribute and uniform location queries are a `Backend` of functions;
- a returned value: attribute pointers and uniform uploads are recorded as data;
- a step on a small GPU state: framebuffer attachments are `Call`s applied to a `Gpu`.

Three readings of `src/graphic/Fast3D/gfx_opengl.cpp` that the model follows:

- The `#edif` at line 579 is read as `#endif`. It is on the desktop path, right after `void main() {` (lines 577-578), and so it closes the `#ifdef __vita__` of line 575.
- The post effects run in the order fog, edge, noise, grayscale, threshold, invisible (lines 703-744).
- The random helper is declared in every desktop fragment stage, with or without noise (lines 539-543).

## Model

| member | source | states |
|---|---|---|
| `CC.EnumeratorValues` | libultraship/Lib/Fast3D/gfx_cc.h:18-33 | each selector's code is its position in the enumeration: zero is 0, the constant one is 12, the combined colour is 13; every selector is listed |
| `CC.CodeRoundTrip` | libultraship/Lib/Fast3D/gfx_cc.h:18-33 | decoding a selector's code gives the selector back |
| `CC.SelectorOf` | libultraship/Lib/Fast3D/gfx_cc.h:18-33 | a value names a selector exactly when it is below the number of selectors, and then it is that selector's code |
| `CC.OptionMasksAreDistinctBits` | libultraship/Lib/Fast3D/gfx_cc.h:35-39 | option k is bit k, and no two options share a bit |
| `CC.OptionsIndependent` | libultraship/Lib/Fast3D/gfx_cc.h:35-39 | setting one option makes it read as set and leaves every other option's reading unchanged |
| `CC.GridRoundTrip` | libultraship/Lib/Fast3D/gfx_cc.h:43 | the [cycle][channel][slot] selector grid and its 16-byte row-major layout convert into each other both ways |
| `Terms.ItemToStr` | src/graphic/Fast3D/gfx_opengl.cpp:166-252 | definition of `shader_item_to_str`'s desktop branches; characterised by `Terms.EmptyRendering`, `Terms.OnlyAlphaIsScalar`, `Terms.InputSwizzle`, `Terms.HintOnlyForAlphaTexels` and `Terms.TexelSwizzle` |
| `Terms.OnlyAlphaIsScalar` | src/graphic/Fast3D/gfx_opengl.cpp:223-251 | in the alpha channel every rendered term is a scalar (an `.a` swizzle, a float literal or the noise expression); it is empty exactly for unknown values and inputs 5 to 7 |
| `Terms.InputSwizzle` | src/graphic/Fast3D/gfx_opengl.cpp:181-188 | colour input k renders as `vInput<k>`; it takes the `.rgb` swizzle if and only if the context has no alpha and the inputs carry alpha |
| `Terms.HintOnlyForAlphaTexels` | src/graphic/Fast3D/gfx_opengl.cpp:201-208 | the single-element hint turns a texel-alpha colour term into a bare scalar; it changes nothing for any other term, nor anywhere in the alpha channel |
| `Terms.EmptyRendering` | src/graphic/Fast3D/gfx_opengl.cpp:166-252 | a term renders as empty text if and only if its value names no selector or it is input 5, 6 or 7 |
| `Terms.ShapeOf` | src/graphic/Fast3D/gfx_opengl.cpp:258-285 | the formula shape is single, multiply, mix or general, decided by the first flag that is set |
| `Terms.AppendFormula` | src/graphic/Fast3D/gfx_opengl.cpp:256-286 | definition of `append_formula`; characterised by `Terms.ShapeOf`, `Terms.FormulaReadsShapeSlots` and `Terms.HintOnFactorSlot` |
| `Terms.FormulaReadsShapeSlots` | src/graphic/Fast3D/gfx_opengl.cpp:256-286 | two selector grids that agree on the slots a shape reads, in the row its channel selects, give the same formula text |
| `Terms.HintOnFactorSlot` | src/graphic/Fast3D/gfx_opengl.cpp:260-263 | in a multiply only the factor slot gets the single-element hint: the same texel-alpha term widens to a vector on the left and stays scalar on the right |
| `Terms.TexelSwizzle` | src/graphic/Fast3D/gfx_opengl.cpp:189-246 | a texture or combined-colour term is `texVal0`, `texVal1` or `texel`. It takes `.a` in the alpha channel. It takes `.rgb` if and only if a three-component colour is wanted. The input width and the single-element hint do not change it |
| `Layout.AttribTable` | src/graphic/Fast3D/gfx_opengl.cpp:824-868 | definition of the attribute table the record is filled from; characterised by `Layout.TableRanks`, `Layout.TableNamesDistinct`, `Layout.AttribSizesSmall`, `Layout.CountFloats` and `Layout.AttribTableCapacity` |
| `Layout.InputAttribs` | src/graphic/Fast3D/gfx_opengl.cpp:862-867 | the input entries are inputs 1 to n in order, all of the same width |
| `Layout.CountFloats` | src/graphic/Fast3D/gfx_opengl.cpp:296-400 | the float count the generator accumulates while it writes declarations equals the sum of the attribute table's sizes |
| `Layout.CountInputFloats` | src/graphic/Fast3D/gfx_opengl.cpp:388-401 | the inputs add four floats each with alpha and three without |
| `Layout.AttribSizesSmall` | src/graphic/Fast3D/gfx_opengl.cpp:824-868 | every attribute-table entry has between 1 and 4 components |
| `Layout.FloatsBound` | src/graphic/Fast3D/gfx_opengl.cpp:296-400 | a vertex holds at most 20 floats plus 4 per input |
| `Layout.NameTextInjective` | src/graphic/Fast3D/gfx_opengl.cpp:827-865 | two attribute names the generator can produce have the same text only if they are the same name |
| `Layout.TableRanks` | src/graphic/Fast3D/gfx_opengl.cpp:824-868 | the table lists the position, each texture unit's coordinate and then its S and T clamps, fog, grayscale and the inputs by number, in strictly increasing order |
| `Layout.TableNamesDistinct` | src/graphic/Fast3D/gfx_opengl.cpp:824-868 | no two table entries have the same name text, so each location query by name answers for exactly one entry |
| `Layout.AttribTableCapacity` | src/graphic/Fast3D/gfx_opengl.cpp:62-63 | the table has at most 9 entries plus one per input, and this is reached; with at most 7 inputs it fits the 16-entry arrays, while with more the full feature set overflows them |
| `Vertex.VertexShader` | src/graphic/Fast3D/gfx_opengl.cpp:328-428 | definition of the desktop vertex stage text; characterised by `Vertex.VertexFrame`, `Vertex.VertexDeclsFollowTable`, `Vertex.TexDeclsFollowTable` and `Vertex.InputDeclsFollowTable` |
| `Vertex.VertexDeclsFollowTable` | src/graphic/Fast3D/gfx_opengl.cpp:328-428 | the vertex stage declares an attribute and its varying for each varying table entry, in table order; it copies one into the other for each entry; its first attribute is the position |
| `Vertex.InputDeclsFollowTable` | src/graphic/Fast3D/gfx_opengl.cpp:388-401 | the input declarations and copies are exactly those of the input entries of the table |
| `Vertex.TexDeclsFollowTable` | src/graphic/Fast3D/gfx_opengl.cpp:330-360 | a texture unit's declarations and copies are exactly those of its table entries: the coordinate, then the clamped axes |
| `Vertex.VertexFrame` | src/graphic/Fast3D/gfx_opengl.cpp:328-428 | the vertex stage opens with `#version 110`, opens `main` after the declarations, and ends by writing the position and closing `main` |
| `Fragment.FragmentShader` | src/graphic/Fast3D/gfx_opengl.cpp:465-747 | definition of the desktop fragment stage text; characterised by `Fragment.HeaderLayout`, `Fragment.DeclarationsLayout`, `Fragment.StagesAgree`, `Fragment.FetchReadsDeclaredClamps`, `Fragment.CombinerLayout` and `Fragment.PostEffectsOrdered` |
| `Fragment.StagesAgree` | src/graphic/Fast3D/gfx_opengl.cpp:465-510 | the fragment stage declares the same varyings, in the same order, as the vertex stage declares and fills |
| `Fragment.FragmentVaryingsFollowTable` | src/graphic/Fast3D/gfx_opengl.cpp:465-510 | the fragment varyings are one per varying table entry, in table order |
| `Fragment.FetchReadsDeclaredClamps` | src/graphic/Fast3D/gfx_opengl.cpp:587-625 | a used texture's fetch reads the clamp of an axis if and only if that axis's clamp is in the attribute table |
| `Fragment.CombinerLayout` | src/graphic/Fast3D/gfx_opengl.cpp:635-658 | the combiner section is cycle 0, the wrap of the accumulator, then cycle 1 when there are two cycles, then the final wrap and clamp; nothing else assigns a cycle |
| `Fragment.SplitExactly` | src/graphic/Fast3D/gfx_opengl.cpp:637 | a cycle builds colour and alpha separately if and only if the program has alpha and that cycle's two formulas differ |
| `Fragment.JointIgnoresAlphaChannel` | src/graphic/Fast3D/gfx_opengl.cpp:646-649 | a joint cycle depends only on the colour channel's selectors and flags |
| `Fragment.OneCycleIgnoresSecond` | src/graphic/Fast3D/gfx_opengl.cpp:635 | with one cycle, the combiner section does not depend on the second cycle's configuration |
| `Fragment.PostEffects` | src/graphic/Fast3D/gfx_opengl.cpp:703-745 | definition of the post effects the fragment stage emits; characterised by `Fragment.PostEffectsOrdered` and `Fragment.PostEffectsUnique` |
| `Fragment.PostEffectsOrdered` | src/graphic/Fast3D/gfx_opengl.cpp:703-744 | the post effects are in the fixed order fog, edge, noise, grayscale, threshold, invisible, output, with no repeats; an effect is present if and only if its features are on; the output write is always last |
| `Fragment.PostEffectsUnique` | src/graphic/Fast3D/gfx_opengl.cpp:703-744 | any strictly ordered list holding exactly the enabled effects is the emitted list |
| `Fragment.HeaderLayout` | src/graphic/Fast3D/gfx_opengl.cpp:465-634 | the fragment stage starts with its declarations, then the random helper; the part before the combiner ends with the accumulator declaration, four wide with alpha and three wide without |
| `Fragment.DeclarationsLayout` | src/graphic/Fast3D/gfx_opengl.cpp:465-537 | the declarations are `#version 130`, the varyings, one sampler per used unit, then the frame-count and noise-scale uniforms |
| `Cache.Lookup` | src/graphic/Fast3D/gfx_opengl.cpp:900-903 | a key finds a program exactly when it is cached, and then it finds the cached one |
| `Cache.GetInfo` | src/graphic/Fast3D/gfx_opengl.cpp:905-909 | the info is the stored input count and texture use; `Cache.InfoOfCreated` ties it to the features the program was built for |
| `Cache.InfoOfCreated` | src/graphic/Fast3D/gfx_opengl.cpp:871-873 | a record that reports a feature set (every record `Cache.BuildProgram` and `Cache.CreateAndLoad` build does) has as its info that set's input count, narrowed to a byte, and its texture use; below 256 inputs the count is reported unchanged |
| `Cache.CreateAndLoad` | src/graphic/Fast3D/gfx_opengl.cpp:288-898 | corrected (see ## Findings): builds the program record for the decoded features: its attribute table is the one the stages declare, and its float count is the vertex size; caches the record under its key and nowhere else; loads it with its own uniform locations |
| `Cache.CreateAndLoadAsWritten` | src/graphic/Fast3D/gfx_opengl.cpp:824-895 | creation as ordered in the source: the load uploads the uniforms through the locations staged in the pool entry before the fresh ones are stored |
| `Cache.CreationLoadUsesStaleLocations` | src/graphic/Fast3D/gfx_opengl.cpp:826-895 | for a new key whose driver puts both uniforms at location 5, that load writes to location 0 instead |
| `Cache.BuildProgram` | src/graphic/Fast3D/gfx_opengl.cpp:824-875 | the record holds each table entry's size and queried location in table order, the narrowed counts, and the two uniform locations |
| `Cache.TableRecordFits` | src/graphic/Fast3D/gfx_opengl.cpp:57-69 | a table of at most 16 entries and fewer than 256 floats is stored without loss, and its float count is the sum of the stored sizes |
| `Cache.SetAttribs` | src/graphic/Fast3D/gfx_opengl.cpp:116-126 | one pointer per attribute: its location and size, the whole vertex as stride, and the sum of the earlier sizes as offset |
| `Cache.OffsetsTile` | src/graphic/Fast3D/gfx_opengl.cpp:118-125 | the offsets start at 0; each attribute starts where the previous one ends; all lie within the stride |
| `Cache.FrameCountUniform` | src/graphic/Fast3D/gfx_opengl.cpp:128-131 | the unsigned frame counter reaches the signed uniform unchanged below 2^31 and wrapped to a negative value from there |
| `Cache.LoadShader` | src/graphic/Fast3D/gfx_opengl.cpp:141-149 | loading selects the program, points every attribute into the interleaved vertex, and uploads the frame count and noise scale through the program's locations; the locations it enables are exactly those `UnloadShader` later disables |
| `Cache.UnloadShader` | src/graphic/Fast3D/gfx_opengl.cpp:133-139 | unloading disables exactly the previous program's attribute locations, and nothing when there was none |
| `Framebuffers.InitTable` | src/graphic/Fast3D/gfx_opengl.cpp:1071 | the table starts with the window's framebuffer only: handle 0, size 0x0, no depth buffer, no multisampling, no row flip, and no colour, multisample or depth objects |
| `Framebuffers.CreateFramebuffer` | src/graphic/Fast3D/gfx_opengl.cpp:1100-1130 | a new zeroed entry with the fresh handles is appended and its index returned; the colour texture and depth buffer start at 1x1 |
| `Framebuffers.CreateIsBlank` | src/graphic/Fast3D/gfx_opengl.cpp:1100-1130 | a newly created framebuffer has no depth attachment |
| `Framebuffers.Update` | src/graphic/Fast3D/gfx_opengl.cpp:1132-1185 | the entry takes the new size, with a zero width or height raised to 1, and the new flags, keeping its handles; other entries are untouched; the framebuffer is bound first, and only that for the default one |
| `Framebuffers.AttachmentCalls` | src/graphic/Fast3D/gfx_opengl.cpp:1142-1177 | definition of the storage and attachment calls of an offscreen update; characterised by `Framebuffers.ColorReallocIff`, `Framebuffers.DepthReallocIff` and `Framebuffers.UpdateSyncs` |
| `Framebuffers.ColorReallocIff` | src/graphic/Fast3D/gfx_opengl.cpp:1142-1157 | colour storage is reallocated if and only if the framebuffer is not the default and its size or sample count changes |
| `Framebuffers.DepthReallocIff` | src/graphic/Fast3D/gfx_opengl.cpp:1159-1171 | depth storage is reallocated if and only if a depth buffer is wanted on a non-default framebuffer that is resized or had none |
| `Framebuffers.UpdateIdempotent` | src/graphic/Fast3D/gfx_opengl.cpp:1132-1185 | repeating an update changes nothing and only binds |
| `Framebuffers.UpdateSyncs` | src/graphic/Fast3D/gfx_opengl.cpp:1142-1184 | after an update the GPU objects agree with the entry: the colour target and depth buffer have the entry's size and samples, and the depth buffer is attached exactly when the entry has one |
| `PixelDepth.EncodeDepth` | src/graphic/Fast3D/gfx_opengl.cpp:1243 | the reported depth is a multiple of 4 whose quarter is the depth word's top 14 bits |
| `PixelDepth.EncodeDepthMonotone` | src/graphic/Fast3D/gfx_opengl.cpp:1243 | words agreeing in the top 14 bits report the same depth, and the report never decreases with the word |
| `PixelDepth.ReadRow` | src/graphic/Fast3D/gfx_opengl.cpp:1240-1270 | the row read at lines 1240 and 1270: the coordinate itself without the flip; with it, the height minus the coordinate when the coordinate lies between 0 and the height and the height is below 2^31; `PixelDepth.ReadRowInvolution` covers every row, wrap-around included |
| `PixelDepth.ReadRowInvolution` | src/graphic/Fast3D/gfx_opengl.cpp:1240 | flipping a row against the height twice gives it back, wrap-around included |
| `PixelDepth.GetPixelDepth` | src/graphic/Fast3D/gfx_opengl.cpp:1228-1295 | one depth per requested coordinate, read at the pixel its truncation names, on the flipped row; distinct coordinates may share a pixel and then report the same depth; the scratch row grows to the batch size and never shrinks; each coordinate of a batch is copied into its own slot in order; a single coordinate is read directly |

## Left out

- OpenGL itself, except where one of the three forms above models a call. Program compilation, linking and the abort on a compile error (lines 769-801) are out, because they run the driver's compiler. The program id is an input.
- The shader-binary cache and the Vita, Apple and HLSL-style dialects (lines 299-318, 808-821 and the `__vita__`/`__APPLE__` branches). Only the desktop `#version 110`/`#version 130` path is modelled.
- The body of `gfx_cc_get_features`. It is not part of this model, so the decoder is a function parameter.
- Floating point: the noise-scale value and polygon offset (lines 989-1021). In the depth readback the requested coordinates are an opaque key type, and their truncation to ints (lines 1237-1238 and 1267-1268) is the `pixel` parameter. The coordinate set is a sequence in the set's iteration order.
- Texture upload, samplers, depth test, viewport, scissor, drawing and clearing (lines 911-1051 and 1197-1204), and the texture-id getter and selector of a framebuffer (lines 1218-1226). They neither read nor change the framebuffer table or the program pool.
- Starting to draw to a framebuffer and resolving a multisampled one (lines 1187-1195 and 1206-1216). They change three things that no contract here depends on:
  - the framebuffer binding. `Framebuffers.Update` binds its framebuffer itself before any other call, so it never relies on the binding it finds;
  - `current_framebuffer`, which is not modelled;
  - `current_noise_scale`, set to the reciprocal of a nonzero argument. It is floating point, and `Cache.LoadShader` uploads only its location, not its value.
- In the depth readback, `GetPixelDepth` records only the reads and blits. Its other GL effects are left out:
  - the framebuffer and renderbuffer binds (lines 1236, 1247, 1258, 1260 and 1278);
  - the deletion and recreation of the scratch depth renderbuffer when the batch outgrows it (lines 1248-1253), kept only as the new width;
  - `glDisable(GL_SCISSOR_TEST)` (line 1262), which the function never re-enables;
  - the closing bind of `current_framebuffer` (line 1292), which passes a table index where GL expects a framebuffer name.
- The sampler-unit uniforms set after loading (lines 879-891). They do not feed anything else the model states.
- The compiled stage texts are `Vertex.VertexShader` and `Fragment.FragmentShader` of the decoded features. `Cache.CreateAndLoad` does not return them, because compiling them is left out.
- The fixed text buffers `vs_buf`/`fs_buf` and their lengths. The model builds unbounded strings.
- The frame counter increment in `start_frame`. The load takes the current counter as an input, and `FrameCountUniform` models how it reaches the signed uniform.
- The filter-mode setter and getter (lines 1297-1309). The current mode is the `threePoint` input to the fragment stage. The desktop default is three-point (line 96).
- The `render_target` and `can_extract_depth` arguments of the framebuffer update. The source does not read them.
- The pixel-depth scratch buffer is only its width. Initialisation sets it to 1 (line 1083), and `GetPixelDepth` takes the current width as an input.
- `Cache.CreateAndLoad`: requires at most 7 inputs. More than 7 can overflow the 16-entry attribute arrays of the record (see `Layout.AttribTableCapacity`). The source writes past them, which has no defined meaning to model.
- `Cache.UnloadShader`: requires the previous record to be well formed, meaning its arrays hold `numAttribs` entries. Every record the model builds is.
- The noise selector. The enumeration in `gfx_cc.h` does not list `SHADER_NOISE`, yet the renderer has a case for it. It is modelled as the next value, 14.

## Findings

| source | as written | input that shows it | evidently intended | confidence | as-written member | corrected member |
|---|---|---|---|---|---|---|
| src/graphic/Fast3D/gfx_opengl.cpp:826-895 | a new pool entry is value-initialised, loaded at line 877 (uploading the frame count and noise scale through its uniform locations), and only at lines 894-895 given its real locations | a new key with a driver that places `frame_count` and `noise_scale` at location 5: the load writes both values to location 0 | query the uniform locations before the first load | not executed; medium | `Cache.CreateAndLoadAsWritten`, `Cache.CreationLoadUsesStaleLocations` | `Cache.CreateAndLoad` |
