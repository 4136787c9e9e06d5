# Render-state cache of SFML's RenderTarget

This project models the render-state cache of `sf::RenderTarget` in SFML's
graphics module (`src/SFML/Graphics/RenderTarget.cpp`). When a draw
submission comes in, the target compares what the submission needs with a
small cache of what the device already holds. From that comparison it decides
which *appliers* to run:

- view;
- blend mode;
- transform;
- texture;
- shader;
- vertex buffer;
- vertex pointers;
- the pre-transform vertex cache.

It then updates the cache. The cache consists of:

- `glStatesSet`, `lastBlendMode`, `lastTextureId`, `lastVertexBufferId`, `viewChanged` and `useVertexCache`;
- the four-entry `vertexCache` array;
- the shader-pipeline pointers `m_currentNonLegacyShader` and `m_lastNonLegacyShader`;
- the choice between the legacy fixed-function pipeline (no default shader) and the shader pipeline.

The project has these modules:

- `Geometry` (`geometry.dfy`) holds the value types: vertices, colors, transforms, rectangles, blend modes and primitive types.
- `Resources` (`resources.dfy`) holds the target's collaborators:
  - textures and vertex buffers, identified by their cache ids;
  - shaders, as objects with the mutable `warnMissing` setting and their attribute locations;
  - views, reduced to their pixel viewport;
  - the per-draw `RenderStates`.
- `Device` (`device.dfy`) stands for the graphics API. Each applier issues one `Event`. The ghost `Log` records:
  - how many events of each kind were issued;
  - the viewport, blend mode, transform (with its normal-matrix flag), shader and vertex buffer last set;
  - the texture each sink was last given: fixed-function texturing holds one, and every shader program holds its own in its uniforms;
  - every sink (fixed-function state or a shader's uniforms) that a view, transform, texture or lighting upload went to;
  - the light count last uploaded and every light uploaded, in order;
  - the fixed-function vertex pointers last set and every memory a shader attribute was ever pointed at;
  - the last draw call's primitive type and vertex count.
- `Protocol` (`protocol.dfy`) is the draw protocol as a pure state machine. A `Machine` is everything the target tracks plus the log. Every applier and every public operation is a function from the machine before to the machine after. Facts from outside the file are parameters in `Env`:
  - whether activation succeeds;
  - `Shader::isAvailable` and `VertexBuffer::isAvailable`;
  - the lighting registry;
  - what `setView` leaves in `viewChanged`.
- `Rendering` (`rendering.dfy`) is the target as a class:
  - the cache fields, the shader pointers and the views are fields;
  - the vertex cache is an `array<Vertex>`;
  - each method (applier, reset, the two draws and their stages) is proved to take `Model()` to the corresponding `Protocol` function's result;
  - the pre-transform loop and the light-upload loop are `for` loops with invariants.
- `Draws` (`draws.dfy`) states, for each kind of draw:
  - exactly which appliers run;
  - what the cache, the shader pointers and the device hold afterwards;
  - two invariants every draw keeps: the cache agrees with what the device last received (for the texture: with what the sink of the last draw holds), and every upload goes to the pipeline's own side (fixed-function state or shader uniforms).
- `Runs` (`runs.dfy`) relates several draws: a repeated submission, the texture identity rule, and the blend applier over a whole run.
- `Findings` (`findings.dfy`) holds the three defects listed below, each shown as written and proved fixed in the corrected definition that the rest of the model uses.

## Model

| member | source | states |
|---|---|---|
| `Protocol.Initialize` | src/SFML/Graphics/RenderTarget.cpp:610-623 | initialize sets the default and current view to the whole target and marks the persistent states unset, so the next draw resets. Every other cache field, the current and last shader pointers, the log and the size are kept. It installs the chosen default shader, and the pipeline is legacy exactly when that shader is null. |
| `Protocol.ShaderPipelineSelected` | src/SFML/Graphics/RenderTarget.cpp:802-961 | the shader pipeline is selected only with shader lighting support, outside a legacy build, with a supported version above 1.29 and a default program that compiles; each missing condition alone leaves the legacy pipeline (802-803, 810-811, 815, 957-961), and together they select it. |
| `Protocol.SinkOf` | src/SFML/Graphics/RenderTarget.cpp:634-641 | view, transform and texture go to fixed-function state exactly in the legacy pipeline. Otherwise they go to the uniforms of the current shader, or of the default shader when there is none. |
| `Protocol.FlipViewport` | src/SFML/Graphics/RenderTarget.cpp:631 | the device viewport keeps the left edge, width and height, and its distance from the bottom of the target is the view's distance from the top. |
| `Protocol.EffectiveShader` | src/SFML/Graphics/RenderTarget.cpp:340-344 | a shader-pipeline draw uses the submission's shader when it has one, and the default shader otherwise. |
| `Protocol.UseVertexCache` | src/SFML/Graphics/RenderTarget.cpp:350 | vertices are pre-transformed only in the legacy pipeline, only when allowed, and only when they fit in the vertex cache; when all three hold they are. |
| `Protocol.Submits` | src/SFML/Graphics/RenderTarget.cpp:321-324 | a draw with no vertices, with a zero count or whose activation fails never reaches the device; any other draw does. |
| `Protocol.ApplyCurrentView` | src/SFML/Graphics/RenderTarget.cpp:627-656 | the device viewport becomes the view's viewport with its top edge moved to `height - (top + height)`, and the upload goes to the current sink. It leaves `viewChanged` false and nothing else of the cache changed. |
| `Protocol.ApplyBlendMode` | src/SFML/Graphics/RenderTarget.cpp:660-696 | issues the blend function for the mode: the device's blend mode becomes that mode and is recorded as `lastBlendMode`. |
| `Protocol.ApplyTransform` | src/SFML/Graphics/RenderTarget.cpp:700-727 | the device transform becomes the given one, uploaded to the current sink. The normal matrix goes along exactly in the shader pipeline with lighting on. The cache is untouched. |
| `Protocol.ApplyTexture` | src/SFML/Graphics/RenderTarget.cpp:731-775 | the current sink now holds the texture (or none), every other sink keeps its texture, and the texture's cache id (0 for none) is recorded as `lastTextureId`. |
| `Protocol.ApplyShader` | src/SFML/Graphics/RenderTarget.cpp:779-782 | the given shader becomes the bound one; null unbinds. No sink is touched and nothing is cached. |
| `Protocol.ApplyVertexBuffer` | src/SFML/Graphics/RenderTarget.cpp:786-791 | the buffer (or none) becomes the bound buffer, and its cache id (0 for none) is recorded as `lastVertexBufferId`. |
| `Protocol.ResetDefaultStates` | src/SFML/Graphics/RenderTarget.cpp:563-589 | issues the device defaults, sets `glStatesSet`, applies blend mode Alpha, the identity transform and no texture, one event each. Afterwards the device holds blend mode Alpha and the identity, and the current sink holds no texture; the other sinks keep theirs. |
| `Protocol.ResetBindings` | src/SFML/Graphics/RenderTarget.cpp:591-600 | where shaders are available, the pipeline's shader is bound (none in the legacy pipeline). Where vertex buffers are available, no buffer is bound and `lastVertexBufferId` is 0. One event each, nothing else changed. |
| `Protocol.ResetView` | src/SFML/Graphics/RenderTarget.cpp:601-604 | clears `useVertexCache`, hands the default view to `setView`, makes it the current view and takes `viewChanged` from what `setView` leaves. |
| `Protocol.ResetGLStatesAsWritten` | src/SFML/Graphics/RenderTarget.cpp:556-606 | resetGLStates as written. Without activation nothing changes. Otherwise it sets `glStatesSet`, `lastBlendMode = Alpha`, `lastTextureId = 0` and `useVertexCache = false`. `lastVertexBufferId` becomes 0 exactly when buffers are available, and the view becomes the default view. The current sink then holds no texture and the device holds blend mode Alpha, the identity, plus the pipeline's shader when shaders are available and no buffer when buffers are available. It keeps both shader pointers, so the last shader stays recorded. The counts are exact: one shader bind iff shaders are available, one buffer unbind iff buffers are available. |
| `Protocol.ResetGLStates` | src/SFML/Graphics/RenderTarget.cpp:556-606 | resetGLStates, corrected to forget the last shader: the same as written, and in addition the last shader pointer is null afterwards, so the next shader-pipeline draw counts as a shader change and re-uploads its uniforms. Without activation nothing changes. |
| `Protocol.Prepare` | src/SFML/Graphics/RenderTarget.cpp:326-328 | a draw resets only when `glStatesSet` is false; with the states set it is the identity. After activation the states are set. The default and current shader, the default view and the size are kept; the last shader is forgotten exactly when a reset ran, because the reset used is the corrected `Protocol.ResetGLStates` of the third finding, not the one as written. Uploads go only to the current sink. |
| `Protocol.ResolveShader` | src/SFML/Graphics/RenderTarget.cpp:330-347 | in the shader pipeline the current shader becomes the override, else the default one. The legacy pipeline changes nothing. Cache and log are untouched. |
| `Protocol.DrawStates` | src/SFML/Graphics/RenderTarget.cpp:330-389 | the appliers common to both draws, after the shader is resolved: exactly the view, blend, texture and shader events their triggers call for and the transform event the caller asks for, the cache holding the mode and texture id with no pending view change, and the texture held by the draw's sink as in `ApplyRenderStates`. No buffer changes. |
| `Protocol.DrawSink` | src/SFML/Graphics/RenderTarget.cpp:330-347 | a draw's uploads go to fixed-function state exactly in the legacy pipeline, and otherwise to the uniforms of the shader the draw uses. |
| `Protocol.ArrayPointerSource` | src/SFML/Graphics/RenderTarget.cpp:395-403 | vertices that are not pre-transformed are pointed at the caller's array. Pre-transformed vertices are pointed at the vertex cache exactly when the previous draw did not use it. Otherwise the pointers are skipped. |
| `Protocol.ApplyViewAndBlend` | src/SFML/Graphics/RenderTarget.cpp:372-378 | the view applier runs iff the shader or the view changed, and the device viewport is then the flipped viewport. The blend applier runs iff the mode differs from `lastBlendMode`, and the device's blend mode is then the submission's. Afterwards `viewChanged` is false and `lastBlendMode` is the submission's mode. |
| `Protocol.ApplyRenderStates` | src/SFML/Graphics/RenderTarget.cpp:372-389 | view and blend as above. The texture applier runs iff the shader changed or the submission's texture id differs from `lastTextureId`, and the draw's sink then holds the submission's texture; otherwise no sink's texture changes. One shader bind happens iff there is an override or a default shader. The bound shader is then the override, else the default shader. The cache then holds the mode and the texture id. |
| `Protocol.ApplyDrawTransform` | src/SFML/Graphics/RenderTarget.cpp:363-370 | without cached vertices the submission's transform is issued. With them the identity is issued, and only if the previous draw did not use the cache. The device transform follows, and no binding changes. |
| `Protocol.ReleaseVertexBuffer` | src/SFML/Graphics/RenderTarget.cpp:391-393 | an unbind is issued iff a buffer was bound; the device then has no buffer bound. `lastVertexBufferId` is 0 afterwards. |
| `Protocol.LegacySubmit` | src/SFML/Graphics/RenderTarget.cpp:410-424 | sets the fixed-function pointers iff a source is given, then issues one draw call with the given primitive type and vertex count. The device pointers follow. |
| `Protocol.UploadLights` | src/SFML/Graphics/RenderTarget.cpp:429-432 | the log gains exactly one light upload per enabled light, in the registry's order, on the target shader's uniforms. Nothing else changes. |
| `Protocol.LightingUniforms` | src/SFML/Graphics/RenderTarget.cpp:427-437 | with lighting on, the light count uploaded is the number of enabled lights, followed by each light and the viewer position. With lighting off, the light count uploaded is 0. Every upload goes to the target shader's uniforms. |
| `Protocol.Declared` | src/SFML/Graphics/RenderTarget.cpp:439-442 | a shader declares at most four attributes, and none exactly when every location is negative. |
| `Protocol.EnableAttributes` | src/SFML/Graphics/RenderTarget.cpp:444-468 | one enable per declared attribute. The position is pointed at its source and the others at the vertex data. |
| `Protocol.DisableAttributes` | src/SFML/Graphics/RenderTarget.cpp:473-483 | one disable per declared attribute. |
| `Protocol.ShaderSubmit` | src/SFML/Graphics/RenderTarget.cpp:425-484 | the lighting uniforms, twice as many attribute events as declared attributes, one draw call with the given primitive type and vertex count, and the attribute memory recorded. Every upload goes to the shader's uniforms. No binding changes. |
| `Protocol.FinishDraw` | src/SFML/Graphics/RenderTarget.cpp:486-500 | the legacy pipeline unbinds an override shader, so no shader is bound afterwards; that is one event iff there is an override. The shader pipeline sets last := current and current := null. |
| `Protocol.ArraySetup` | src/SFML/Graphics/RenderTarget.cpp:330-393 | the full set of appliers an array draw runs before submitting, each with its trigger. The cache then holds the mode, the texture id, no bound buffer and no pending view change. The device then holds the submission's blend mode, no buffer when one was bound, and the override shader, else the default one; the draw's sink holds the submission's texture when the texture applier runs. Uploads go only to the draw's sink. |
| `Protocol.AcquireVertexBuffer` | src/SFML/Graphics/RenderTarget.cpp:220-223 | the buffer is bound iff its id differs from `lastVertexBufferId`, which then holds that id. Either way the device's bound buffer then has that id. |
| `Protocol.BufferSetup` | src/SFML/Graphics/RenderTarget.cpp:180-223 | the same for a buffer draw, except that the transform is always issued and the buffer is bound iff its id differs from `lastVertexBufferId`. The cache then records that id. |
| `Protocol.DrawSubmit` | src/SFML/Graphics/RenderTarget.cpp:405-500 | pointers, or uniforms and attributes, then one draw call with the given primitive type and vertex count, then the shader bookkeeping. The legacy pipeline unbinds an override shader. The shader pipeline uploads the light count of the lighting registry to the draw's sink. The cache, the blend mode, the texture and the buffer are untouched. |
| `Protocol.ArrayDrawUsing` | src/SFML/Graphics/RenderTarget.cpp:317-325 | a null vertex pointer, a zero count or failed activation leaves the whole machine unchanged. |
| `Protocol.BufferDrawAsWritten` | src/SFML/Graphics/RenderTarget.cpp:168-175 | a buffer with no vertices, or failed activation, leaves the whole machine unchanged. |
| `Protocol.BufferDraw` | src/SFML/Graphics/RenderTarget.cpp:168-313 | the corrected buffer draw is a no-op in the same cases. |
| `Draws.ArrayDrawState` | src/SFML/Graphics/RenderTarget.cpp:317-502 | after an array draw the cache is exactly: states set, the submission's blend mode and texture id, no buffer, no pending view change, and `useVertexCache` iff legacy ∧ count ≤ 4 ∧ `states.useVertexCache`. In the shader pipeline last := the shader used and current := null; the legacy pipeline keeps the current shader and the last one it started from. |
| `Draws.ArrayDrawAppliers` | src/SFML/Graphics/RenderTarget.cpp:330-484 | the exact number of each kind of device event an array draw issues after its reset, each in terms of its trigger. This covers view, blend, texture, shader (including the legacy unbind), buffer unbind, transform, pointers, uniforms, lights, attributes and one draw call. |
| `Draws.ArrayDrawDevice` | src/SFML/Graphics/RenderTarget.cpp:349-468 | where an array draw leaves the device transform, the fixed-function pointers (caller's vertices or the vertex cache, or kept when the cache is reused) and the attribute memory. |
| `Draws.BufferDrawState` | src/SFML/Graphics/RenderTarget.cpp:168-313 | after a buffer draw the cache holds the mode, the texture id and the buffer's id, with no pending view change. The shader pointers move as in an array draw, and the legacy pipeline keeps the last shader it started from. The corrected draw differs only by clearing `useVertexCache`. |
| `Draws.BufferDrawAppliers` | src/SFML/Graphics/RenderTarget.cpp:180-298 | the exact count of each kind of device event a buffer draw issues. The transform is always issued, the bind happens iff the id differs, and there are pointers (legacy) or uniforms and attributes. |
| `Draws.PreparedBufferDrawAppliers` | src/SFML/Graphics/RenderTarget.cpp:180-298 | the applier counts of `Draws.BufferDrawAppliers`, stated from the machine the opening reset leaves. |
| `Draws.BufferDrawDevice` | src/SFML/Graphics/RenderTarget.cpp:199-298 | a buffer draw leaves the submission's transform, and pointers or attributes into the bound buffer. |
| `Draws.ArrayDrawBindings` | src/SFML/Graphics/RenderTarget.cpp:349-500 | an array draw ends with one draw call of the submission's primitive type and vertex count. In the legacy pipeline an override leaves no shader bound. In the shader pipeline the shader used stays bound and the light count uploaded is the registry's (0 with lighting off). |
| `Draws.BufferDrawBindings` | src/SFML/Graphics/RenderTarget.cpp:180-313 | a buffer draw ends with one draw call of the buffer's primitive type and vertex count, the buffer bound when it was not already, and shaders and light count as in an array draw. |
| `Draws.PreparedBufferDrawBindings` | src/SFML/Graphics/RenderTarget.cpp:180-313 | the same, stated from the machine the opening reset leaves. |
| `Draws.PreparedArrayDrawAppliers` | src/SFML/Graphics/RenderTarget.cpp:330-484 | the applier counts of `Draws.ArrayDrawAppliers`, stated from the machine the opening reset leaves. |
| `Draws.ArraySubmitTally` | src/SFML/Graphics/RenderTarget.cpp:405-500 | the submission of an array draw adds, from the machine its states leave: one pointer setup iff legacy and the previous draw did not use the cached vertices, one shader unbind iff legacy with an override, the uniform and light uploads and the attribute enables and disables of the shader pipeline, and one draw call. |
| `Draws.PrepareKeepsPipeline` | src/SFML/Graphics/RenderTarget.cpp:556-606 | if every upload so far went to the pipeline's own side, the reset keeps it so. |
| `Draws.PreparedArrayDrawKeepsPipeline` | src/SFML/Graphics/RenderTarget.cpp:330-500 | the same for an array draw after its reset. |
| `Draws.ArraySetupKeepsPipeline` | src/SFML/Graphics/RenderTarget.cpp:330-393 | the appliers of an array draw send every upload to the pipeline's own side. |
| `Draws.ArraySubmitKeepsPipeline` | src/SFML/Graphics/RenderTarget.cpp:395-500 | so does the submission of an array draw. |
| `Draws.DrawSubmitKeepsPipeline` | src/SFML/Graphics/RenderTarget.cpp:225-311 | the submission of a draw keeps pipeline exclusivity: the legacy pipeline uploads nothing, and the shader pipeline uploads to the uniforms of the shader the draw uses. |
| `Draws.ArrayDrawKeepsPipeline` | src/SFML/Graphics/RenderTarget.cpp:317-502 | pipeline exclusivity: if every upload so far went to fixed-function state in the legacy pipeline and to shader uniforms in the shader pipeline, this still holds after an array draw, corrected or as written. |
| `Draws.BufferDrawKeepsPipeline` | src/SFML/Graphics/RenderTarget.cpp:168-313 | pipeline exclusivity is kept by a buffer draw, corrected or as written. |
| `Draws.PrepareMatchesDevice` | src/SFML/Graphics/RenderTarget.cpp:326-328 | the reset a draw may open with keeps the cache in agreement with the device. |
| `Draws.InitializeMatchesDevice` | src/SFML/Graphics/RenderTarget.cpp:610-623 | initialize keeps the cache in agreement with the device. |
| `Draws.ResetGLStatesMatchesDevice` | src/SFML/Graphics/RenderTarget.cpp:556-606 | the corrected reset keeps the cache in agreement with the device. It leaves no last shader, and in the legacy pipeline the fixed-function texture it cleared is the one `lastTextureId` = 0 describes. |
| `Draws.ArrayDrawMatchesDevice` | src/SFML/Graphics/RenderTarget.cpp:317-502 | if the cache agrees with the device, it still does after an array draw. Agreement means: once the states are set, `lastBlendMode` is the blend mode last issued; `lastTextureId` is the id of the texture held by the sink of the last draw (fixed-function state in the legacy pipeline, the last shader's uniforms in the shader pipeline; 0 for none); and `lastVertexBufferId` is the id of the buffer last bound. So every applier a draw skips would have re-issued what the device already holds for the sink that draw uses. |
| `Draws.BufferDrawMatchesDevice` | src/SFML/Graphics/RenderTarget.cpp:168-313 | a buffer draw keeps the cache in agreement with the device, both the corrected one and `BufferDrawAsWritten`. Both open with the corrected reset of `Protocol.Prepare`; with the reset as written the first draw after `initialize()` can break agreement (see the third finding). |
| `Draws.ArrayDrawTexture` | src/SFML/Graphics/RenderTarget.cpp:317-502 | with the cache in agreement, after any array draw that reaches the device the sink the draw used holds the submission's texture, whether the texture applier ran or was skipped. |
| `Draws.PreparedArrayDrawTexture` | src/SFML/Graphics/RenderTarget.cpp:349-502 | the same from the machine the opening reset leaves. |
| `Draws.SkippedTextureHeld` | src/SFML/Graphics/RenderTarget.cpp:381-383 | when the texture applier is skipped (no shader change and the same texture id), the draw's sink already holds a texture with the submission's id. |
| `Draws.BufferDrawTexture` | src/SFML/Graphics/RenderTarget.cpp:168-313 | the same for a buffer draw, both the corrected one and `BufferDrawAsWritten`, each opening with the corrected reset of `Protocol.Prepare`. |
| `Draws.PreparedBufferDrawTexture` | src/SFML/Graphics/RenderTarget.cpp:180-313 | the same from the machine the opening reset leaves. |
| `Draws.FirstDrawResets` | src/SFML/Graphics/RenderTarget.cpp:326-328 | the first draw after initialize runs the reset exactly once: blend mode Alpha is in the cache before the draw's own appliers, and `glStatesSet` holds afterwards. |
| `Runs.RepeatedArrayDraw` | src/SFML/Graphics/RenderTarget.cpp:349-403 | the same submission drawn twice leaves the cache as the first draw did, and the second draw runs no view, blend, texture or buffer applier. It reloads transform and pointers only for vertices that are not pre-transformed. |
| `Runs.TextureIdentity` | src/SFML/Graphics/RenderTarget.cpp:989-994 | between two draws that differ only in their texture, the texture applier runs iff the cache ids differ. The view, blend and buffer appliers do not run; the transform is reloaded only for vertices that are not pre-transformed. Textures are told apart by cache id alone; the device handle, which a new texture may reuse, is never consulted. |
| `Runs.RunBlendApplications` | src/SFML/Graphics/RenderTarget.cpp:376-378 | over any run of array draws, the blend applier runs exactly once per change of blend mode, and the cache ends with the last mode. |
| `Findings.ResetCoherent` | src/SFML/Graphics/RenderTarget.cpp:599-601 | the reset clears the pre-transform flag and so keeps the cache coherent. |
| `Findings.ArrayDrawCoherent` | src/SFML/Graphics/RenderTarget.cpp:349-403 | from a coherent cache an array draw keeps it coherent. A legacy array draw then draws pre-transformed vertices from the vertex cache with the identity, and other vertices from the caller's memory with their transform. |
| `Findings.BufferDrawCoherent` | src/SFML/Graphics/RenderTarget.cpp:168-313 | the corrected buffer draw keeps the cache coherent. |
| `Findings.BufferDrawAsWrittenIncoherent` | src/SFML/Graphics/RenderTarget.cpp:168-313 | as written, a legacy buffer draw after a cached array draw leaves the cache incoherent. |
| `Findings.StaleVertexCacheAfterBufferDraw` | src/SFML/Graphics/RenderTarget.cpp:396-403 | as written, the sequence cached draw, then buffer draw, then cached draw ends with no buffer bound, the pointers still into the buffer and the buffer's transform in place. |
| `Findings.VertexCacheAfterBufferDraw` | src/SFML/Graphics/RenderTarget.cpp:363-403 | with the corrected buffer draw, the same sequence draws the vertex cache with the identity. |
| `Findings.ArrayDrawAsWrittenNullPosition` | src/SFML/Graphics/RenderTarget.cpp:444-450 | as written, a shader-pipeline array draw with a declared position points that attribute at address 0. |
| `Findings.ArrayDrawAvoidsNull` | src/SFML/Graphics/RenderTarget.cpp:444-468 | the corrected array draw points attributes only at the caller's vertices. |
| `Findings.BufferDrawAvoidsNull` | src/SFML/Graphics/RenderTarget.cpp:255-282 | the buffer draw points attributes only into the bound buffer. |
| `Findings.StaleShaderTextureAfterReset` | src/SFML/Graphics/RenderTarget.cpp:586-606 | as written, the reset breaks the agreement: in the shader pipeline between draws, with a last shader A other than the default one that holds a texture, it clears the default shader's texture and sets `lastTextureId` to 0 but keeps A as the last shader. A following draw with A and no texture issues no texture event, and A still samples its old texture. |
| `Findings.UnchangedTextures` | src/SFML/Graphics/RenderTarget.cpp:381-383 | an array draw whose texture applier is skipped leaves every sink's texture as it was. |
| `Findings.ShaderTextureAfterReset` | src/SFML/Graphics/RenderTarget.cpp:586-606 | with the corrected reset the cache agrees with the device afterwards, and any following array draw leaves the submission's texture in the sink it uses. |
| `Rendering.RenderTarget.constructor` | src/SFML/Graphics/RenderTarget.cpp:42-53 | a new target has its states unset, the legacy pipeline, no shader pointers and an empty log. |
| `Rendering.RenderTarget.SetupNonLegacyPipeline` | src/SFML/Graphics/RenderTarget.cpp:795-815 | a fresh default shader is kept exactly when shader lighting is supported, the version read (0 on a legacy build) exceeds 1.29 and the program compiles. |
| `Rendering.RenderTarget.Initialize` | src/SFML/Graphics/RenderTarget.cpp:610-623 | follows `Protocol.Initialize` with the pipeline decision above. |
| `Rendering.RenderTarget.Sink` | src/SFML/Graphics/RenderTarget.cpp:634-641 | picks the current shader, else the default one, as `Protocol.SinkOf`. |
| `Rendering.RenderTarget.ApplyCurrentView` | src/SFML/Graphics/RenderTarget.cpp:627-656 | follows `Protocol.ApplyCurrentView`. |
| `Rendering.RenderTarget.ApplyBlendMode` | src/SFML/Graphics/RenderTarget.cpp:660-696 | follows `Protocol.ApplyBlendMode`. |
| `Rendering.RenderTarget.ApplyTransform` | src/SFML/Graphics/RenderTarget.cpp:700-727 | follows `Protocol.ApplyTransform`. |
| `Rendering.RenderTarget.ApplyTexture` | src/SFML/Graphics/RenderTarget.cpp:731-775 | follows `Protocol.ApplyTexture`. |
| `Rendering.RenderTarget.ApplyShader` | src/SFML/Graphics/RenderTarget.cpp:779-782 | follows `Protocol.ApplyShader`. |
| `Rendering.RenderTarget.ApplyVertexBuffer` | src/SFML/Graphics/RenderTarget.cpp:786-791 | follows `Protocol.ApplyVertexBuffer`. |
| `Rendering.RenderTarget.ResetDefaultStates` | src/SFML/Graphics/RenderTarget.cpp:563-589 | follows `Protocol.ResetDefaultStates`. |
| `Rendering.RenderTarget.ResetBindings` | src/SFML/Graphics/RenderTarget.cpp:591-600 | follows `Protocol.ResetBindings`. |
| `Rendering.RenderTarget.ResetView` | src/SFML/Graphics/RenderTarget.cpp:601-604 | follows `Protocol.ResetView`. |
| `Rendering.RenderTarget.ResetGLStates` | src/SFML/Graphics/RenderTarget.cpp:556-606 | follows the corrected `Protocol.ResetGLStates`: the reset as written, then `lastShader` set to null. |
| `Rendering.RenderTarget.Prepare` | src/SFML/Graphics/RenderTarget.cpp:326-328 | follows `Protocol.Prepare`. |
| `Rendering.RenderTarget.ResolveShader` | src/SFML/Graphics/RenderTarget.cpp:330-347 | follows `Protocol.ResolveShader`. It returns `shaderChanged` as current ≠ last, which is never true in the legacy pipeline. An override's warnings are switched off and its previous setting returned. |
| `Rendering.RenderTarget.PreTransform` | src/SFML/Graphics/RenderTarget.cpp:351-361 | for every i < count, the cache entry is the vertex with its position moved by the transform and its color, texture coordinates and normal kept. Entries from count on are untouched. |
| `Rendering.RenderTarget.ApplyDrawTransform` | src/SFML/Graphics/RenderTarget.cpp:363-370 | follows `Protocol.ApplyDrawTransform`. |
| `Rendering.RenderTarget.ApplyRenderStates` | src/SFML/Graphics/RenderTarget.cpp:372-389 | follows `Protocol.ApplyRenderStates`. |
| `Rendering.RenderTarget.ReleaseVertexBuffer` | src/SFML/Graphics/RenderTarget.cpp:391-393 | follows `Protocol.ReleaseVertexBuffer`. |
| `Rendering.RenderTarget.LegacySubmit` | src/SFML/Graphics/RenderTarget.cpp:410-424 | follows `Protocol.LegacySubmit`. |
| `Rendering.RenderTarget.UploadLights` | src/SFML/Graphics/RenderTarget.cpp:429-432 | the loop over the enabled lights follows `Protocol.UploadLights`. |
| `Rendering.RenderTarget.LightingUniforms` | src/SFML/Graphics/RenderTarget.cpp:427-437 | follows `Protocol.LightingUniforms`. |
| `Rendering.RenderTarget.EnableAttributes` | src/SFML/Graphics/RenderTarget.cpp:444-468 | follows `Protocol.EnableAttributes`. |
| `Rendering.RenderTarget.DisableAttributes` | src/SFML/Graphics/RenderTarget.cpp:473-483 | follows `Protocol.DisableAttributes`. |
| `Rendering.RenderTarget.ShaderSubmit` | src/SFML/Graphics/RenderTarget.cpp:425-484 | follows `Protocol.ShaderSubmit`. |
| `Rendering.RenderTarget.FinishDraw` | src/SFML/Graphics/RenderTarget.cpp:486-500 | follows `Protocol.FinishDraw`, and gives an override its warning setting back. |
| `Rendering.RenderTarget.ArraySetup` | src/SFML/Graphics/RenderTarget.cpp:330-393 | follows `Protocol.ArraySetup`. It pre-transforms the vertices into the cache exactly when legacy ∧ count ≤ 4 ∧ `states.useVertexCache`, and otherwise leaves the cache untouched. |
| `Rendering.RenderTarget.DrawSubmit` | src/SFML/Graphics/RenderTarget.cpp:405-500 | follows `Protocol.DrawSubmit`. |
| `Rendering.RenderTarget.ArraySubmit` | src/SFML/Graphics/RenderTarget.cpp:395-502 | follows `Protocol.ArraySubmit`: pointers at the vertex cache (unless already set) or the caller's vertices, the submission, then the pre-transform flag. |
| `Rendering.RenderTarget.DrawPrepared` | src/SFML/Graphics/RenderTarget.cpp:330-500 | follows `Protocol.ArrayDrawPrepared`, with the vertex-cache contents as in `ArraySetup`. |
| `Rendering.RenderTarget.DrawVertices` | src/SFML/Graphics/RenderTarget.cpp:317-502 | follows the corrected `Protocol.ArrayDraw`. An override's warning setting is as before the draw. The vertex cache holds the pre-transformed vertices when they are used and is untouched otherwise, including for an empty submission. |
| `Rendering.RenderTarget.BufferSetup` | src/SFML/Graphics/RenderTarget.cpp:180-223 | follows `Protocol.BufferSetup`. |
| `Rendering.RenderTarget.BufferDrawPrepared` | src/SFML/Graphics/RenderTarget.cpp:180-313 | follows `Protocol.BufferDrawPrepared`, and gives an override its warning setting back. |
| `Rendering.RenderTarget.DrawBuffer` | src/SFML/Graphics/RenderTarget.cpp:168-313 | follows the corrected `Protocol.BufferDraw`. An override's warning setting is as before the draw. |

## Left out

- Graphics-API calls are not modelled individually. Each applier becomes one `Event`. The log keeps the counts per kind and the last value of each binding (see `Device` above), not the order of events. These event arguments are not kept:
  - the pipeline flag of the device defaults (`glEnable`/`glDisable` and client states, 563-584);
  - the view handed to `setView` by the reset, whose effect is the machine's `view`;
  - the location and byte offset of each attribute pointer; only the memory it points at is kept, and attribute disables are only counted;
  - the target shader of the viewer-position uniform, beyond its sink, and the viewer position itself (`m_view->getPosition()`, float arithmetic).
- `getViewport`, `mapPixelToCoords` and `mapCoordsToPixel` are left out because they are float arithmetic on the view. A view is reduced to the pixel rectangle that `getViewport` would return.
- Matrix values are left out: the view and projection matrices, the normal matrix's inverse-transpose and the texture matrix's scale factors are float math. A transform is known only through the map it applies to points.
- The GLSL sources and the lighting equations are left out. Parsing the version string is an input (`PipelineProbe.supportedVersion`), and so is whether the default program compiles.
- `pushGLStates`, `popGLStates`, `clear`, `enableDepthTest` and `draw(const Drawable&)` are left out. They are device plumbing or a virtual callback with no cache logic of their own.
- `getView` and `getDefaultView` are plain accessors of the `view` and `defaultView` fields.
- `activate` is not part of this model. Its result is the input `Env.activated`, which stands for the nested activation inside `resetGLStates` too.
- `setView` is not part of this model. The reset records the call, sets the view to the default view and takes the resulting `viewChanged` from `Env.viewChangedBySetView`.
- `Shader.cpp`, `Texture.cpp`, `VertexBuffer.cpp`, `Light.cpp` and `RenderTarget.hpp` are not part of this model:
  - `Shader::isAvailable` and `VertexBuffer::isAvailable` are inputs, and so are the lighting registry and the shader's attribute locations;
  - the enabled lights are a sequence in the registry's order. The registry is a `std::set<const Light*>` (245-247, 429-431), so the lights it yields are duplicate-free and ordered by address, and the count uploaded is the set's size. The model does not require the sequence to be duplicate-free: a sequence with a repeated light, which the registry never yields, would be uploaded and counted once per occurrence;
  - `VertexCacheSize` is 4.
- The lifetime of `m_view` and `m_defaultShader` (`new`/`delete`) is not modelled. The current view is a value, so it is never null.
- `Rendering.RenderTarget.constructor` starts from the value-initialized cache that `m_cache ()` (45) gives: ids 0, flags false, and `lastBlendMode` from the default constructor of `BlendMode`, which is alpha blending. This assumes `StatesCache` declares no constructor of its own; `RenderTarget.hpp` and `BlendMode.cpp` are not part of this model. The initial contents of the vertex cache are placeholders: a cached draw writes the entries it uses first.
- `Protocol.ShaderChanged` compares shader objects by identity, as the source compares `m_currentNonLegacyShader` with `m_lastNonLegacyShader` as raw pointers (196, 346). Dafny objects are never freed, so the model cannot show the hazard that comes with those pointers. `m_lastNonLegacyShader` outlives the draw (309, 498), and `initialize`, through `setupNonLegacyPipeline`, deletes and re-creates the default shader (798, 817). If a shader is destroyed and a new one lands at the same address, `shaderChanged` is false, and the view (373) and texture (382) uniforms are never uploaded into the new program. This is the address-recycling case that textures avoid with cache ids (989-994); for textures the model does capture it, in `Runs.TextureIdentity`.
- `Rendering.RenderTarget.DrawVertices` requires that the caller's array is not the vertex cache. The vertex cache is private to the target, so a caller cannot pass it.
- `Protocol.BufferDrawAsWritten` and `Protocol.ArrayDrawAsWritten` keep only their own defects (the pre-transform flag, the null position pointer). Like every draw of the model they open with `Protocol.Prepare`, whose reset is the corrected one; the draws' reset as written (177-178, 327-328) is `Protocol.ResetGLStatesAsWritten`, whose defect the third finding shows on its own.
- The target's size is a constant of the object. A window that is resized between draws is not modelled.

## Findings

| source | as written | input that shows it | evidently intended | confidence | as-written member | corrected member |
|---|---|---|---|---|---|---|
| src/SFML/Graphics/RenderTarget.cpp:168-313 | the buffer draw sets its own transform and buffer-relative vertex pointers but never clears `m_cache.useVertexCache` | legacy pipeline; an array draw of ≤ 4 vertices with `useVertexCache` set, then a buffer draw, then another such array draw. The last draw issues neither the identity transform nor the vertex-cache pointers, after unbinding the buffer its pointers refer to | the buffer draw sets `m_cache.useVertexCache = false`, so the next cached draw re-issues the identity transform and the vertex-cache pointers | not executed | `Findings.StaleVertexCacheAfterBufferDraw` | `Findings.VertexCacheAfterBufferDraw` |
| src/SFML/Graphics/RenderTarget.cpp:446-450 | in the shader pipeline the array draw points the position attribute at offset 0 with no vertex buffer bound (the other attributes use `data + …`) | shader pipeline, a shader whose `sf_Vertex` location is ≥ 0, any non-empty array draw | the position attribute points at `data`, the caller's vertices | not executed | `Findings.ArrayDrawAsWrittenNullPosition` | `Findings.ArrayDrawAvoidsNull` |
| src/SFML/Graphics/RenderTarget.cpp:586-606 | the reset applies no texture to the current sink (the default shader's uniforms after a draw) and sets `lastTextureId` to 0, but keeps `m_lastNonLegacyShader`, which the next draw compares with (346) before deciding on the texture (382) | shader pipeline; a draw with shader A and texture T; `resetGLStates()` (or `pushGLStates()`, 531, or `initialize()`, 619, so that the next draw opens with the reset, 177-178 and 327-328); a draw with shader A and no texture. The second draw sees no shader change and texture id 0 = `lastTextureId`, so it skips the texture, and A still samples T | the reset also forgets the last shader (`m_lastNonLegacyShader = NULL`), so the next draw counts as a shader change and re-uploads its view and texture | not executed | `Findings.StaleShaderTextureAfterReset` | `Findings.ShaderTextureAfterReset` |
