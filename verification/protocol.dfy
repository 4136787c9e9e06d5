/**
 * The draw protocol of the render target as a pure state machine. A
 * `Machine` is everything the target tracks between draws (the states
 * cache, the shader pointers, the views) plus the log of device events
 * issued so far. Each applier and each public operation is a function from
 * the machine before to the machine after; the class in module Rendering is
 * proved to follow these functions step by step.
 */
module Protocol {
  import opened Wrappers
  import opened Geometry
  import opened Resources
  import opened Device

  /** Capacity of the pre-transform vertex cache. */
  const VertexCacheSize: nat := 4

  /** The states cache: what the device is known to hold since the last reset. */
  datatype Cache = Cache(
    glStatesSet: bool,
    lastBlendMode: BlendMode,
    lastTextureId: nat,
    lastVertexBufferId: nat,
    viewChanged: bool,
    useVertexCache: bool)

  /**
   * The target's tracked state. `defaultShader` is null exactly when the
   * legacy fixed-function pipeline is in use; `currentShader` and
   * `lastShader` are the shader pipeline's per-draw pointers.
   */
  datatype Machine = Machine(
    cache: Cache,
    defaultShader: Shader?,
    currentShader: Shader?,
    lastShader: Shader?,
    view: View,
    defaultView: View,
    height: nat,
    log: Log)
  {
    predicate Legacy()
    {
      defaultShader == null
    }
  }

  /**
   * Facts from outside the target that one operation consults: whether
   * activation succeeds, the availability probes of shaders and vertex
   * buffers, the lighting registry, and the change flag that the external
   * setView leaves behind. The registry is a set, so `enabledLights` lists
   * each enabled light once, in the set's order.
   */
  datatype Env = Env(
    activated: bool,
    shaderAvailable: bool,
    vertexBufferAvailable: bool,
    lightingEnabled: bool,
    enabledLights: seq<LightId>,
    viewChangedBySetView: bool)

  /** The inputs of the pipeline choice made once at initialization. */
  datatype PipelineProbe = PipelineProbe(
    hasShaderLighting: bool,
    supportedVersion: real,
    legacyBuild: bool,
    defaultShaderCompiles: bool)

  /** Whether initialization keeps a default shader, i.e. selects the shader pipeline. */
  function ShaderPipelineSelected(probe: PipelineProbe): (selected: bool)
    ensures !probe.hasShaderLighting ==> !selected
    ensures probe.legacyBuild ==> !selected
    ensures probe.supportedVersion <= 1.29 ==> !selected
    ensures !probe.defaultShaderCompiles ==> !selected
    ensures (probe.hasShaderLighting && !probe.legacyBuild && probe.supportedVersion > 1.29 &&
             probe.defaultShaderCompiles) ==> selected
  {
    var versionNumber := if probe.legacyBuild then 0.0 else probe.supportedVersion;
    probe.hasShaderLighting && versionNumber > 1.29 && probe.defaultShaderCompiles
  }

  /** The view covering the whole target, as initialization sets up the default and the current view. */
  function FullView(width: nat, height: nat): View
  {
    View(IntRect(0, 0, width, height))
  }

  /**
   * initialize: default and current view cover the whole target, the
   * persistent device states are marked unset so that the first draw resets
   * them, and the pipeline choice leaves `defaultShader` (null for legacy).
   */
  ghost function Initialize(m: Machine, width: nat, defaultShader: Shader?): (r: Machine)
    ensures !r.cache.glStatesSet && r.view == r.defaultView == FullView(width, m.height)
    ensures r.defaultShader == defaultShader && r.Legacy() == (defaultShader == null)
    ensures r.cache == m.cache.(glStatesSet := false)
    ensures r.currentShader == m.currentShader && r.lastShader == m.lastShader
    ensures r.log == m.log && r.height == m.height
  {
    var full := FullView(width, m.height);
    m.(cache := m.cache.(glStatesSet := false), defaultView := full, view := full, defaultShader := defaultShader)
  }

  /** Shader, view, height and pointer fields agree. */
  ghost predicate SameSetup(m: Machine, r: Machine)
  {
    r.defaultShader == m.defaultShader && r.currentShader == m.currentShader &&
    r.lastShader == m.lastShader && r.view == m.view && r.defaultView == m.defaultView &&
    r.height == m.height
  }

  /** Issues one device event. */
  ghost function Emit(m: Machine, e: Event): (r: Machine)
    ensures r.cache == m.cache && SameSetup(m, r) && r.log == m.log.Record(e)
  {
    m.(log := m.log.Record(e))
  }

  /** Where uniform-carried state goes: the current shader, else the default one; fixed-function state in the legacy pipeline. */
  function SinkOf(m: Machine): (s: Sink)
    ensures s.FixedFunction? <==> m.Legacy()
    ensures !m.Legacy() ==> s == Uniforms(EffectiveShader(m.currentShader, m.defaultShader))
  {
    if m.defaultShader == null then FixedFunction
    else Uniforms(if m.currentShader != null then m.currentShader else m.defaultShader)
  }

  /** The device viewport: same size, vertical origin moved from the top edge to the bottom edge. */
  function FlipViewport(viewport: IntRect, height: int): (r: IntRect)
    ensures r.left == viewport.left && r.width == viewport.width && r.height == viewport.height
    ensures height - (r.top + r.height) == viewport.top
  {
    IntRect(viewport.left, height - (viewport.top + viewport.height), viewport.width, viewport.height)
  }

  /** The view applier. */
  ghost function ApplyCurrentView(m: Machine): (r: Machine)
    ensures r.cache == m.cache.(viewChanged := false) && SameSetup(m, r)
    ensures r.log == m.log.Record(SetViewport(FlipViewport(m.view.viewport, m.height), SinkOf(m)))
    ensures r.log.lastViewport == Some(FlipViewport(m.view.viewport, m.height)) && r.log.sinks == m.log.sinks + {SinkOf(m)}
  {
    var r := Emit(m, SetViewport(FlipViewport(m.view.viewport, m.height), SinkOf(m)));
    r.(cache := r.cache.(viewChanged := false))
  }

  /** The blend-mode applier. */
  ghost function ApplyBlendMode(m: Machine, mode: BlendMode): (r: Machine)
    ensures r.cache == m.cache.(lastBlendMode := mode) && SameSetup(m, r)
    ensures r.log == m.log.Record(SetBlendFunc(mode)) && r.log.blendMode == Some(mode)
  {
    var r := Emit(m, SetBlendFunc(mode));
    r.(cache := r.cache.(lastBlendMode := mode))
  }

  /** The transform applier; the normal matrix goes along only in the shader pipeline with lighting on. */
  ghost function ApplyTransform(m: Machine, transform: Transform, env: Env): (r: Machine)
    ensures r.cache == m.cache && SameSetup(m, r)
    ensures r.log == m.log.Record(LoadTransform(transform, SinkOf(m), !m.Legacy() && env.lightingEnabled))
    ensures r.log.lastTransform == Some(transform) && r.log.sinks == m.log.sinks + {SinkOf(m)}
    ensures r.log.normalMatrix <==> !m.Legacy() && env.lightingEnabled
  {
    Emit(m, LoadTransform(transform, SinkOf(m), !m.Legacy() && env.lightingEnabled))
  }

  /** The texture applier. */
  ghost function ApplyTexture(m: Machine, texture: Option<Texture>): (r: Machine)
    ensures r.cache == m.cache.(lastTextureId := TextureId(texture)) && SameSetup(m, r)
    ensures r.log == m.log.Record(BindTexture(texture, SinkOf(m)))
    ensures r.log.textures == m.log.textures[SinkOf(m) := texture] && r.log.sinks == m.log.sinks + {SinkOf(m)}
  {
    var r := Emit(m, BindTexture(texture, SinkOf(m)));
    r.(cache := r.cache.(lastTextureId := TextureId(texture)))
  }

  /** The shader applier: binds, or unbinds for null. Nothing is cached. */
  ghost function ApplyShader(m: Machine, shader: Shader?): (r: Machine)
    ensures r.cache == m.cache && SameSetup(m, r)
    ensures r.log == m.log.Record(BindShader(shader))
    ensures r.log.boundShader == Some(shader) && r.log.sinks == m.log.sinks
  {
    Emit(m, BindShader(shader))
  }

  /** The vertex-buffer applier: binds, or unbinds for none, and records the identity (0 for none). */
  ghost function ApplyVertexBuffer(m: Machine, buffer: Option<VertexBuffer>): (r: Machine)
    ensures r.cache == m.cache.(lastVertexBufferId := VertexBufferId(buffer))
    ensures SameSetup(m, r) && r.log == m.log.Record(BindVertexBuffer(buffer))
    ensures r.log.boundBuffer == Some(buffer) && r.log.sinks == m.log.sinks
  {
    var r := Emit(m, BindVertexBuffer(buffer));
    r.(cache := r.cache.(lastVertexBufferId := VertexBufferId(buffer)))
  }

  /** The first half of resetGLStates: device defaults, blend mode Alpha, identity transform, no texture. */
  ghost function ResetDefaultStates(m: Machine, env: Env): (r: Machine)
    ensures r.cache == m.cache.(glStatesSet := true, lastBlendMode := BlendAlpha, lastTextureId := 0)
    ensures SameSetup(m, r)
    ensures var t := m.log.tally;
      r.log.tally == t.(resets := t.resets + 1, blends := t.blends + 1,
                        transforms := t.transforms + 1, textures := t.textures + 1)
    ensures r.log.lastTransform == Some(Identity)
    ensures r.log.lastPointers == m.log.lastPointers && r.log.attributeSources == m.log.attributeSources
    ensures r.log.textures == m.log.textures[SinkOf(m) := None] && r.log.sinks == m.log.sinks + {SinkOf(m)}
    ensures r.log.blendMode == Some(BlendAlpha)
  {
    var m1 := Emit(m, ResetDefaults(m.Legacy()));
    var m2 := m1.(cache := m1.cache.(glStatesSet := true));
    var m3 := ApplyBlendMode(m2, BlendAlpha);
    var m4 := ApplyTransform(m3, Identity, env);
    ApplyTexture(m4, None)
  }

  /**
   * The second part of resetGLStates: the pipeline's shader where shaders
   * exist (the legacy pipeline unbinds, its default shader being null) and
   * no vertex buffer where vertex buffers exist.
   */
  ghost function ResetBindings(m: Machine, env: Env): (r: Machine)
    ensures r.cache == m.cache.(lastVertexBufferId := if env.vertexBufferAvailable then 0 else m.cache.lastVertexBufferId)
    ensures SameSetup(m, r) && r.log.Settled(m.log) && r.log.sinks == m.log.sinks
    ensures var t := m.log.tally;
      r.log.tally == t.(shaders := t.shaders + Once(env.shaderAvailable), buffers := t.buffers + Once(env.vertexBufferAvailable))
    ensures r.log.boundShader == (if env.shaderAvailable then Some(m.defaultShader) else m.log.boundShader)
    ensures r.log.boundBuffer == (if env.vertexBufferAvailable then Some(None) else m.log.boundBuffer)
    ensures r.log.textures == m.log.textures && r.log.blendMode == m.log.blendMode
  {
    var m1 := if env.shaderAvailable then ApplyShader(m, m.defaultShader) else m;
    if env.vertexBufferAvailable then ApplyVertexBuffer(m1, None) else m1
  }

  /**
   * The end of resetGLStates: no pre-transformed vertices, and the default
   * view handed to setView, which leaves its change flag behind.
   */
  ghost function ResetView(m: Machine, env: Env): (r: Machine)
    ensures r.cache == m.cache.(useVertexCache := false, viewChanged := env.viewChangedBySetView)
    ensures r.view == m.defaultView && r.defaultView == m.defaultView && r.height == m.height
    ensures r.defaultShader == m.defaultShader && r.currentShader == m.currentShader && r.lastShader == m.lastShader
    ensures r.log == m.log.Record(SetView(m.defaultView))
  {
    var m1 := Emit(m.(cache := m.cache.(useVertexCache := false)), SetView(m.defaultView));
    m1.(view := m1.defaultView, cache := m1.cache.(viewChanged := env.viewChangedBySetView))
  }

  /**
   * resetGLStates as written: device defaults, then blend mode Alpha,
   * identity transform, no texture, the pipeline's shader (if shaders exist),
   * no vertex buffer (if buffers exist), no pre-transformed vertices, and the
   * default view. Nothing happens when the target cannot be activated. The
   * shader the previous draw used stays recorded as the last one.
   */
  ghost function ResetGLStatesAsWritten(m: Machine, env: Env): (r: Machine)
    ensures !env.activated ==> r == m
    ensures env.activated ==>
      && r.cache.glStatesSet
      && r.cache.lastBlendMode == BlendAlpha
      && r.cache.lastTextureId == 0
      && r.cache.lastVertexBufferId == (if env.vertexBufferAvailable then 0 else m.cache.lastVertexBufferId)
      && !r.cache.useVertexCache
      && r.cache.viewChanged == env.viewChangedBySetView
      && r.view == m.defaultView
      && r.defaultShader == m.defaultShader && r.currentShader == m.currentShader
      && r.lastShader == m.lastShader && r.defaultView == m.defaultView && r.height == m.height
    ensures env.activated ==> var t := m.log.tally;
      r.log.tally == t.(resets := t.resets + 1, setViews := t.setViews + 1,
                        blends := t.blends + 1, transforms := t.transforms + 1,
                        textures := t.textures + 1,
                        shaders := t.shaders + Once(env.shaderAvailable),
                        buffers := t.buffers + Once(env.vertexBufferAvailable))
    ensures env.activated ==>
      && r.log.lastTransform == Some(Identity)
      && r.log.lastPointers == m.log.lastPointers
      && r.log.attributeSources == m.log.attributeSources
      && r.log.sinks == m.log.sinks + {SinkOf(m)}
      && r.log.textures == m.log.textures[SinkOf(m) := None]
      && r.log.blendMode == Some(BlendAlpha)
      && (env.shaderAvailable ==> r.log.boundShader == Some(m.defaultShader))
      && r.log.boundBuffer == (if env.vertexBufferAvailable then Some(None) else m.log.boundBuffer)
  {
    if !env.activated then m
    else
      ResetView(ResetBindings(ResetDefaultStates(m, env), env), env)
  }

  /**
   * resetGLStates, corrected: as written, and the shader the previous draw
   * used is forgotten, so that the next shader-pipeline draw sets its view
   * and texture uniforms again. As written, the reset sends no texture to
   * the current or default shader only, and records texture identity 0,
   * while the last shader keeps whatever texture it had.
   */
  ghost function ResetGLStates(m: Machine, env: Env): (r: Machine)
    ensures !env.activated ==> r == m
    ensures env.activated ==> r == ResetGLStatesAsWritten(m, env).(lastShader := null)
    ensures env.activated ==> r.lastShader == null && r.cache.glStatesSet && r.cache.lastTextureId == 0
  {
    var r := ResetGLStatesAsWritten(m, env);
    if !env.activated then r else r.(lastShader := null)
  }

  /** The reset a draw runs first when the persistent device states are not set. */
  ghost function Prepare(m: Machine, env: Env): (r: Machine)
    ensures m.cache.glStatesSet ==> r == m
    ensures env.activated ==> r.cache.glStatesSet
    ensures r.defaultShader == m.defaultShader && r.currentShader == m.currentShader
    ensures r.lastShader == (if !m.cache.glStatesSet && env.activated then null else m.lastShader)
    ensures r.defaultView == m.defaultView && r.height == m.height
    ensures r.log.sinks <= m.log.sinks + {SinkOf(m)}
  {
    if !m.cache.glStatesSet then ResetGLStates(m, env) else m
  }

  /** The shader a shader-pipeline draw uses: the submission's own, else the default one. */
  function EffectiveShader(override: Shader?, default: Shader): (s: Shader)
    ensures override != null ==> s == override
    ensures override == null ==> s == default
  {
    if override != null then override else default
  }

  /** Whether the shader used differs from the previous draw's, so that its uniforms must be set again. */
  ghost predicate ShaderChanged(m: Machine, states: RenderStates)
  {
    m.defaultShader != null && EffectiveShader(states.shader, m.defaultShader) != m.lastShader
  }

  /** Where a draw's uniform-carried state goes: fixed-function state, or the uniforms of the shader it uses. */
  function DrawSink(m: Machine, states: RenderStates): (s: Sink)
    ensures s.FixedFunction? <==> m.Legacy()
  {
    if m.defaultShader == null then FixedFunction else Uniforms(EffectiveShader(states.shader, m.defaultShader))
  }

  /** Records the shader this draw uses as the current one (shader pipeline only). */
  ghost function ResolveShader(m: Machine, states: RenderStates): (r: Machine)
    ensures r.cache == m.cache && r.log == m.log
    ensures r.defaultShader == m.defaultShader && r.lastShader == m.lastShader && r.view == m.view &&
            r.defaultView == m.defaultView && r.height == m.height
    ensures r.currentShader == (if m.Legacy() then m.currentShader else EffectiveShader(states.shader, m.defaultShader))
    ensures SinkOf(r) == DrawSink(m, states)
  {
    if m.defaultShader == null then m
    else m.(currentShader := EffectiveShader(states.shader, m.defaultShader))
  }

  /** Whether vertices are pre-transformed into the cache: legacy pipeline, few enough vertices, and allowed. */
  function UseVertexCache(legacy: bool, vertexCount: nat, allowed: bool): (use: bool)
    ensures use ==> vertexCount <= VertexCacheSize
    ensures !legacy ==> !use
    ensures !allowed ==> !use
    ensures legacy && allowed && vertexCount <= VertexCacheSize ==> use
  {
    legacy && vertexCount <= VertexCacheSize && allowed
  }

  /**
   * The memory the fixed-function pointers are set to for an array draw, if
   * they are set at all: the vertex cache only when the previous draw did not
   * already use it, otherwise the caller's vertices.
   */
  function ArrayPointerSource(useCache: bool, cacheInUse: bool): (r: Option<VertexSource>)
    ensures r == None <==> useCache && cacheInUse
    ensures r == Some(VertexCacheArray) <==> useCache && !cacheInUse
    ensures !useCache ==> r == Some(CallerArray)
  {
    if !useCache then Some(CallerArray)
    else if !cacheInUse then Some(VertexCacheArray)
    else None
  }

  /** The view applier when the shader or the view changed, then the blend applier when the blend mode differs. */
  ghost function ApplyViewAndBlend(m: Machine, states: RenderStates, shaderChanged: bool): (r: Machine)
    ensures r.cache == m.cache.(viewChanged := false, lastBlendMode := states.blendMode)
    ensures SameSetup(m, r) && r.log.Settled(m.log)
    ensures var t := m.log.tally;
      r.log.tally == t.(views := t.views + Once(shaderChanged || m.cache.viewChanged),
                        blends := t.blends + Once(states.blendMode != m.cache.lastBlendMode))
    ensures r.log.lastViewport == (if shaderChanged || m.cache.viewChanged
                                   then Some(FlipViewport(m.view.viewport, m.height)) else m.log.lastViewport)
    ensures r.log.sinks <= m.log.sinks + {SinkOf(m)}
    ensures r.log.blendMode == (if states.blendMode != m.cache.lastBlendMode then Some(states.blendMode) else m.log.blendMode)
    ensures r.log.textures == m.log.textures && r.log.boundShader == m.log.boundShader
    ensures r.log.boundBuffer == m.log.boundBuffer && r.log.lastDraw == m.log.lastDraw
  {
    var m1 := if shaderChanged || m.cache.viewChanged then ApplyCurrentView(m) else m;
    if states.blendMode != m1.cache.lastBlendMode then ApplyBlendMode(m1, states.blendMode) else m1
  }

  /**
   * View, blend mode, texture and shader, each applier run only when its
   * trigger holds. Afterwards the cache holds the submission's blend mode and
   * texture identity and no pending view change.
   */
  ghost function ApplyRenderStates(m: Machine, states: RenderStates, shaderChanged: bool): (r: Machine)
    ensures r.cache == m.cache.(viewChanged := false, lastBlendMode := states.blendMode,
                                lastTextureId := TextureId(states.texture))
    ensures SameSetup(m, r) && r.log.Settled(m.log)
    ensures var t := m.log.tally;
      r.log.tally == t.(views := t.views + Once(shaderChanged || m.cache.viewChanged),
                        blends := t.blends + Once(states.blendMode != m.cache.lastBlendMode),
                        textures := t.textures + Once(shaderChanged || TextureId(states.texture) != m.cache.lastTextureId),
                        shaders := t.shaders + Once(states.shader != null || !m.Legacy()))
    ensures r.log.boundShader == (if states.shader != null then Some(states.shader)
                                  else if !m.Legacy() then Some(m.defaultShader) else m.log.boundShader)
    ensures r.log.textures == (if shaderChanged || TextureId(states.texture) != m.cache.lastTextureId
                               then m.log.textures[SinkOf(m) := states.texture] else m.log.textures)
    ensures r.log.blendMode == (if states.blendMode != m.cache.lastBlendMode then Some(states.blendMode) else m.log.blendMode)
    ensures r.log.sinks <= m.log.sinks + {SinkOf(m)}
    ensures r.log.boundBuffer == m.log.boundBuffer && r.log.lastDraw == m.log.lastDraw
  {
    var m2 := ApplyViewAndBlend(m, states, shaderChanged);
    var m3 := if shaderChanged || TextureId(states.texture) != m2.cache.lastTextureId
              then ApplyTexture(m2, states.texture) else m2;
    if states.shader != null then ApplyShader(m3, states.shader)
    else if m3.defaultShader != null then ApplyShader(m3, m3.defaultShader)
    else m3
  }

  /** Fixed-function submission: the vertex pointers (if given), then one draw call. */
  ghost function LegacySubmit(m: Machine, source: Option<VertexSource>, primitive: PrimitiveType, count: nat): (r: Machine)
    ensures r.cache == m.cache && SameSetup(m, r)
    ensures var t := m.log.tally;
      r.log.tally == t.(pointers := t.pointers + Once(source.Some?), draws := t.draws + 1)
    ensures r.log.lastPointers == (if source.Some? then source else m.log.lastPointers)
    ensures r.log.lastTransform == m.log.lastTransform && r.log.attributeSources == m.log.attributeSources
    ensures r.log.lastDraw == Some(DrawCall(primitive, count))
    ensures r.log.sinks == m.log.sinks && r.log.boundShader == m.log.boundShader && r.log.SameBindings(m.log)
  {
    var m1 := if source.Some? then Emit(m, SetPointers(source.value)) else m;
    Emit(m1, DrawArrays(primitive, count))
  }

  /** One light-parameter upload per enabled light, in order. */
  ghost function UploadLights(m: Machine, target: Shader, lights: seq<LightId>): (r: Machine)
    ensures r == m.(log := m.log.(tally := m.log.tally.(lights := m.log.tally.lights + |lights|),
                                  uploadedLights := m.log.uploadedLights + lights,
                                  sinks := m.log.sinks + (if lights == [] then {} else {Uniforms(target)})))
    decreases |lights|
  {
    if lights == [] then m
    else Emit(UploadLights(m, target, lights[..|lights| - 1]), AddLight(target, lights[|lights| - 1]))
  }

  /** The lighting uniforms: light count, each enabled light and the viewer position; or a count of zero. */
  ghost function LightingUniforms(m: Machine, env: Env, target: Shader): (r: Machine)
    ensures r.cache == m.cache && SameSetup(m, r) && r.log.Settled(m.log)
    ensures var t := m.log.tally;
      r.log.tally == t.(uniforms := t.uniforms + (if env.lightingEnabled then 2 else 1),
                        lights := t.lights + (if env.lightingEnabled then |env.enabledLights| else 0))
    ensures r.log.lightCount == Some(if env.lightingEnabled then |env.enabledLights| else 0)
    ensures r.log.uploadedLights == m.log.uploadedLights + (if env.lightingEnabled then env.enabledLights else [])
    ensures r.log.sinks == m.log.sinks + {Uniforms(target)}
    ensures r.log.boundShader == m.log.boundShader && r.log.lastDraw == m.log.lastDraw && r.log.SameBindings(m.log)
  {
    if env.lightingEnabled then
      var m1 := Emit(m, SetLightCount(target, |env.enabledLights|));
      Emit(UploadLights(m1, target, env.enabledLights), SetViewerPosition(target))
    else Emit(m, SetLightCount(target, 0))
  }

  /** How many vertex attributes a shader declares. */
  function Declared(locations: AttributeLocations): (n: nat)
    ensures n <= 4
    ensures n == 0 <==> locations.position < 0 && locations.color < 0 && locations.texCoords < 0 && locations.normal < 0
  {
    Once(locations.position >= 0) + Once(locations.color >= 0) + Once(locations.texCoords >= 0) + Once(locations.normal >= 0)
  }

  /**
   * The memory the declared attributes are pointed at: the position source
   * for a declared position, the vertex source for any other declared one.
   */
  function AttributeMemory(locations: AttributeLocations, positionSource: VertexSource, source: VertexSource): set<VertexSource>
  {
    (if locations.position >= 0 then {positionSource} else {}) +
    (if locations.color >= 0 || locations.texCoords >= 0 || locations.normal >= 0 then {source} else {})
  }

  /** Points every attribute the shader declares at the vertex data, position first. */
  ghost function EnableAttributes(m: Machine, locations: AttributeLocations,
                                  positionSource: VertexSource, source: VertexSource): (r: Machine)
    ensures r.cache == m.cache && SameSetup(m, r)
    ensures r.log.tally == m.log.tally.(attributes := m.log.tally.attributes + Declared(locations))
    ensures r.log.attributeSources == m.log.attributeSources + AttributeMemory(locations, positionSource, source)
    ensures r.log.lastTransform == m.log.lastTransform && r.log.lastPointers == m.log.lastPointers
    ensures r.log.sinks == m.log.sinks && r.log.boundShader == m.log.boundShader
    ensures r.log.lightCount == m.log.lightCount && r.log.lastDraw == m.log.lastDraw && r.log.SameBindings(m.log)
  {
    var m1 := if locations.position >= 0 then Emit(m, EnableAttribute(locations.position, positionSource, PositionOffset)) else m;
    var m2 := if locations.color >= 0 then Emit(m1, EnableAttribute(locations.color, source, ColorOffset)) else m1;
    var m3 := if locations.texCoords >= 0 then Emit(m2, EnableAttribute(locations.texCoords, source, TexCoordsOffset)) else m2;
    if locations.normal >= 0 then Emit(m3, EnableAttribute(locations.normal, source, NormalOffset)) else m3
  }

  /** Disables every attribute the shader declares. */
  ghost function DisableAttributes(m: Machine, locations: AttributeLocations): (r: Machine)
    ensures r.cache == m.cache && SameSetup(m, r) && r.log.Settled(m.log)
    ensures r.log.tally == m.log.tally.(attributes := m.log.tally.attributes + Declared(locations))
    ensures r.log.sinks == m.log.sinks && r.log.boundShader == m.log.boundShader
    ensures r.log.lightCount == m.log.lightCount && r.log.lastDraw == m.log.lastDraw && r.log.SameBindings(m.log)
  {
    var m1 := if locations.position >= 0 then Emit(m, DisableAttribute(locations.position)) else m;
    var m2 := if locations.color >= 0 then Emit(m1, DisableAttribute(locations.color)) else m1;
    var m3 := if locations.texCoords >= 0 then Emit(m2, DisableAttribute(locations.texCoords)) else m2;
    if locations.normal >= 0 then Emit(m3, DisableAttribute(locations.normal)) else m3
  }

  /** Shader-pipeline submission: lighting uniforms, attribute pointers, one draw call, attributes off again. */
  ghost function ShaderSubmit(m: Machine, env: Env, target: Shader, positionSource: VertexSource,
                              source: VertexSource, primitive: PrimitiveType, count: nat): (r: Machine)
    ensures r.cache == m.cache && SameSetup(m, r)
    ensures var t := m.log.tally;
      r.log.tally == t.(uniforms := t.uniforms + (if env.lightingEnabled then 2 else 1),
                        lights := t.lights + (if env.lightingEnabled then |env.enabledLights| else 0),
                        attributes := t.attributes + 2 * Declared(target.locations),
                        draws := t.draws + 1)
    ensures r.log.attributeSources == m.log.attributeSources + AttributeMemory(target.locations, positionSource, source)
    ensures r.log.lastTransform == m.log.lastTransform && r.log.lastPointers == m.log.lastPointers
    ensures r.log.lightCount == Some(if env.lightingEnabled then |env.enabledLights| else 0)
    ensures r.log.sinks == m.log.sinks + {Uniforms(target)}
    ensures r.log.lastDraw == Some(DrawCall(primitive, count)) && r.log.boundShader == m.log.boundShader
    ensures r.log.SameBindings(m.log)
  {
    var m1 := LightingUniforms(m, env, target);
    var m2 := EnableAttributes(m1, target.locations, positionSource, source);
    var m3 := Emit(m2, DrawArrays(primitive, count));
    DisableAttributes(m3, target.locations)
  }

  /**
   * The end of a draw: the legacy pipeline unbinds a shader the submission
   * brought; the shader pipeline remembers the shader it used and forgets
   * the current one.
   */
  ghost function FinishDraw(m: Machine, states: RenderStates): (r: Machine)
    ensures r.cache == m.cache && r.log.Settled(m.log)
    ensures r.defaultShader == m.defaultShader && r.view == m.view && r.defaultView == m.defaultView && r.height == m.height
    ensures m.Legacy() ==> r.currentShader == m.currentShader && r.lastShader == m.lastShader
    ensures !m.Legacy() ==> r.lastShader == m.currentShader && r.currentShader == null
    ensures r.log.tally == m.log.tally.(shaders := m.log.tally.shaders + Once(m.Legacy() && states.shader != null))
    ensures r.log.boundShader == (if m.Legacy() && states.shader != null then Some(null) else m.log.boundShader)
    ensures r.log.sinks == m.log.sinks && r.log.lastDraw == m.log.lastDraw && r.log.lightCount == m.log.lightCount
    ensures r.log.SameBindings(m.log)
  {
    if m.defaultShader == null then
      (if states.shader != null then ApplyShader(m, null) else m)
    else m.(lastShader := m.currentShader, currentShader := null)
  }

  /** Whether a draw reaches the device at all. */
  predicate Submits(activated: bool, hasVertices: bool, count: nat): (submits: bool)
    ensures !hasVertices || count == 0 ==> !submits
    ensures !activated ==> !submits
    ensures activated && hasVertices && count > 0 ==> submits
  {
    activated && hasVertices && count > 0
  }

  /**
   * The transform of an array draw: the submission's own, or the identity
   * for pre-transformed vertices, which is skipped when the previous draw
   * already drew from the vertex cache.
   */
  ghost function ApplyDrawTransform(m: Machine, env: Env, useCache: bool, states: RenderStates): (r: Machine)
    ensures r.cache == m.cache && SameSetup(m, r)
    ensures r.log.tally == m.log.tally.(transforms := m.log.tally.transforms + Once(!useCache || !m.cache.useVertexCache))
    ensures r.log.lastTransform == (if !useCache then Some(states.transform)
                                    else if !m.cache.useVertexCache then Some(Identity)
                                    else m.log.lastTransform)
    ensures r.log.lastPointers == m.log.lastPointers && r.log.attributeSources == m.log.attributeSources
    ensures r.log.sinks <= m.log.sinks + {SinkOf(m)} && r.log.boundShader == m.log.boundShader
    ensures r.log.boundBuffer == m.log.boundBuffer && r.log.textures == m.log.textures
    ensures r.log.blendMode == m.log.blendMode
  {
    if !useCache then ApplyTransform(m, states.transform, env)
    else if !m.cache.useVertexCache then ApplyTransform(m, Identity, env)
    else m
  }

  /** An array draw unbinds the vertex buffer, unless the cache says none is bound. */
  ghost function ReleaseVertexBuffer(m: Machine): (r: Machine)
    ensures r.cache == m.cache.(lastVertexBufferId := 0) && SameSetup(m, r) && r.log.Settled(m.log)
    ensures r.log.tally == m.log.tally.(buffers := m.log.tally.buffers + Once(m.cache.lastVertexBufferId != 0))
    ensures r.log.boundBuffer == (if m.cache.lastVertexBufferId != 0 then Some(None) else m.log.boundBuffer)
    ensures r.log.sinks == m.log.sinks && r.log.boundShader == m.log.boundShader
    ensures r.log.textures == m.log.textures && r.log.blendMode == m.log.blendMode
  {
    if m.cache.lastVertexBufferId != 0 then ApplyVertexBuffer(m, None) else m
  }

  /** A buffer draw binds its buffer, unless the cache says it is the bound one already. */
  ghost function AcquireVertexBuffer(m: Machine, buffer: VertexBuffer): (r: Machine)
    ensures r.cache == m.cache.(lastVertexBufferId := buffer.cacheId) && SameSetup(m, r) && r.log.Settled(m.log)
    ensures r.log.tally == m.log.tally.(buffers := m.log.tally.buffers + Once(buffer.cacheId != m.cache.lastVertexBufferId))
    ensures r.log.boundBuffer == (if buffer.cacheId != m.cache.lastVertexBufferId then Some(Some(buffer)) else m.log.boundBuffer)
    ensures r.log.sinks == m.log.sinks && r.log.boundShader == m.log.boundShader
    ensures r.log.textures == m.log.textures && r.log.blendMode == m.log.blendMode
  {
    if buffer.cacheId != m.cache.lastVertexBufferId then ApplyVertexBuffer(m, Some(buffer)) else m
  }

  /**
   * The states every draw applies before its vertex-buffer step: the shader
   * it uses made current, the transform (the submission's, or the identity
   * for pre-transformed vertices), then view, blend mode, texture and
   * shader, each applier run only when its trigger holds.
   */
  ghost function DrawStates(p: Machine, env: Env, useCache: bool, states: RenderStates): (r: Machine)
    ensures r.cache == p.cache.(viewChanged := false, lastBlendMode := states.blendMode,
                                lastTextureId := TextureId(states.texture))
    ensures r.defaultShader == p.defaultShader && r.lastShader == p.lastShader && r.view == p.view &&
            r.defaultView == p.defaultView && r.height == p.height
    ensures r.currentShader == (if p.Legacy() then p.currentShader else EffectiveShader(states.shader, p.defaultShader))
    ensures var changed := ShaderChanged(p, states); var t := p.log.tally;
      r.log.tally == t.(transforms := t.transforms + Once(!useCache || !p.cache.useVertexCache),
                        views := t.views + Once(changed || p.cache.viewChanged),
                        blends := t.blends + Once(states.blendMode != p.cache.lastBlendMode),
                        textures := t.textures + Once(changed || TextureId(states.texture) != p.cache.lastTextureId),
                        shaders := t.shaders + Once(states.shader != null || !p.Legacy()))
    ensures r.log.lastTransform == (if !useCache then Some(states.transform)
                                    else if !p.cache.useVertexCache then Some(Identity)
                                    else p.log.lastTransform)
    ensures r.log.lastPointers == p.log.lastPointers && r.log.attributeSources == p.log.attributeSources
    ensures r.log.sinks <= p.log.sinks + {DrawSink(p, states)}
    ensures r.log.boundShader == (if states.shader != null then Some(states.shader)
                                  else if !p.Legacy() then Some(p.defaultShader) else p.log.boundShader)
    ensures r.log.boundBuffer == p.log.boundBuffer
    ensures r.log.textures == (if ShaderChanged(p, states) || TextureId(states.texture) != p.cache.lastTextureId
                               then p.log.textures[DrawSink(p, states) := states.texture] else p.log.textures)
    ensures r.log.blendMode == (if states.blendMode != p.cache.lastBlendMode then Some(states.blendMode) else p.log.blendMode)
  {
    var m3 := ApplyDrawTransform(ResolveShader(p, states), env, useCache, states);
    ApplyRenderStates(m3, states, ShaderChanged(p, states))
  }

  /**
   * The states an array draw applies before it submits: the current shader,
   * the transform (the identity for pre-transformed vertices, and then only
   * when the cache was not already in use), view, blend mode, texture and
   * shader, and the unbinding of any vertex buffer.
   */
  ghost function ArraySetup(p: Machine, env: Env, count: nat, states: RenderStates): (r: Machine)
    ensures r.cache == p.cache.(viewChanged := false, lastBlendMode := states.blendMode,
                                lastTextureId := TextureId(states.texture), lastVertexBufferId := 0)
    ensures r.defaultShader == p.defaultShader && r.lastShader == p.lastShader && r.view == p.view &&
            r.defaultView == p.defaultView && r.height == p.height
    ensures r.currentShader == (if p.Legacy() then p.currentShader else EffectiveShader(states.shader, p.defaultShader))
    ensures var useCache := UseVertexCache(p.Legacy(), count, states.useVertexCache);
      var changed := ShaderChanged(p, states); var t := p.log.tally;
      r.log.tally == t.(transforms := t.transforms + Once(!useCache || !p.cache.useVertexCache),
                        views := t.views + Once(changed || p.cache.viewChanged),
                        blends := t.blends + Once(states.blendMode != p.cache.lastBlendMode),
                        textures := t.textures + Once(changed || TextureId(states.texture) != p.cache.lastTextureId),
                        shaders := t.shaders + Once(states.shader != null || !p.Legacy()),
                        buffers := t.buffers + Once(p.cache.lastVertexBufferId != 0))
    ensures var useCache := UseVertexCache(p.Legacy(), count, states.useVertexCache);
      r.log.lastTransform == (if !useCache then Some(states.transform)
                              else if !p.cache.useVertexCache then Some(Identity)
                              else p.log.lastTransform)
    ensures r.log.lastPointers == p.log.lastPointers && r.log.attributeSources == p.log.attributeSources
    ensures r.log.sinks <= p.log.sinks + {DrawSink(p, states)}
    ensures r.log.boundShader == (if states.shader != null then Some(states.shader)
                                  else if !p.Legacy() then Some(p.defaultShader) else p.log.boundShader)
    ensures r.log.boundBuffer == (if p.cache.lastVertexBufferId != 0 then Some(None) else p.log.boundBuffer)
    ensures r.log.textures == (if ShaderChanged(p, states) || TextureId(states.texture) != p.cache.lastTextureId
                               then p.log.textures[DrawSink(p, states) := states.texture] else p.log.textures)
    ensures r.log.blendMode == (if states.blendMode != p.cache.lastBlendMode then Some(states.blendMode) else p.log.blendMode)
  {
    ReleaseVertexBuffer(DrawStates(p, env, UseVertexCache(p.Legacy(), count, states.useVertexCache), states))
  }

  /**
   * The states a buffer draw applies before it submits: the current shader,
   * the transform, view, blend mode, texture and shader, and the buffer
   * itself unless it is already the bound one.
   */
  ghost function BufferSetup(p: Machine, env: Env, buffer: VertexBuffer, states: RenderStates): (r: Machine)
    ensures r.cache == p.cache.(viewChanged := false, lastBlendMode := states.blendMode,
                                lastTextureId := TextureId(states.texture), lastVertexBufferId := buffer.cacheId)
    ensures r.defaultShader == p.defaultShader && r.lastShader == p.lastShader && r.view == p.view &&
            r.defaultView == p.defaultView && r.height == p.height
    ensures r.currentShader == (if p.Legacy() then p.currentShader else EffectiveShader(states.shader, p.defaultShader))
    ensures var changed := ShaderChanged(p, states); var t := p.log.tally;
      r.log.tally == t.(transforms := t.transforms + 1,
                        views := t.views + Once(changed || p.cache.viewChanged),
                        blends := t.blends + Once(states.blendMode != p.cache.lastBlendMode),
                        textures := t.textures + Once(changed || TextureId(states.texture) != p.cache.lastTextureId),
                        shaders := t.shaders + Once(states.shader != null || !p.Legacy()),
                        buffers := t.buffers + Once(buffer.cacheId != p.cache.lastVertexBufferId))
    ensures r.log.lastTransform == Some(states.transform)
    ensures r.log.lastPointers == p.log.lastPointers && r.log.attributeSources == p.log.attributeSources
    ensures r.log.sinks <= p.log.sinks + {DrawSink(p, states)}
    ensures r.log.boundShader == (if states.shader != null then Some(states.shader)
                                  else if !p.Legacy() then Some(p.defaultShader) else p.log.boundShader)
    ensures r.log.boundBuffer == (if buffer.cacheId != p.cache.lastVertexBufferId then Some(Some(buffer))
                                  else p.log.boundBuffer)
    ensures r.log.textures == (if ShaderChanged(p, states) || TextureId(states.texture) != p.cache.lastTextureId
                               then p.log.textures[DrawSink(p, states) := states.texture] else p.log.textures)
    ensures r.log.blendMode == (if states.blendMode != p.cache.lastBlendMode then Some(states.blendMode) else p.log.blendMode)
  {
    AcquireVertexBuffer(DrawStates(p, env, false, states), buffer)
  }

  /**
   * Submission and the end of a draw: the pipeline's vertex pointers or
   * attributes, one draw call, then the shader bookkeeping. `pointers` is
   * where the fixed-function pointers go, if they are set; `positionSource`
   * and `source` are where the position attribute and the other attributes
   * point.
   */
  ghost function DrawSubmit(m: Machine, env: Env, states: RenderStates, primitive: PrimitiveType, count: nat,
                            pointers: Option<VertexSource>, positionSource: VertexSource, source: VertexSource): (r: Machine)
    ensures r.cache == m.cache
    ensures r.defaultShader == m.defaultShader && r.view == m.view && r.defaultView == m.defaultView && r.height == m.height
    ensures m.Legacy() ==> r.currentShader == m.currentShader && r.lastShader == m.lastShader
    ensures !m.Legacy() ==> r.lastShader == m.currentShader && r.currentShader == null
    ensures var t := m.log.tally;
      r.log.tally == t.(pointers := t.pointers + Once(m.Legacy() && pointers.Some?),
                        uniforms := t.uniforms + (if m.Legacy() then 0 else if env.lightingEnabled then 2 else 1),
                        lights := t.lights + (if !m.Legacy() && env.lightingEnabled then |env.enabledLights| else 0),
                        attributes := t.attributes + (if m.Legacy() then 0
                                                      else 2 * Declared(EffectiveShader(states.shader, m.defaultShader).locations)),
                        shaders := t.shaders + Once(m.Legacy() && states.shader != null),
                        draws := t.draws + 1)
    ensures r.log.lastTransform == m.log.lastTransform
    ensures r.log.lastPointers == (if m.Legacy() && pointers.Some? then pointers else m.log.lastPointers)
    ensures r.log.attributeSources ==
      if m.Legacy() then m.log.attributeSources
      else m.log.attributeSources + AttributeMemory(EffectiveShader(states.shader, m.defaultShader).locations, positionSource, source)
    ensures r.log.lastDraw == Some(DrawCall(primitive, count))
    ensures r.log.boundShader == (if m.Legacy() && states.shader != null then Some(null) else m.log.boundShader)
    ensures !m.Legacy() ==> r.log.lightCount == Some(if env.lightingEnabled then |env.enabledLights| else 0)
    ensures r.log.sinks == (if m.Legacy() then m.log.sinks else m.log.sinks + {DrawSink(m, states)})
    ensures r.log.SameBindings(m.log)
  {
    var m6 := if m.defaultShader == null then LegacySubmit(m, pointers, primitive, count)
              else ShaderSubmit(m, env, EffectiveShader(states.shader, m.defaultShader), positionSource, source, primitive, count);
    FinishDraw(m6, states)
  }

  /**
   * The submission of an array draw whose states are applied: pre-transformed
   * vertices from the vertex cache (whose pointers are set only when the
   * previous draw did not use it) or the caller's, then the pre-transform
   * flag recorded.
   */
  ghost function ArraySubmit(s: Machine, env: Env, count: nat, primitive: PrimitiveType, states: RenderStates,
                             useCache: bool, positionSource: VertexSource): Machine
  {
    var r := DrawSubmit(s, env, states, primitive, count, ArrayPointerSource(useCache, s.cache.useVertexCache),
                        positionSource, CallerArray);
    r.(cache := r.cache.(useVertexCache := useCache))
  }

  /**
   * An array draw once the persistent states are set: the states applied,
   * the vertices submitted (pre-transformed vertices from the vertex cache,
   * whose pointers are set only when the previous draw did not use it), and
   * the pre-transform flag recorded.
   */
  ghost function ArrayDrawPrepared(p: Machine, env: Env, count: nat, primitive: PrimitiveType,
                                   states: RenderStates, positionSource: VertexSource): (r: Machine)
  {
    ArraySubmit(ArraySetup(p, env, count, states), env, count, primitive, states,
                UseVertexCache(p.Legacy(), count, states.useVertexCache), positionSource)
  }

  /**
   * draw(vertices, vertexCount, type, states), with the memory the position
   * attribute is pointed at in the shader pipeline as a parameter: the
   * corrected draw passes the caller's vertices, the code as written passes
   * address 0.
   */
  ghost function ArrayDrawUsing(m: Machine, env: Env, hasVertices: bool, count: nat, primitive: PrimitiveType,
                                states: RenderStates, positionSource: VertexSource): (r: Machine)
    ensures !Submits(env.activated, hasVertices, count) ==> r == m
  {
    if !Submits(env.activated, hasVertices, count) then m
    else ArrayDrawPrepared(Prepare(m, env), env, count, primitive, states, positionSource)
  }

  /** draw(vertices, ...) with every attribute pointed at the caller's vertices. */
  ghost function ArrayDraw(m: Machine, env: Env, hasVertices: bool, count: nat, primitive: PrimitiveType,
                           states: RenderStates): Machine
  {
    ArrayDrawUsing(m, env, hasVertices, count, primitive, states, CallerArray)
  }

  /** draw(vertices, ...) as written: the position attribute pointer is 0 while no buffer is bound. */
  ghost function ArrayDrawAsWritten(m: Machine, env: Env, hasVertices: bool, count: nat, primitive: PrimitiveType,
                                    states: RenderStates): Machine
  {
    ArrayDrawUsing(m, env, hasVertices, count, primitive, states, NullAddress)
  }

  /** A buffer draw once the persistent states are set: the states applied, then the buffer's vertices submitted. */
  ghost function BufferDrawPrepared(p: Machine, env: Env, buffer: VertexBuffer, states: RenderStates): Machine
  {
    DrawSubmit(BufferSetup(p, env, buffer, states), env, states, buffer.primitiveType,
               buffer.vertexCount, Some(BoundBuffer), BoundBuffer, BoundBuffer)
  }

  /** draw(buffer, states) as written: the pre-transform cache flag is left as it was. */
  ghost function BufferDrawAsWritten(m: Machine, env: Env, buffer: VertexBuffer, states: RenderStates): (r: Machine)
    ensures !Submits(env.activated, true, buffer.vertexCount) ==> r == m
  {
    if !Submits(env.activated, true, buffer.vertexCount) then m
    else BufferDrawPrepared(Prepare(m, env), env, buffer, states)
  }

  /**
   * draw(buffer, states), corrected: the buffer draw replaces the transform and
   * the vertex pointers, so the next array draw may not reuse them.
   */
  ghost function BufferDraw(m: Machine, env: Env, buffer: VertexBuffer, states: RenderStates): (r: Machine)
    ensures !Submits(env.activated, true, buffer.vertexCount) ==> r == m
  {
    var r := BufferDrawAsWritten(m, env, buffer, states);
    if !Submits(env.activated, true, buffer.vertexCount) then r
    else r.(cache := r.cache.(useVertexCache := false))
  }
}
