/**
 * What one draw does, stated against the machine after its opening reset
 * (`Prepare`): which appliers run, and what the cache, the shader pointers
 * and the device hold afterwards.
 */
module Draws {
  import opened Wrappers
  import opened Geometry
  import opened Resources
  import opened Device
  import opened Protocol

  /**
   * After an array draw the cache holds the submission's blend mode and
   * texture identity, no pending view change, no bound vertex buffer, and
   * whether the vertices were pre-transformed. In the shader pipeline the
   * shader used becomes the last one and none is current; the legacy
   * pipeline leaves both pointers alone.
   */
  lemma ArrayDrawState(m: Machine, env: Env, count: nat, primitive: PrimitiveType, states: RenderStates,
                       positionSource: VertexSource)
    requires Submits(env.activated, true, count)
    ensures var p := Prepare(m, env); var r := ArrayDrawUsing(m, env, true, count, primitive, states, positionSource);
      && r.cache == Cache(true, states.blendMode, TextureId(states.texture), 0, false,
                          UseVertexCache(m.Legacy(), count, states.useVertexCache))
      && r.defaultShader == m.defaultShader && r.view == p.view && r.defaultView == m.defaultView && r.height == m.height
      && (m.Legacy() ==> r.currentShader == m.currentShader && r.lastShader == p.lastShader)
      && (!m.Legacy() ==> r.lastShader == EffectiveShader(states.shader, m.defaultShader) && r.currentShader == null)
  {
  }

  /**
   * Which appliers an array draw runs after its opening reset: the view on a
   * shader or view change, the blend mode on a different mode, the texture
   * on a shader change or a different texture identity, the shader always in
   * the shader pipeline (and bound then unbound for an override in the legacy
   * one), the buffer unbind only when a buffer is bound, the transform unless
   * cached vertices are reused, the pointers unless the cache is reused, the
   * shader pipeline's uniforms and attributes, and one draw call.
   */
  lemma ArrayDrawAppliers(m: Machine, env: Env, count: nat, primitive: PrimitiveType, states: RenderStates,
                          positionSource: VertexSource)
    requires Submits(env.activated, true, count)
    ensures var p := Prepare(m, env); var t := p.log.tally;
      var r := ArrayDrawUsing(m, env, true, count, primitive, states, positionSource);
      var legacy := p.Legacy(); var changed := ShaderChanged(p, states);
      var useCache := UseVertexCache(legacy, count, states.useVertexCache);
      r.log.tally == t.(
        views := t.views + Once(changed || p.cache.viewChanged),
        blends := t.blends + Once(states.blendMode != p.cache.lastBlendMode),
        textures := t.textures + Once(changed || TextureId(states.texture) != p.cache.lastTextureId),
        shaders := t.shaders + Once(states.shader != null || !legacy) + Once(legacy && states.shader != null),
        buffers := t.buffers + Once(p.cache.lastVertexBufferId != 0),
        transforms := t.transforms + Once(!useCache || !p.cache.useVertexCache),
        pointers := t.pointers + Once(legacy && !(useCache && p.cache.useVertexCache)),
        uniforms := t.uniforms + (if legacy then 0 else if env.lightingEnabled then 2 else 1),
        lights := t.lights + (if !legacy && env.lightingEnabled then |env.enabledLights| else 0),
        attributes := t.attributes + (if legacy then 0 else 2 * Declared(EffectiveShader(states.shader, m.defaultShader).locations)),
        draws := t.draws + 1)
  {
    PreparedArrayDrawAppliers(Prepare(m, env), env, count, primitive, states, positionSource);
  }

  /** The appliers of an array draw, counted from the machine its opening reset leaves. */
  lemma PreparedArrayDrawAppliers(p: Machine, env: Env, count: nat, primitive: PrimitiveType, states: RenderStates,
                                  positionSource: VertexSource)
    ensures var t := p.log.tally;
      var r := ArrayDrawPrepared(p, env, count, primitive, states, positionSource);
      var legacy := p.Legacy(); var changed := ShaderChanged(p, states);
      var useCache := UseVertexCache(legacy, count, states.useVertexCache);
      r.log.tally == t.(
        views := t.views + Once(changed || p.cache.viewChanged),
        blends := t.blends + Once(states.blendMode != p.cache.lastBlendMode),
        textures := t.textures + Once(changed || TextureId(states.texture) != p.cache.lastTextureId),
        shaders := t.shaders + Once(states.shader != null || !legacy) + Once(legacy && states.shader != null),
        buffers := t.buffers + Once(p.cache.lastVertexBufferId != 0),
        transforms := t.transforms + Once(!useCache || !p.cache.useVertexCache),
        pointers := t.pointers + Once(legacy && !(useCache && p.cache.useVertexCache)),
        uniforms := t.uniforms + (if legacy then 0 else if env.lightingEnabled then 2 else 1),
        lights := t.lights + (if !legacy && env.lightingEnabled then |env.enabledLights| else 0),
        attributes := t.attributes + (if legacy then 0 else 2 * Declared(EffectiveShader(states.shader, p.defaultShader).locations)),
        draws := t.draws + 1)
  {
    var s := ArraySetup(p, env, count, states);
    ArraySubmitTally(s, env, count, primitive, states, UseVertexCache(p.Legacy(), count, states.useVertexCache),
                     positionSource);
  }

  /** The events the submission of an array draw adds, counted from the machine its states leave. */
  lemma ArraySubmitTally(s: Machine, env: Env, count: nat, primitive: PrimitiveType, states: RenderStates,
                         useCache: bool, positionSource: VertexSource)
    ensures var t := s.log.tally; var legacy := s.Legacy();
      ArraySubmit(s, env, count, primitive, states, useCache, positionSource).log.tally == t.(
        shaders := t.shaders + Once(legacy && states.shader != null),
        pointers := t.pointers + Once(legacy && !(useCache && s.cache.useVertexCache)),
        uniforms := t.uniforms + (if legacy then 0 else if env.lightingEnabled then 2 else 1),
        lights := t.lights + (if !legacy && env.lightingEnabled then |env.enabledLights| else 0),
        attributes := t.attributes + (if legacy then 0 else 2 * Declared(EffectiveShader(states.shader, s.defaultShader).locations)),
        draws := t.draws + 1)
  {
  }

  /**
   * Where an array draw leaves the device: in the legacy pipeline the
   * transform and the pointers of the vertices drawn (the caller's, or the
   * vertex cache, which both keep their previous setting when the cache is
   * reused); in the shader pipeline the attributes point at the position
   * source and the caller's vertices.
   */
  lemma ArrayDrawDevice(m: Machine, env: Env, count: nat, primitive: PrimitiveType, states: RenderStates,
                        positionSource: VertexSource)
    requires Submits(env.activated, true, count)
    ensures var p := Prepare(m, env); var r := ArrayDrawUsing(m, env, true, count, primitive, states, positionSource);
      var useCache := UseVertexCache(m.Legacy(), count, states.useVertexCache);
      && r.log.lastTransform == (if !useCache then Some(states.transform)
                                 else if !p.cache.useVertexCache then Some(Identity)
                                 else p.log.lastTransform)
      && r.log.lastPointers == (if !m.Legacy() then p.log.lastPointers
                                else if !useCache then Some(CallerArray)
                                else if !p.cache.useVertexCache then Some(VertexCacheArray)
                                else p.log.lastPointers)
      && r.log.attributeSources ==
           (if m.Legacy() then p.log.attributeSources
            else p.log.attributeSources + AttributeMemory(EffectiveShader(states.shader, m.defaultShader).locations,
                                                          positionSource, CallerArray))
  {
  }

  /**
   * After a buffer draw the cache holds the submission's blend mode and
   * texture identity, no pending view change and the buffer's identity; the
   * pre-transform flag is kept as written and cleared by the corrected draw.
   * The shader pointers move as in an array draw.
   */
  lemma BufferDrawState(m: Machine, env: Env, buffer: VertexBuffer, states: RenderStates)
    requires Submits(env.activated, true, buffer.vertexCount)
    ensures var p := Prepare(m, env); var r := BufferDrawAsWritten(m, env, buffer, states);
      && r.cache == Cache(true, states.blendMode, TextureId(states.texture), buffer.cacheId, false, p.cache.useVertexCache)
      && BufferDraw(m, env, buffer, states) == r.(cache := r.cache.(useVertexCache := false))
      && r.defaultShader == m.defaultShader && r.view == p.view && r.defaultView == m.defaultView && r.height == m.height
      && (m.Legacy() ==> r.currentShader == m.currentShader && r.lastShader == p.lastShader)
      && (!m.Legacy() ==> r.lastShader == EffectiveShader(states.shader, m.defaultShader) && r.currentShader == null)
  {
  }

  /**
   * Which appliers a buffer draw runs after its opening reset: the transform
   * always, view, blend mode, texture and shader as in an array draw, the
   * buffer bind only for a buffer other than the bound one, the pointers (legacy)
   * or uniforms and attributes (shader pipeline), and one draw call.
   */
  lemma BufferDrawAppliers(m: Machine, env: Env, buffer: VertexBuffer, states: RenderStates)
    requires Submits(env.activated, true, buffer.vertexCount)
    ensures var p := Prepare(m, env); var t := p.log.tally;
      var r := BufferDrawAsWritten(m, env, buffer, states);
      var legacy := p.Legacy(); var changed := ShaderChanged(p, states);
      r.log.tally == t.(
        views := t.views + Once(changed || p.cache.viewChanged),
        blends := t.blends + Once(states.blendMode != p.cache.lastBlendMode),
        textures := t.textures + Once(changed || TextureId(states.texture) != p.cache.lastTextureId),
        shaders := t.shaders + Once(states.shader != null || !legacy) + Once(legacy && states.shader != null),
        buffers := t.buffers + Once(buffer.cacheId != p.cache.lastVertexBufferId),
        transforms := t.transforms + 1,
        pointers := t.pointers + Once(legacy),
        uniforms := t.uniforms + (if legacy then 0 else if env.lightingEnabled then 2 else 1),
        lights := t.lights + (if !legacy && env.lightingEnabled then |env.enabledLights| else 0),
        attributes := t.attributes + (if legacy then 0 else 2 * Declared(EffectiveShader(states.shader, p.defaultShader).locations)),
        draws := t.draws + 1)
  {
    PreparedBufferDrawAppliers(Prepare(m, env), env, buffer, states);
  }

  /** The appliers of a buffer draw, counted from the machine its opening reset leaves. */
  lemma PreparedBufferDrawAppliers(p: Machine, env: Env, buffer: VertexBuffer, states: RenderStates)
    ensures var t := p.log.tally;
      var r := BufferDrawPrepared(p, env, buffer, states);
      var legacy := p.Legacy(); var changed := ShaderChanged(p, states);
      r.log.tally == t.(
        views := t.views + Once(changed || p.cache.viewChanged),
        blends := t.blends + Once(states.blendMode != p.cache.lastBlendMode),
        textures := t.textures + Once(changed || TextureId(states.texture) != p.cache.lastTextureId),
        shaders := t.shaders + Once(states.shader != null || !legacy) + Once(legacy && states.shader != null),
        buffers := t.buffers + Once(buffer.cacheId != p.cache.lastVertexBufferId),
        transforms := t.transforms + 1,
        pointers := t.pointers + Once(legacy),
        uniforms := t.uniforms + (if legacy then 0 else if env.lightingEnabled then 2 else 1),
        lights := t.lights + (if !legacy && env.lightingEnabled then |env.enabledLights| else 0),
        attributes := t.attributes + (if legacy then 0 else 2 * Declared(EffectiveShader(states.shader, p.defaultShader).locations)),
        draws := t.draws + 1)
  {
    var s := BufferSetup(p, env, buffer, states);
    assert s.Legacy() == p.Legacy() && s.defaultShader == p.defaultShader;
    assert BufferDrawPrepared(p, env, buffer, states) ==
      DrawSubmit(s, env, states, buffer.primitiveType, buffer.vertexCount, Some(BoundBuffer), BoundBuffer, BoundBuffer);
  }

  /**
   * Where a buffer draw leaves the device: the submission's transform, and
   * pointers or attributes into the bound buffer.
   */
  lemma BufferDrawDevice(m: Machine, env: Env, buffer: VertexBuffer, states: RenderStates)
    requires Submits(env.activated, true, buffer.vertexCount)
    ensures var p := Prepare(m, env); var r := BufferDrawAsWritten(m, env, buffer, states);
      && r.log.lastTransform == Some(states.transform)
      && r.log.lastPointers == (if m.Legacy() then Some(BoundBuffer) else p.log.lastPointers)
      && r.log.attributeSources ==
           (if m.Legacy() then p.log.attributeSources
            else p.log.attributeSources + AttributeMemory(EffectiveShader(states.shader, m.defaultShader).locations,
                                                          BoundBuffer, BoundBuffer))
  {
  }

  /**
   * What an array draw leaves bound and submitted: one draw call with the
   * submission's primitive type and vertex count; in the shader pipeline the
   * shader it used, with the light count of the lighting registry; in the
   * legacy pipeline no shader when the submission brought one.
   */
  lemma ArrayDrawBindings(m: Machine, env: Env, count: nat, primitive: PrimitiveType, states: RenderStates,
                          positionSource: VertexSource)
    requires Submits(env.activated, true, count)
    ensures var r := ArrayDrawUsing(m, env, true, count, primitive, states, positionSource);
      && r.log.lastDraw == Some(DrawCall(primitive, count))
      && (m.Legacy() && states.shader != null ==> r.log.boundShader == Some(null))
      && (!m.Legacy() ==> r.log.boundShader == Some(EffectiveShader(states.shader, m.defaultShader)))
      && (!m.Legacy() ==> r.log.lightCount == Some(if env.lightingEnabled then |env.enabledLights| else 0))
  {
  }

  /**
   * What a buffer draw leaves bound and submitted: one draw call with the
   * buffer's primitive type and vertex count, the buffer bound when it was
   * not already, and the shaders and light count as in an array draw.
   */
  lemma BufferDrawBindings(m: Machine, env: Env, buffer: VertexBuffer, states: RenderStates)
    requires Submits(env.activated, true, buffer.vertexCount)
    ensures var p := Prepare(m, env); var r := BufferDrawAsWritten(m, env, buffer, states);
      && r.log.lastDraw == Some(DrawCall(buffer.primitiveType, buffer.vertexCount))
      && r.log.boundBuffer == (if buffer.cacheId != p.cache.lastVertexBufferId then Some(Some(buffer)) else p.log.boundBuffer)
      && (m.Legacy() && states.shader != null ==> r.log.boundShader == Some(null))
      && (!m.Legacy() ==> r.log.boundShader == Some(EffectiveShader(states.shader, m.defaultShader)))
      && (!m.Legacy() ==> r.log.lightCount == Some(if env.lightingEnabled then |env.enabledLights| else 0))
  {
    PreparedBufferDrawBindings(Prepare(m, env), env, buffer, states);
  }

  /** The bindings of a buffer draw, from the machine its opening reset leaves. */
  lemma PreparedBufferDrawBindings(p: Machine, env: Env, buffer: VertexBuffer, states: RenderStates)
    ensures var r := BufferDrawPrepared(p, env, buffer, states);
      && r.log.lastDraw == Some(DrawCall(buffer.primitiveType, buffer.vertexCount))
      && r.log.boundBuffer == (if buffer.cacheId != p.cache.lastVertexBufferId then Some(Some(buffer)) else p.log.boundBuffer)
      && (p.Legacy() && states.shader != null ==> r.log.boundShader == Some(null))
      && (!p.Legacy() ==> r.log.boundShader == Some(EffectiveShader(states.shader, p.defaultShader)))
      && (!p.Legacy() ==> r.log.lightCount == Some(if env.lightingEnabled then |env.enabledLights| else 0))
  {
    var s := BufferSetup(p, env, buffer, states);
    assert s.defaultShader == p.defaultShader;
    assert BufferDrawPrepared(p, env, buffer, states) ==
      DrawSubmit(s, env, states, buffer.primitiveType, buffer.vertexCount, Some(BoundBuffer), BoundBuffer, BoundBuffer);
  }

  /**
   * Pipeline exclusivity: every view, transform, texture and lighting upload
   * the log names went to fixed-function state in the legacy pipeline and to
   * shader uniforms in the shader pipeline.
   */
  ghost predicate SinksMatchPipeline(m: Machine)
  {
    forall s :: s in m.log.sinks ==> (s.FixedFunction? <==> m.Legacy())
  }

  /** An array draw, corrected or as written, keeps every upload on its pipeline's side. */
  lemma {:induction false} ArrayDrawKeepsPipeline(m: Machine, env: Env, hasVertices: bool, count: nat,
                                                  primitive: PrimitiveType, states: RenderStates,
                                                  positionSource: VertexSource)
    requires SinksMatchPipeline(m)
    ensures SinksMatchPipeline(ArrayDrawUsing(m, env, hasVertices, count, primitive, states, positionSource))
  {
    if Submits(env.activated, hasVertices, count) {
      PrepareKeepsPipeline(m, env);
      PreparedArrayDrawKeepsPipeline(Prepare(m, env), env, count, primitive, states, positionSource);
    }
  }

  /** The opening reset keeps every upload on the pipeline's side. */
  lemma PrepareKeepsPipeline(m: Machine, env: Env)
    requires SinksMatchPipeline(m)
    ensures SinksMatchPipeline(Prepare(m, env))
  {
    assert SinkOf(m).FixedFunction? <==> m.Legacy();
  }

  /** An array draw on the machine its opening reset leaves keeps every upload on the pipeline's side. */
  lemma PreparedArrayDrawKeepsPipeline(p: Machine, env: Env, count: nat, primitive: PrimitiveType,
                                       states: RenderStates, positionSource: VertexSource)
    requires SinksMatchPipeline(p)
    ensures SinksMatchPipeline(ArrayDrawPrepared(p, env, count, primitive, states, positionSource))
  {
    ArraySetupKeepsPipeline(p, env, count, states);
    ArraySubmitKeepsPipeline(ArraySetup(p, env, count, states), env, count, primitive, states,
                             UseVertexCache(p.Legacy(), count, states.useVertexCache), positionSource);
  }

  /** The states an array draw applies go to the pipeline's own side. */
  lemma ArraySetupKeepsPipeline(p: Machine, env: Env, count: nat, states: RenderStates)
    requires SinksMatchPipeline(p)
    ensures SinksMatchPipeline(ArraySetup(p, env, count, states))
  {
    assert DrawSink(p, states).FixedFunction? <==> p.Legacy();
  }

  /** The submission of an array draw keeps every upload on the pipeline's side. */
  lemma ArraySubmitKeepsPipeline(s: Machine, env: Env, count: nat, primitive: PrimitiveType, states: RenderStates,
                                 useCache: bool, positionSource: VertexSource)
    requires SinksMatchPipeline(s)
    ensures SinksMatchPipeline(ArraySubmit(s, env, count, primitive, states, useCache, positionSource))
  {
    DrawSubmitKeepsPipeline(s, env, states, primitive, count, ArrayPointerSource(useCache, s.cache.useVertexCache),
                            positionSource, CallerArray);
  }

  /** The submission keeps every upload on the pipeline's side. */
  lemma DrawSubmitKeepsPipeline(s: Machine, env: Env, states: RenderStates, primitive: PrimitiveType, count: nat,
                                pointers: Option<VertexSource>, positionSource: VertexSource, source: VertexSource)
    requires SinksMatchPipeline(s)
    ensures SinksMatchPipeline(DrawSubmit(s, env, states, primitive, count, pointers, positionSource, source))
  {
    assert DrawSink(s, states).FixedFunction? <==> s.Legacy();
  }

  /** A buffer draw, corrected or as written, keeps every upload on its pipeline's side. */
  lemma {:induction false} BufferDrawKeepsPipeline(m: Machine, env: Env, buffer: VertexBuffer, states: RenderStates)
    requires SinksMatchPipeline(m)
    ensures SinksMatchPipeline(BufferDrawAsWritten(m, env, buffer, states))
    ensures SinksMatchPipeline(BufferDraw(m, env, buffer, states))
  {
    if Submits(env.activated, true, buffer.vertexCount) {
      PrepareKeepsPipeline(m, env);
      var p := Prepare(m, env);
      var s := BufferSetup(p, env, buffer, states);
      assert DrawSink(p, states).FixedFunction? <==> p.Legacy();
      assert SinksMatchPipeline(s);
      DrawSubmitKeepsPipeline(s, env, states, buffer.primitiveType, buffer.vertexCount,
                              Some(BoundBuffer), BoundBuffer, BoundBuffer);
    }
  }

  /**
   * The sink whose texture the cached texture identity describes:
   * fixed-function texturing in the legacy pipeline; in the shader pipeline
   * the uniforms of the shader the previous draw used, which is the only
   * shader a draw can find unchanged (none before the first draw).
   */
  function CachedTextureSink(m: Machine): Option<Sink>
  {
    if m.Legacy() then Some(FixedFunction)
    else if m.lastShader != null then Some(Uniforms(m.lastShader))
    else None
  }

  /**
   * The states cache agrees with the device: once the persistent states are
   * set, the cached blend mode is the one last issued and the cached texture
   * identity is that of the texture the cached sink samples; the cached
   * vertex-buffer identity is that of the buffer last bound (0 when none was).
   */
  ghost predicate CacheMatchesDevice(m: Machine)
  {
    && (m.cache.glStatesSet ==> m.log.blendMode == Some(m.cache.lastBlendMode))
    && (m.cache.glStatesSet && CachedTextureSink(m).Some? ==>
          TextureId(m.log.TextureOf(CachedTextureSink(m).value)) == m.cache.lastTextureId)
    && VertexBufferId(if m.log.boundBuffer.Some? then m.log.boundBuffer.value else None) == m.cache.lastVertexBufferId
  }

  /** Initialization keeps the cache in agreement with the device: the states are marked unset. */
  lemma InitializeMatchesDevice(m: Machine, width: nat, defaultShader: Shader?)
    requires CacheMatchesDevice(m)
    ensures CacheMatchesDevice(Initialize(m, width, defaultShader))
  {
  }

  /**
   * resetGLStates keeps the cache in agreement with the device: fixed-function
   * texturing is given no texture, and the shader pipeline forgets its last
   * shader.
   */
  lemma ResetGLStatesMatchesDevice(m: Machine, env: Env)
    requires CacheMatchesDevice(m)
    ensures CacheMatchesDevice(ResetGLStates(m, env))
  {
    if env.activated {
      assert m.Legacy() ==> SinkOf(m) == FixedFunction;
    }
  }

  /** The opening reset of a draw keeps the cache in agreement with the device. */
  lemma PrepareMatchesDevice(m: Machine, env: Env)
    requires CacheMatchesDevice(m)
    ensures CacheMatchesDevice(Prepare(m, env))
  {
    if !m.cache.glStatesSet {
      ResetGLStatesMatchesDevice(m, env);
    }
  }

  /**
   * Whatever appliers it skips, an array draw leaves the submission's texture
   * (by identity) where the draw samples it: in fixed-function texturing, or
   * in the uniforms of the shader it used.
   */
  lemma {:induction false} ArrayDrawTexture(m: Machine, env: Env, count: nat, primitive: PrimitiveType,
                                            states: RenderStates, positionSource: VertexSource)
    requires CacheMatchesDevice(m) && Submits(env.activated, true, count)
    ensures var r := ArrayDrawUsing(m, env, true, count, primitive, states, positionSource);
      TextureId(r.log.TextureOf(DrawSink(m, states))) == TextureId(states.texture)
  {
    PrepareMatchesDevice(m, env);
    PreparedArrayDrawTexture(Prepare(m, env), env, count, primitive, states, positionSource);
  }

  /** The same, from the machine the opening reset leaves. */
  lemma PreparedArrayDrawTexture(p: Machine, env: Env, count: nat, primitive: PrimitiveType,
                                 states: RenderStates, positionSource: VertexSource)
    requires CacheMatchesDevice(p) && p.cache.glStatesSet
    ensures var r := ArrayDrawPrepared(p, env, count, primitive, states, positionSource);
      TextureId(r.log.TextureOf(DrawSink(p, states))) == TextureId(states.texture)
  {
    var s := ArraySetup(p, env, count, states);
    if !ShaderChanged(p, states) && TextureId(states.texture) == p.cache.lastTextureId {
      SkippedTextureHeld(p, states);
    }
    assert s.defaultShader == p.defaultShader;
  }

  /**
   * When a draw skips the texture applier, the sink it samples from already
   * holds a texture with the submission's identity.
   */
  lemma SkippedTextureHeld(p: Machine, states: RenderStates)
    requires CacheMatchesDevice(p) && p.cache.glStatesSet
    requires !ShaderChanged(p, states) && TextureId(states.texture) == p.cache.lastTextureId
    ensures TextureId(p.log.TextureOf(DrawSink(p, states))) == TextureId(states.texture)
  {
    assert CachedTextureSink(p) == Some(DrawSink(p, states));
  }

  /** A buffer draw, corrected or as written, leaves the submission's texture where the draw samples it. */
  lemma {:induction false} BufferDrawTexture(m: Machine, env: Env, buffer: VertexBuffer, states: RenderStates)
    requires CacheMatchesDevice(m) && Submits(env.activated, true, buffer.vertexCount)
    ensures TextureId(BufferDrawAsWritten(m, env, buffer, states).log.TextureOf(DrawSink(m, states))) == TextureId(states.texture)
    ensures TextureId(BufferDraw(m, env, buffer, states).log.TextureOf(DrawSink(m, states))) == TextureId(states.texture)
  {
    PrepareMatchesDevice(m, env);
    var p := Prepare(m, env);
    PreparedBufferDrawTexture(p, env, buffer, states);
    assert BufferDraw(m, env, buffer, states).log == BufferDrawAsWritten(m, env, buffer, states).log;
  }

  /** The same, from the machine the opening reset leaves. */
  lemma PreparedBufferDrawTexture(p: Machine, env: Env, buffer: VertexBuffer, states: RenderStates)
    requires CacheMatchesDevice(p) && p.cache.glStatesSet
    ensures TextureId(BufferDrawPrepared(p, env, buffer, states).log.TextureOf(DrawSink(p, states))) == TextureId(states.texture)
  {
    var s := BufferSetup(p, env, buffer, states);
    if !ShaderChanged(p, states) && TextureId(states.texture) == p.cache.lastTextureId {
      SkippedTextureHeld(p, states);
    }
    assert s.defaultShader == p.defaultShader;
    assert BufferDrawPrepared(p, env, buffer, states) ==
      DrawSubmit(s, env, states, buffer.primitiveType, buffer.vertexCount, Some(BoundBuffer), BoundBuffer, BoundBuffer);
  }

  /**
   * An array draw keeps the cache in agreement with the device, so the
   * appliers it skips would only have re-issued what the device holds for
   * the sink the draw uses.
   */
  lemma {:induction false} ArrayDrawMatchesDevice(m: Machine, env: Env, hasVertices: bool, count: nat,
                                                  primitive: PrimitiveType, states: RenderStates,
                                                  positionSource: VertexSource)
    requires CacheMatchesDevice(m)
    ensures CacheMatchesDevice(ArrayDrawUsing(m, env, hasVertices, count, primitive, states, positionSource))
  {
    if Submits(env.activated, hasVertices, count) {
      PrepareMatchesDevice(m, env);
      ArrayDrawTexture(m, env, count, primitive, states, positionSource);
      ArrayDrawState(m, env, count, primitive, states, positionSource);
    }
  }

  /** A buffer draw, corrected or as written, keeps the cache in agreement with the device. */
  lemma {:induction false} BufferDrawMatchesDevice(m: Machine, env: Env, buffer: VertexBuffer, states: RenderStates)
    requires CacheMatchesDevice(m)
    ensures CacheMatchesDevice(BufferDrawAsWritten(m, env, buffer, states))
    ensures CacheMatchesDevice(BufferDraw(m, env, buffer, states))
  {
    if Submits(env.activated, true, buffer.vertexCount) {
      PrepareMatchesDevice(m, env);
      BufferDrawTexture(m, env, buffer, states);
      BufferDrawState(m, env, buffer, states);
    }
  }

  /**
   * The first draw after initialization runs the reset: it is counted once,
   * and the draw then finds the persistent states set.
   */
  lemma FirstDrawResets(m: Machine, width: nat, defaultShader: Shader?, env: Env, count: nat,
                        primitive: PrimitiveType, states: RenderStates)
    requires Submits(env.activated, true, count)
    ensures var i := Initialize(m, width, defaultShader); var r := ArrayDraw(i, env, true, count, primitive, states);
      && Prepare(i, env).log.tally.resets == m.log.tally.resets + 1
      && Prepare(i, env).cache.lastBlendMode == BlendAlpha
      && r.log.tally.resets == m.log.tally.resets + 1
      && r.cache.glStatesSet
  {
    var i := Initialize(m, width, defaultShader);
    ArrayDrawState(i, env, count, primitive, states, CallerArray);
    ArrayDrawAppliers(i, env, count, primitive, states, CallerArray);
  }
}
