/**
 * Three places where the draw code does not do what it evidently intends,
 * each shown on the code as written and checked against the corrected
 * definition the rest of the model uses.
 *
 * 1. The buffer draw sets new vertex pointers and a new transform but leaves
 *    the pre-transform flag `useVertexCache` set, so a following array draw
 *    of pre-transformed vertices believes the identity transform and the
 *    vertex-cache pointers are still in place.
 * 2. The shader-pipeline array draw points the position attribute at address
 *    0 instead of at the caller's vertices, while no vertex buffer is bound.
 * 3. resetGLStates gives "no texture" to one shader's uniforms and records
 *    texture identity 0, but keeps the shader of the previous draw as the
 *    last one. A following draw with that shader and no texture skips the
 *    texture applier while the shader still samples its old texture.
 */
module Findings {
  import opened Wrappers
  import opened Geometry
  import opened Resources
  import opened Device
  import opened Protocol
  import opened Draws

  /**
   * The promise behind reusing the vertex cache: while the cache flag is
   * set, the device holds the identity transform and pointers into the
   * vertex cache.
   */
  ghost predicate Coherent(m: Machine)
  {
    m.cache.useVertexCache ==> m.log.lastTransform == Some(Identity) && m.log.lastPointers == Some(VertexCacheArray)
  }

  /** A reset clears the cache flag, so it leaves a coherent machine. */
  lemma ResetCoherent(m: Machine, env: Env)
    requires Coherent(m)
    ensures Coherent(ResetGLStates(m, env)) && Coherent(Prepare(m, env))
  {
  }

  /**
   * From a coherent machine a legacy array draw draws what it was given: the
   * identity transform and the vertex cache for pre-transformed vertices,
   * the submission's transform and the caller's vertices otherwise. It
   * leaves the machine coherent, in either pipeline.
   */
  lemma ArrayDrawCoherent(m: Machine, env: Env, hasVertices: bool, count: nat, primitive: PrimitiveType,
                          states: RenderStates)
    requires Coherent(m)
    ensures var r := ArrayDraw(m, env, hasVertices, count, primitive, states);
      && Coherent(r)
      && (Submits(env.activated, hasVertices, count) && m.Legacy() ==>
            var useCache := UseVertexCache(true, count, states.useVertexCache);
            && r.log.lastTransform == Some(if useCache then Identity else states.transform)
            && r.log.lastPointers == Some(if useCache then VertexCacheArray else CallerArray))
  {
    if Submits(env.activated, hasVertices, count) {
      ResetCoherent(m, env);
      ArrayDrawState(m, env, count, primitive, states, CallerArray);
      ArrayDrawDevice(m, env, count, primitive, states, CallerArray);
    }
  }

  /** The corrected buffer draw clears the cache flag, so it leaves a coherent machine. */
  lemma BufferDrawCoherent(m: Machine, env: Env, buffer: VertexBuffer, states: RenderStates)
    requires Coherent(m)
    ensures Coherent(BufferDraw(m, env, buffer, states))
  {
    if Submits(env.activated, true, buffer.vertexCount) {
      BufferDrawState(m, env, buffer, states);
    }
  }

  /**
   * As written, a legacy buffer draw right after a draw from the vertex cache
   * breaks the promise: the flag stays set while the pointers go into the
   * bound buffer.
   */
  lemma BufferDrawAsWrittenIncoherent(m: Machine, env: Env, buffer: VertexBuffer, states: RenderStates)
    requires m.Legacy() && m.cache.glStatesSet && m.cache.useVertexCache
    requires Submits(env.activated, true, buffer.vertexCount)
    ensures !Coherent(BufferDrawAsWritten(m, env, buffer, states))
  {
    BufferDrawState(m, env, buffer, states);
    BufferDrawDevice(m, env, buffer, states);
  }

  /**
   * The failing sequence on the code as written: pre-transformed vertices,
   * then a vertex buffer, then pre-transformed vertices again. The last draw
   * issues neither the identity transform nor the vertex-cache pointers, so
   * it draws with the buffer's transform through pointers into a buffer it
   * has just unbound.
   */
  lemma StaleVertexCacheAfterBufferDraw(m: Machine, env: Env, buffer: VertexBuffer, bufferStates: RenderStates,
                                        count: nat, primitive: PrimitiveType, states: RenderStates)
    requires m.Legacy() && m.cache.glStatesSet && m.cache.useVertexCache
    requires Submits(env.activated, true, buffer.vertexCount) && Submits(env.activated, true, count)
    requires UseVertexCache(true, count, states.useVertexCache)
    ensures var b := BufferDrawAsWritten(m, env, buffer, bufferStates);
      var r := ArrayDraw(b, env, true, count, primitive, states);
      && r.cache.lastVertexBufferId == 0
      && r.log.lastPointers == Some(BoundBuffer)
      && r.log.lastTransform == Some(bufferStates.transform)
  {
    var b := BufferDrawAsWritten(m, env, buffer, bufferStates);
    BufferDrawState(m, env, buffer, bufferStates);
    BufferDrawDevice(m, env, buffer, bufferStates);
    ArrayDrawState(b, env, count, primitive, states, CallerArray);
    ArrayDrawDevice(b, env, count, primitive, states, CallerArray);
  }

  /**
   * The same sequence with the corrected buffer draw: the last draw draws
   * the vertex cache with the identity transform.
   */
  lemma VertexCacheAfterBufferDraw(m: Machine, env: Env, buffer: VertexBuffer, bufferStates: RenderStates,
                                   count: nat, primitive: PrimitiveType, states: RenderStates)
    requires m.Legacy() && Coherent(m)
    requires UseVertexCache(true, count, states.useVertexCache)
    ensures var b := BufferDraw(m, env, buffer, bufferStates);
      var r := ArrayDraw(b, env, true, count, primitive, states);
      Submits(env.activated, true, count) ==>
        r.log.lastPointers == Some(VertexCacheArray) && r.log.lastTransform == Some(Identity)
  {
    var b := BufferDraw(m, env, buffer, bufferStates);
    BufferDrawCoherent(m, env, buffer, bufferStates);
    if Submits(env.activated, true, buffer.vertexCount) {
      BufferDrawState(m, env, buffer, bufferStates);
    }
    ArrayDrawCoherent(b, env, true, count, primitive, states);
  }

  /**
   * As written, a shader-pipeline array draw with a shader that declares a
   * position attribute points that attribute at address 0.
   */
  lemma ArrayDrawAsWrittenNullPosition(m: Machine, env: Env, count: nat, primitive: PrimitiveType, states: RenderStates)
    requires !m.Legacy() && Submits(env.activated, true, count)
    requires EffectiveShader(states.shader, m.defaultShader).locations.position >= 0
    ensures NullAddress in ArrayDrawAsWritten(m, env, true, count, primitive, states).log.attributeSources
  {
    ArrayDrawDevice(m, env, count, primitive, states, NullAddress);
  }

  /** No shader attribute has ever been pointed at address 0. */
  ghost predicate NoNullAttribute(m: Machine)
  {
    NullAddress !in m.log.attributeSources
  }

  /**
   * The corrected array draw points attributes only at the caller's
   * vertices, so it never points one at address 0.
   */
  lemma ArrayDrawAvoidsNull(m: Machine, env: Env, hasVertices: bool, count: nat, primitive: PrimitiveType,
                            states: RenderStates)
    requires NoNullAttribute(m)
    ensures var r := ArrayDraw(m, env, hasVertices, count, primitive, states);
      NoNullAttribute(r) && r.log.attributeSources <= m.log.attributeSources + {CallerArray}
  {
    if Submits(env.activated, hasVertices, count) {
      ArrayDrawDevice(m, env, count, primitive, states, CallerArray);
    }
  }

  /** The buffer draw points attributes only into the bound buffer. */
  lemma BufferDrawAvoidsNull(m: Machine, env: Env, buffer: VertexBuffer, states: RenderStates)
    requires NoNullAttribute(m)
    ensures var r := BufferDraw(m, env, buffer, states);
      NoNullAttribute(r) && r.log.attributeSources <= m.log.attributeSources + {BoundBuffer}
  {
    if Submits(env.activated, true, buffer.vertexCount) {
      var p := Prepare(m, env);
      assert p.log.attributeSources == m.log.attributeSources;
      var s := BufferSetup(p, env, buffer, states);
      assert BufferDraw(m, env, buffer, states).log ==
        DrawSubmit(s, env, states, buffer.primitiveType, buffer.vertexCount, Some(BoundBuffer), BoundBuffer, BoundBuffer).log;
    }
  }

  /**
   * As written, resetGLStates after a shader-pipeline draw with shader A and
   * a texture leaves A as the last shader and A's texture in A's uniforms,
   * while the cache records no texture. The next draw with A and no texture
   * finds neither the shader nor the texture identity changed, binds no
   * texture, and A samples the old one.
   */
  lemma StaleShaderTextureAfterReset(m: Machine, env: Env, count: nat, primitive: PrimitiveType,
                                     states: RenderStates)
    requires CacheMatchesDevice(m) && Submits(env.activated, true, count)
    requires !m.Legacy() && m.currentShader == null && m.lastShader != null && m.lastShader != m.defaultShader
    requires TextureId(m.log.TextureOf(Uniforms(m.lastShader))) != 0
    requires states.shader == m.lastShader && states.texture == None
    ensures var s := ResetGLStatesAsWritten(m, env);
      var r := ArrayDraw(s, env, true, count, primitive, states);
      && !CacheMatchesDevice(s)
      && r.log.tally.textures == s.log.tally.textures
      && TextureId(r.log.TextureOf(DrawSink(s, states))) != TextureId(states.texture)
  {
    var s := ResetGLStatesAsWritten(m, env);
    assert s.log.TextureOf(Uniforms(m.lastShader)) == m.log.TextureOf(Uniforms(m.lastShader));
    assert Prepare(s, env) == s && !ShaderChanged(s, states);
    ArrayDrawAppliers(s, env, count, primitive, states, CallerArray);
    UnchangedTextures(s, env, count, primitive, states);
  }

  /** An array draw that runs no texture applier leaves every sink's texture as it was. */
  lemma UnchangedTextures(s: Machine, env: Env, count: nat, primitive: PrimitiveType, states: RenderStates)
    requires s.cache.glStatesSet && !ShaderChanged(s, states) && TextureId(states.texture) == s.cache.lastTextureId
    ensures ArrayDrawPrepared(s, env, count, primitive, states, CallerArray).log.textures == s.log.textures
  {
    assert ArraySetup(s, env, count, states).log.textures == s.log.textures;
  }

  /**
   * With the corrected reset, which forgets the last shader, the draw after
   * a reset leaves the submission's texture where it samples it, whichever
   * shader it uses.
   */
  lemma ShaderTextureAfterReset(m: Machine, env: Env, count: nat, primitive: PrimitiveType, states: RenderStates)
    requires CacheMatchesDevice(m) && Submits(env.activated, true, count)
    ensures var s := ResetGLStates(m, env);
      var r := ArrayDraw(s, env, true, count, primitive, states);
      && CacheMatchesDevice(s)
      && TextureId(r.log.TextureOf(DrawSink(s, states))) == TextureId(states.texture)
  {
    ResetGLStatesMatchesDevice(m, env);
    ArrayDrawTexture(ResetGLStates(m, env), env, count, primitive, states, CallerArray);
  }
}
