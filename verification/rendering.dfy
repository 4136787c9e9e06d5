/**
 * The render target as an object: the states cache, the shader pointers,
 * the views and the pre-transform vertex cache are fields that its methods
 * update step by step, and every method is proved to take the target from
 * `Model()` to the machine that the matching function of module Protocol
 * computes. The device is seen only through the ghost log.
 */
module Rendering {
  import opened Wrappers
  import opened Geometry
  import opened Resources
  import opened Device
  import opened Protocol

  class RenderTarget {
    /** The target's size in pixels. */
    const width: nat
    const height: nat

    // The states cache.
    var glStatesSet: bool
    var lastBlendMode: BlendMode
    var lastTextureId: nat
    var lastVertexBufferId: nat
    var viewChanged: bool
    var useVertexCache: bool
    /** Pre-transformed copies of the vertices of the last small array draw. */
    const vertexCache: array<Vertex>

    /** The default shader: null selects the legacy fixed-function pipeline. */
    var defaultShader: Shader?
    /** The shader of the draw in progress (shader pipeline only). */
    var currentShader: Shader?
    /** The shader of the previous draw (shader pipeline only). */
    var lastShader: Shader?
    var view: View
    var defaultView: View

    /** What was issued to the device so far. */
    ghost var log: Log

    /**
     * The vertex cache holds VertexCacheSize vertices. It reads no mutable
     * state (the array and its length are fixed), so it holds from the
     * constructor on across every method.
     */
    ghost predicate Valid()
    {
      vertexCache.Length == VertexCacheSize
    }

    /** The target's tracked state as a machine of module Protocol. */
    ghost function Model(): Machine
      reads this
    {
      Machine(Cache(glStatesSet, lastBlendMode, lastTextureId, lastVertexBufferId, viewChanged, useVertexCache),
              defaultShader, currentShader, lastShader, view, defaultView, height, log)
    }

    /**
     * A new target: persistent states not set, legacy pipeline until
     * initialization, both views covering the whole target.
     */
    constructor (width: nat, height: nat)
      ensures Valid() && fresh(vertexCache)
      ensures this.width == width && this.height == height
      ensures Model() == Machine(Cache(false, BlendAlpha, 0, 0, false, false), null, null, null,
                                 FullView(width, height), FullView(width, height), height, EmptyLog)
    {
      this.width := width;
      this.height := height;
      glStatesSet := false;
      lastBlendMode := BlendAlpha;
      lastTextureId := 0;
      lastVertexBufferId := 0;
      viewChanged := false;
      useVertexCache := false;
      vertexCache := new Vertex[VertexCacheSize](_ => Vertex(Vec3(0.0, 0.0, 0.0), Color(0, 0, 0, 0), Vec2(0.0, 0.0), Vec3(0.0, 0.0, 0.0)));
      defaultShader := null;
      currentShader := null;
      lastShader := null;
      view := FullView(width, height);
      defaultView := FullView(width, height);
      log := EmptyLog;
    }

    /**
     * setupNonLegacyPipeline: keeps a freshly built default shader only when
     * shader lighting is supported, the supported version is above 1.29 (a
     * legacy build reads it as 0) and the default program compiles.
     */
    method SetupNonLegacyPipeline(probe: PipelineProbe, locations: AttributeLocations)
      modifies this
      ensures defaultShader != null <==> ShaderPipelineSelected(probe)
      ensures defaultShader != null ==> fresh(defaultShader) && defaultShader.locations == locations
      ensures Model() == old(Model()).(defaultShader := defaultShader)
    {
      defaultShader := null;
      if !probe.hasShaderLighting {
        return;
      }
      var versionNumber := probe.supportedVersion;
      if probe.legacyBuild {
        versionNumber := 0.0;
      }
      if versionNumber > 1.29 {
        defaultShader := new Shader(locations, true);
        if !probe.defaultShaderCompiles {
          defaultShader := null;
        }
      }
    }

    /** initialize: both views cover the target, the persistent states are marked unset, the pipeline is chosen. */
    method Initialize(probe: PipelineProbe, locations: AttributeLocations)
      modifies this
      ensures Model() == Protocol.Initialize(old(Model()), width, defaultShader)
      ensures defaultShader != null <==> ShaderPipelineSelected(probe)
      ensures defaultShader != null ==> fresh(defaultShader) && defaultShader.locations == locations
    {
      defaultView := FullView(width, height);
      view := defaultView;
      glStatesSet := false;
      SetupNonLegacyPipeline(probe, locations);
    }

    /** Where uniform-carried state goes: the current shader, else the default one, or fixed-function state. */
    method Sink() returns (sink: Sink)
      ensures sink == SinkOf(Model())
    {
      if defaultShader == null {
        sink := FixedFunction;
      } else if currentShader != null {
        sink := Uniforms(currentShader);
      } else {
        sink := Uniforms(defaultShader);
      }
    }

    /** applyCurrentView: the flipped viewport and the projection, then no pending view change. */
    method ApplyCurrentView()
      modifies this
      ensures Model() == Protocol.ApplyCurrentView(old(Model()))
    {
      var viewport := view.viewport;
      var top := height - (viewport.top + viewport.height);
      var sink := Sink();
      log := log.Record(SetViewport(IntRect(viewport.left, top, viewport.width, viewport.height), sink));
      viewChanged := false;
    }

    /** applyBlendMode: the blend function for `mode`, which the cache then records. */
    method ApplyBlendMode(mode: BlendMode)
      modifies this
      ensures Model() == Protocol.ApplyBlendMode(old(Model()), mode)
    {
      log := log.Record(SetBlendFunc(mode));
      lastBlendMode := mode;
    }

    /** applyTransform: the model matrix, with the normal matrix when the shader pipeline lights. */
    method ApplyTransform(transform: Transform, env: Env)
      modifies this
      ensures Model() == Protocol.ApplyTransform(old(Model()), transform, env)
    {
      var sink := Sink();
      log := log.Record(LoadTransform(transform, sink, defaultShader != null && env.lightingEnabled));
    }

    /** applyTexture: binds the texture (or none) and records its cache identity, 0 for none. */
    method ApplyTexture(texture: Option<Texture>)
      modifies this
      ensures Model() == Protocol.ApplyTexture(old(Model()), texture)
    {
      var sink := Sink();
      log := log.Record(BindTexture(texture, sink));
      lastTextureId := TextureId(texture);
    }

    /** applyShader: binds the shader, or unbinds for null. */
    method ApplyShader(shader: Shader?)
      modifies this
      ensures Model() == Protocol.ApplyShader(old(Model()), shader)
    {
      log := log.Record(BindShader(shader));
    }

    /** applyVertexBuffer: binds the buffer (or none) and records its cache identity, 0 for none. */
    method ApplyVertexBuffer(buffer: Option<VertexBuffer>)
      modifies this
      ensures Model() == Protocol.ApplyVertexBuffer(old(Model()), buffer)
    {
      log := log.Record(BindVertexBuffer(buffer));
      lastVertexBufferId := VertexBufferId(buffer);
    }

    /** The first half of resetGLStates: device defaults, blend mode Alpha, identity transform, no texture. */
    method ResetDefaultStates(env: Env)
      modifies this
      ensures Model() == Protocol.ResetDefaultStates(old(Model()), env)
    {
      log := log.Record(ResetDefaults(defaultShader == null));
      glStatesSet := true;
      ApplyBlendMode(BlendAlpha);
      ApplyTransform(Identity, env);
      ApplyTexture(None);
    }

    /** The pipeline's shader where shaders exist, no vertex buffer where vertex buffers exist. */
    method ResetBindings(env: Env)
      modifies this
      ensures Model() == Protocol.ResetBindings(old(Model()), env)
    {
      if env.shaderAvailable {
        if defaultShader == null {
          ApplyShader(null);
        } else {
          ApplyShader(defaultShader);
        }
      }
      if env.vertexBufferAvailable {
        ApplyVertexBuffer(None);
      }
    }

    /** No pre-transformed vertices, then setView(defaultView). */
    method ResetView(env: Env)
      modifies this
      ensures Model() == Protocol.ResetView(old(Model()), env)
    {
      useVertexCache := false;
      log := log.Record(SetView(defaultView));
      view := defaultView;
      viewChanged := env.viewChangedBySetView;
    }

    /**
     * resetGLStates, corrected: device defaults, blend mode Alpha, identity
     * transform, no texture, the pipeline's shader and no vertex buffer where
     * those exist, no pre-transformed vertices, the default view, and no
     * last shader.
     */
    method ResetGLStates(env: Env)
      modifies this
      ensures Model() == Protocol.ResetGLStates(old(Model()), env)
    {
      if !env.activated {
        return;
      }
      ResetDefaultStates(env);
      ResetBindings(env);
      ResetView(env);
      lastShader := null;
    }

    /** The reset a draw runs first when the persistent states are not set. */
    method Prepare(env: Env)
      modifies this
      ensures Model() == Protocol.Prepare(old(Model()), env)
    {
      if !glStatesSet {
        ResetGLStates(env);
      }
    }

    /**
     * Makes the submission's shader (or the default one) current in the
     * shader pipeline, silencing an override's missing-uniform warnings.
     * Returns whether it differs from the previous draw's shader and the
     * override's previous warning setting (true when there is none).
     */
    method ResolveShader(states: RenderStates) returns (shaderChanged: bool, previousWarn: bool)
      modifies this, states.shader
      ensures Model() == Protocol.ResolveShader(old(Model()), states)
      ensures shaderChanged == ShaderChanged(old(Model()), states)
      ensures states.shader != null && defaultShader != null ==>
                previousWarn == old(states.shader.warnMissing) && !states.shader.warnMissing
      ensures states.shader == null || defaultShader == null ==> previousWarn
      ensures states.shader != null && defaultShader == null ==> unchanged(states.shader)
    {
      shaderChanged := false;
      previousWarn := true;
      if defaultShader != null {
        if states.shader != null {
          currentShader := states.shader;
          previousWarn := states.shader.WarnMissing(false);
        } else {
          currentShader := defaultShader;
        }
        shaderChanged := currentShader != lastShader;
      }
    }

    /**
     * Fills the first `count` entries of the vertex cache with `vertices`
     * moved by `transform`, colors, texture coordinates and normals kept;
     * the other entries keep what they held.
     */
    method PreTransform(vertices: array<Vertex>, count: nat, transform: Transform)
      requires Valid() && count <= VertexCacheSize && count <= vertices.Length && vertices != vertexCache
      modifies vertexCache
      ensures forall i :: 0 <= i < count ==> vertexCache[i] == PreTransformed(transform, vertices[i])
      ensures forall i :: count <= i < vertexCache.Length ==> vertexCache[i] == old(vertexCache[i])
    {
      for i := 0 to count
        invariant forall j :: 0 <= j < i ==> vertexCache[j] == PreTransformed(transform, vertices[j])
        invariant forall j :: i <= j < vertexCache.Length ==> vertexCache[j] == old(vertexCache[j])
      {
        var source := vertices[i];
        vertexCache[i] := Vertex(Apply(transform, source.position), source.color, source.texCoords, source.normal);
      }
    }

    /** The array draw's transform: the submission's, or the identity for cached vertices unless already set. */
    method ApplyDrawTransform(env: Env, useCache: bool, states: RenderStates)
      modifies this
      ensures Model() == Protocol.ApplyDrawTransform(old(Model()), env, useCache, states)
    {
      if useCache {
        if !useVertexCache {
          ApplyTransform(Identity, env);
        }
      } else {
        ApplyTransform(states.transform, env);
      }
    }

    /** View, blend mode, texture and shader, each applier run only when its trigger holds. */
    method ApplyRenderStates(states: RenderStates, shaderChanged: bool)
      modifies this
      ensures Model() == Protocol.ApplyRenderStates(old(Model()), states, shaderChanged)
    {
      ghost var m0 := Model();
      if shaderChanged || viewChanged {
        ApplyCurrentView();
      }
      if states.blendMode != lastBlendMode {
        ApplyBlendMode(states.blendMode);
      }
      assert Model() == ApplyViewAndBlend(m0, states, shaderChanged);
      var textureId := TextureId(states.texture);
      if shaderChanged || textureId != lastTextureId {
        ApplyTexture(states.texture);
      }
      if states.shader != null {
        ApplyShader(states.shader);
      } else if defaultShader != null {
        ApplyShader(defaultShader);
      }
    }

    /** Unbinds the vertex buffer unless the cache says none is bound. */
    method ReleaseVertexBuffer()
      modifies this
      ensures Model() == Protocol.ReleaseVertexBuffer(old(Model()))
    {
      if lastVertexBufferId != 0 {
        ApplyVertexBuffer(None);
      }
    }

    /** Fixed-function submission: the pointers, if given, then the draw call. */
    method LegacySubmit(source: Option<VertexSource>, primitive: PrimitiveType, count: nat)
      modifies this
      ensures Model() == Protocol.LegacySubmit(old(Model()), source, primitive, count)
    {
      if source.Some? {
        log := log.Record(SetPointers(source.value));
      }
      log := log.Record(DrawArrays(primitive, count));
    }

    /** One light-parameter upload per enabled light, in order. */
    method UploadLights(target: Shader, lights: seq<LightId>)
      modifies this
      ensures Model() == Protocol.UploadLights(old(Model()), target, lights)
    {
      ghost var m0 := Model();
      for i := 0 to |lights|
        invariant Model() == Protocol.UploadLights(m0, target, lights[..i])
      {
        assert lights[..i + 1][..i] == lights[..i];
        log := log.Record(AddLight(target, lights[i]));
      }
      assert lights[..|lights|] == lights;
    }

    /** The light count, the lights and the viewer position; or a light count of zero. */
    method LightingUniforms(env: Env, target: Shader)
      modifies this
      ensures Model() == Protocol.LightingUniforms(old(Model()), env, target)
    {
      if env.lightingEnabled {
        log := log.Record(SetLightCount(target, |env.enabledLights|));
        UploadLights(target, env.enabledLights);
        log := log.Record(SetViewerPosition(target));
      } else {
        log := log.Record(SetLightCount(target, 0));
      }
    }

    /** Enables and points every attribute the shader declares, position first. */
    method EnableAttributes(locations: AttributeLocations, positionSource: VertexSource, source: VertexSource)
      modifies this
      ensures Model() == Protocol.EnableAttributes(old(Model()), locations, positionSource, source)
    {
      if locations.position >= 0 {
        log := log.Record(EnableAttribute(locations.position, positionSource, PositionOffset));
      }
      if locations.color >= 0 {
        log := log.Record(EnableAttribute(locations.color, source, ColorOffset));
      }
      if locations.texCoords >= 0 {
        log := log.Record(EnableAttribute(locations.texCoords, source, TexCoordsOffset));
      }
      if locations.normal >= 0 {
        log := log.Record(EnableAttribute(locations.normal, source, NormalOffset));
      }
    }

    /** Disables every attribute the shader declares. */
    method DisableAttributes(locations: AttributeLocations)
      modifies this
      ensures Model() == Protocol.DisableAttributes(old(Model()), locations)
    {
      if locations.position >= 0 {
        log := log.Record(DisableAttribute(locations.position));
      }
      if locations.color >= 0 {
        log := log.Record(DisableAttribute(locations.color));
      }
      if locations.texCoords >= 0 {
        log := log.Record(DisableAttribute(locations.texCoords));
      }
      if locations.normal >= 0 {
        log := log.Record(DisableAttribute(locations.normal));
      }
    }

    /** Shader-pipeline submission: lighting uniforms, attributes, the draw call, attributes off. */
    method ShaderSubmit(env: Env, target: Shader, positionSource: VertexSource, source: VertexSource,
                        primitive: PrimitiveType, count: nat)
      modifies this
      ensures Model() == Protocol.ShaderSubmit(old(Model()), env, target, positionSource, source, primitive, count)
    {
      LightingUniforms(env, target);
      EnableAttributes(target.locations, positionSource, source);
      log := log.Record(DrawArrays(primitive, count));
      DisableAttributes(target.locations);
    }

    /**
     * The end of a draw: the legacy pipeline unbinds an override shader; the
     * shader pipeline gives an override back its warning setting, remembers
     * the shader used and forgets the current one.
     */
    method FinishDraw(states: RenderStates, previousWarn: bool)
      modifies this, states.shader
      ensures Model() == Protocol.FinishDraw(old(Model()), states)
      ensures states.shader != null && defaultShader != null ==> states.shader.warnMissing == previousWarn
      ensures states.shader != null && defaultShader == null ==> unchanged(states.shader)
    {
      if states.shader != null && defaultShader == null {
        ApplyShader(null);
      }
      if defaultShader != null {
        if states.shader != null {
          var _ := states.shader.WarnMissing(previousWarn);
        }
        lastShader := currentShader;
        currentShader := null;
      }
    }

    /**
     * The states an array draw applies before it submits, pre-transforming
     * the vertices into the vertex cache when they are few enough for it.
     * Returns the override's previous warning setting.
     */
    method ArraySetup(vertices: array<Vertex>, vertexCount: nat, states: RenderStates, env: Env)
      returns (previousWarn: bool)
      requires Valid() && vertexCount <= vertices.Length && vertices != vertexCache
      modifies this, vertexCache, states.shader
      ensures Model() == Protocol.ArraySetup(old(Model()), env, vertexCount, states)
      ensures states.shader != null && defaultShader != null ==>
                previousWarn == old(states.shader.warnMissing) && !states.shader.warnMissing
      ensures states.shader == null || defaultShader == null ==> previousWarn
      ensures states.shader != null && defaultShader == null ==> unchanged(states.shader)
      ensures UseVertexCache(old(defaultShader) == null, vertexCount, states.useVertexCache) ==>
                && (forall i :: 0 <= i < vertexCount ==> vertexCache[i] == PreTransformed(states.transform, vertices[i]))
                && (forall i :: vertexCount <= i < vertexCache.Length ==> vertexCache[i] == old(vertexCache[i]))
      ensures !UseVertexCache(old(defaultShader) == null, vertexCount, states.useVertexCache) ==> unchanged(vertexCache)
    {
      var shaderChanged;
      shaderChanged, previousWarn := ResolveShader(states);
      var useCache := defaultShader == null && vertexCount <= VertexCacheSize && states.useVertexCache;
      if useCache {
        PreTransform(vertices, vertexCount, states.transform);
      }
      ApplyDrawTransform(env, useCache, states);
      ApplyRenderStates(states, shaderChanged);
      ReleaseVertexBuffer();
    }

    /**
     * Submission and the end of a draw: the fixed-function `pointers`, if
     * given, or the shader's attributes, one draw call, then the shader
     * bookkeeping.
     */
    method DrawSubmit(env: Env, states: RenderStates, previousWarn: bool, primitive: PrimitiveType, count: nat,
                      pointers: Option<VertexSource>, positionSource: VertexSource, source: VertexSource)
      requires defaultShader != null ==> currentShader == EffectiveShader(states.shader, defaultShader)
      modifies this, states.shader
      ensures Model() == Protocol.DrawSubmit(old(Model()), env, states, primitive, count, pointers, positionSource, source)
      ensures states.shader != null && defaultShader != null ==> states.shader.warnMissing == previousWarn
      ensures states.shader != null && defaultShader == null ==> unchanged(states.shader)
    {
      ghost var m0 := Model();
      if defaultShader == null {
        LegacySubmit(pointers, primitive, count);
      } else {
        ShaderSubmit(env, currentShader, positionSource, source, primitive, count);
      }
      ghost var m1 := Model();
      assert m1 == if m0.defaultShader == null then Protocol.LegacySubmit(m0, pointers, primitive, count)
                   else Protocol.ShaderSubmit(m0, env, EffectiveShader(states.shader, m0.defaultShader),
                                              positionSource, source, primitive, count);
      FinishDraw(states, previousWarn);
      assert Model() == Protocol.FinishDraw(m1, states);
    }

    /**
     * The submission of an array draw: pointers at the vertex cache (unless
     * already set) or at the caller's vertices, then the pre-transform flag.
     */
    method ArraySubmit(env: Env, states: RenderStates, previousWarn: bool, primitive: PrimitiveType, count: nat,
                       useCache: bool)
      requires defaultShader != null ==> currentShader == EffectiveShader(states.shader, defaultShader)
      modifies this, states.shader
      ensures Model() == Protocol.ArraySubmit(old(Model()), env, count, primitive, states, useCache, CallerArray)
      ensures states.shader != null && defaultShader != null ==> states.shader.warnMissing == previousWarn
      ensures states.shader != null && defaultShader == null ==> unchanged(states.shader)
    {
      var pointers := ArrayPointerSource(useCache, useVertexCache);
      DrawSubmit(env, states, previousWarn, primitive, count, pointers, CallerArray, CallerArray);
      useVertexCache := useCache;
    }

    /**
     * An array draw once the persistent states are set: the states the cache
     * requires, pre-transformed vertices for a few legacy ones, then the
     * submission with every attribute pointed at the caller's vertices.
     */
    method DrawPrepared(vertices: array<Vertex>, vertexCount: nat, primitive: PrimitiveType,
                        states: RenderStates, env: Env)
      requires Valid() && vertexCount <= vertices.Length && vertices != vertexCache
      modifies this, vertexCache, states.shader
      ensures Model() == ArrayDrawPrepared(old(Model()), env, vertexCount, primitive, states, CallerArray)
      ensures states.shader != null ==> states.shader.warnMissing == old(states.shader.warnMissing)
      ensures UseVertexCache(old(defaultShader) == null, vertexCount, states.useVertexCache) ==>
                && (forall i :: 0 <= i < vertexCount ==> vertexCache[i] == PreTransformed(states.transform, vertices[i]))
                && (forall i :: vertexCount <= i < vertexCache.Length ==> vertexCache[i] == old(vertexCache[i]))
      ensures !UseVertexCache(old(defaultShader) == null, vertexCount, states.useVertexCache) ==> unchanged(vertexCache)
    {
      var useCache := UseVertexCache(defaultShader == null, vertexCount, states.useVertexCache);
      var previousWarn := ArraySetup(vertices, vertexCount, states, env);
      ArraySubmit(env, states, previousWarn, primitive, vertexCount, useCache);
    }

    /**
     * draw(vertices, vertexCount, type, states). Nothing happens for missing
     * or no vertices or when the target cannot be activated. Otherwise the
     * persistent states are reset on first use and the draw proceeds.
     */
    method DrawVertices(vertices: array?<Vertex>, vertexCount: nat, primitive: PrimitiveType,
                        states: RenderStates, env: Env)
      requires Valid()
      requires vertices != null ==> vertexCount <= vertices.Length && vertices != vertexCache
      modifies this, vertexCache, states.shader
      ensures Model() == ArrayDraw(old(Model()), env, vertices != null, vertexCount, primitive, states)
      ensures states.shader != null ==> states.shader.warnMissing == old(states.shader.warnMissing)
      ensures Submits(env.activated, vertices != null, vertexCount) &&
              UseVertexCache(old(defaultShader) == null, vertexCount, states.useVertexCache) ==>
                && (forall i :: 0 <= i < vertexCount ==> vertexCache[i] == PreTransformed(states.transform, vertices[i]))
                && (forall i :: vertexCount <= i < vertexCache.Length ==> vertexCache[i] == old(vertexCache[i]))
      ensures !(Submits(env.activated, vertices != null, vertexCount) &&
                UseVertexCache(old(defaultShader) == null, vertexCount, states.useVertexCache)) ==>
                unchanged(vertexCache)
    {
      if vertices == null || vertexCount == 0 {
        return;
      }
      if !env.activated {
        return;
      }
      Prepare(env);
      DrawPrepared(vertices, vertexCount, primitive, states, env);
    }

    /**
     * The states a buffer draw applies before it submits: the current shader,
     * the transform, view, blend mode, texture and shader, and the buffer
     * unless it is the bound one. Returns the override's previous warning
     * setting.
     */
    method BufferSetup(buffer: VertexBuffer, states: RenderStates, env: Env) returns (previousWarn: bool)
      modifies this, states.shader
      ensures Model() == Protocol.BufferSetup(old(Model()), env, buffer, states)
      ensures states.shader != null && defaultShader != null ==>
                previousWarn == old(states.shader.warnMissing) && !states.shader.warnMissing
      ensures states.shader == null || defaultShader == null ==> previousWarn
      ensures states.shader != null && defaultShader == null ==> unchanged(states.shader)
    {
      var shaderChanged;
      shaderChanged, previousWarn := ResolveShader(states);
      ApplyTransform(states.transform, env);
      ApplyRenderStates(states, shaderChanged);
      if buffer.cacheId != lastVertexBufferId {
        ApplyVertexBuffer(Some(buffer));
      }
    }

    /** A buffer draw once the persistent states are set: the states the cache requires, then the submission. */
    method BufferDrawPrepared(buffer: VertexBuffer, states: RenderStates, env: Env)
      modifies this, states.shader
      ensures Model() == Protocol.BufferDrawPrepared(old(Model()), env, buffer, states)
      ensures states.shader != null ==> states.shader.warnMissing == old(states.shader.warnMissing)
    {
      var previousWarn := BufferSetup(buffer, states, env);
      DrawSubmit(env, states, previousWarn, buffer.primitiveType, buffer.vertexCount,
                 Some(BoundBuffer), BoundBuffer, BoundBuffer);
    }

    /**
     * draw(buffer, states), corrected to clear the pre-transform flag: the
     * buffer's transform and pointers replace the ones cached vertices need.
     */
    method DrawBuffer(buffer: VertexBuffer, states: RenderStates, env: Env)
      modifies this, states.shader
      ensures Model() == BufferDraw(old(Model()), env, buffer, states)
      ensures states.shader != null ==> states.shader.warnMissing == old(states.shader.warnMissing)
    {
      if buffer.vertexCount == 0 {
        return;
      }
      if !env.activated {
        return;
      }
      ghost var m := Model();
      Prepare(env);
      ghost var p := Model();
      BufferDrawPrepared(buffer, states, env);
      assert Model() == Protocol.BufferDrawPrepared(p, env, buffer, states) == BufferDrawAsWritten(m, env, buffer, states);
      useVertexCache := false;
      assert Model() == BufferDraw(m, env, buffer, states);
    }
  }
}
