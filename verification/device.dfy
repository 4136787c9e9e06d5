/**
 * The device side of the render target, as events and the log they build
 * up. Each event stands for the group of graphics-API calls one applier or
 * draw step makes.
 */
module Device {
  import opened Wrappers
  import opened Geometry
  import opened Resources

  type LightId = nat

  /** Where a view, transform or texture upload goes: fixed-function state, or the uniforms of a shader. */
  datatype Sink = FixedFunction | Uniforms(shader: Shader)

  /** The memory a vertex pointer refers to. */
  datatype VertexSource = CallerArray | VertexCacheArray | BoundBuffer | NullAddress

  datatype Event =
    | ResetDefaults(legacy: bool)                       // persistent device defaults of resetGLStates
    | SetView(view: View)                              // resetGLStates hands the default view to setView
    | SetViewport(viewport: IntRect, sink: Sink)         // glViewport rectangle and projection upload
    | LoadTransform(transform: Transform, sink: Sink, normalMatrix: bool)
    | SetBlendFunc(mode: BlendMode)
    | BindTexture(texture: Option<Texture>, sink: Sink)
    | BindShader(shader: Shader?)
    | BindVertexBuffer(buffer: Option<VertexBuffer>)
    | SetLightCount(target: Shader, lightCount: nat)
    | AddLight(target: Shader, light: LightId)
    | SetViewerPosition(target: Shader)
    | SetPointers(source: VertexSource)                // fixed-function vertex/color/texcoord/normal pointers
    | EnableAttribute(location: int, source: VertexSource, offset: nat)
    | DisableAttribute(location: int)
    | DrawArrays(primitive: PrimitiveType, vertexCount: nat)

  /** How many events of each kind were issued. */
  datatype Tally = Tally(
    resets: nat, setViews: nat, views: nat, transforms: nat, blends: nat, textures: nat,
    shaders: nat, buffers: nat, uniforms: nat, lights: nat, pointers: nat, attributes: nat,
    draws: nat)
  {
    /** The tally with one more event `e`. */
    function Add(e: Event): Tally
    {
      match e
      case ResetDefaults(_) => this.(resets := resets + 1)
      case SetView(_) => this.(setViews := setViews + 1)
      case SetViewport(_, _) => this.(views := views + 1)
      case LoadTransform(_, _, _) => this.(transforms := transforms + 1)
      case SetBlendFunc(_) => this.(blends := blends + 1)
      case BindTexture(_, _) => this.(textures := textures + 1)
      case BindShader(_) => this.(shaders := shaders + 1)
      case BindVertexBuffer(_) => this.(buffers := buffers + 1)
      case SetLightCount(_, _) => this.(uniforms := uniforms + 1)
      case AddLight(_, _) => this.(lights := lights + 1)
      case SetViewerPosition(_) => this.(uniforms := uniforms + 1)
      case SetPointers(_) => this.(pointers := pointers + 1)
      case EnableAttribute(_, _, _) => this.(attributes := attributes + 1)
      case DisableAttribute(_) => this.(attributes := attributes + 1)
      case DrawArrays(_, _) => this.(draws := draws + 1)
    }
  }

  /** How many times a step guarded by `c` runs: once when `c` holds, never otherwise. */
  function Once(c: bool): nat
  {
    if c then 1 else 0
  }

  const NoEvents: Tally := Tally(0, 0, 0, 0, 0, 0, 0, 0, 0, 0, 0, 0, 0)

  /** A draw call: the primitive type and the number of vertices drawn. */
  datatype DrawCall = DrawCall(primitive: PrimitiveType, vertexCount: nat)

  /**
   * The device log: what the events issued so far amount to, as far as the
   * render target's guarantees need it. It counts the events of each kind
   * and keeps:
   * - the viewport, the blend mode, the transform (and whether the normal
   *   matrix went with it), the shader and the vertex buffer last set;
   * - the texture each sink was last given: fixed-function texturing holds
   *   one, and every shader program holds its own in its uniforms;
   * - every sink a view, transform, texture or lighting uniform went to;
   * - the light count last uploaded and every light uploaded, in order;
   * - the fixed-function vertex pointers last set and every memory a shader
   *   attribute was ever pointed at;
   * - the last draw call.
   * Recording is append-only: each event only adds to it.
   */
  datatype Log = Log(
    tally: Tally,
    lastViewport: Option<IntRect>,
    blendMode: Option<BlendMode>,
    lastTransform: Option<Transform>,
    normalMatrix: bool,
    textures: map<Sink, Option<Texture>>,
    boundShader: Option<Shader?>,
    boundBuffer: Option<Option<VertexBuffer>>,
    sinks: set<Sink>,
    lightCount: Option<nat>,
    uploadedLights: seq<LightId>,
    lastPointers: Option<VertexSource>,
    attributeSources: set<VertexSource>,
    lastDraw: Option<DrawCall>)
  {
    /** The log after one more event `e`. */
    function Record(e: Event): Log
    {
      var l := this.(tally := tally.Add(e));
      match e
      case SetViewport(viewport, sink) => l.(lastViewport := Some(viewport), sinks := sinks + {sink})
      case SetBlendFunc(mode) => l.(blendMode := Some(mode))
      case LoadTransform(transform, sink, normal) =>
        l.(lastTransform := Some(transform), normalMatrix := normal, sinks := sinks + {sink})
      case BindTexture(texture, sink) => l.(textures := textures[sink := texture], sinks := sinks + {sink})
      case BindShader(shader) => l.(boundShader := Some(shader))
      case BindVertexBuffer(buffer) => l.(boundBuffer := Some(buffer))
      case SetLightCount(target, count) => l.(lightCount := Some(count), sinks := sinks + {Uniforms(target)})
      case AddLight(target, light) => l.(uploadedLights := uploadedLights + [light], sinks := sinks + {Uniforms(target)})
      case SetViewerPosition(target) => l.(sinks := sinks + {Uniforms(target)})
      case SetPointers(source) => l.(lastPointers := Some(source))
      case EnableAttribute(_, source, _) => l.(attributeSources := attributeSources + {source})
      case DrawArrays(primitive, count) => l.(lastDraw := Some(DrawCall(primitive, count)))
      case _ => l
    }

    /** The texture `sink` samples: the one it was last given, none before that. */
    function TextureOf(sink: Sink): Option<Texture>
    {
      if sink in textures then textures[sink] else None
    }

    /** `o` leaves the viewport, the blend mode, every sink's texture and the vertex buffer where this log does. */
    ghost predicate SameBindings(o: Log)
    {
      o.lastViewport == lastViewport && o.blendMode == blendMode && o.textures == textures &&
      o.boundBuffer == boundBuffer
    }

    /** `o` leaves the transform, the vertex pointers and the attribute memory where this log does. */
    ghost predicate Settled(o: Log)
    {
      o.lastTransform == lastTransform && o.lastPointers == lastPointers && o.attributeSources == attributeSources
    }
  }

  /** The log of a device nothing was issued to yet. */
  const EmptyLog: Log := Log(NoEvents, None, None, None, false, map[], None, None, {}, None, [], None, {}, None)
}
