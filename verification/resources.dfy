/**
 * The render target's collaborators as it sees them: textures and vertex
 * buffers by their cache identities, shaders as objects, views and the
 * per-draw render states.
 */
module Resources {
  import opened Wrappers
  import opened Geometry

  /**
   * A texture: `cacheId` is the identity assigned from a process-wide
   * counter; `handle` stands for the device name or address, which can be
   * recycled once the texture is destroyed.
   */
  datatype Texture = Texture(cacheId: nat, handle: nat)

  /** The identity the texture cache compares: the cache id, or 0 for no texture. */
  function TextureId(texture: Option<Texture>): nat
  {
    if texture.Some? then texture.value.cacheId else 0
  }

  /** A device-resident vertex buffer: its cache identity, vertex count and primitive type. */
  datatype VertexBuffer = VertexBuffer(cacheId: nat, vertexCount: nat, primitiveType: PrimitiveType)

  /** The identity the vertex-buffer cache compares: the cache id, or 0 for no buffer. */
  function VertexBufferId(buffer: Option<VertexBuffer>): nat
  {
    if buffer.Some? then buffer.value.cacheId else 0
  }

  /** Attribute locations a shader program reports; negative means absent. */
  datatype AttributeLocations = AttributeLocations(position: int, color: int, texCoords: int, normal: int)

  /** A shader program. Its identity is the object itself; it is compared by reference. */
  class Shader {
    const locations: AttributeLocations
    var warnMissing: bool

    constructor (locations: AttributeLocations, warnMissing: bool)
      ensures this.locations == locations && this.warnMissing == warnMissing
    {
      this.locations := locations;
      this.warnMissing := warnMissing;
    }

    /** Sets whether missing uniforms are reported and returns the previous setting. */
    method WarnMissing(enabled: bool) returns (previous: bool)
      modifies this
      ensures previous == old(warnMissing) && warnMissing == enabled
    {
      previous := warnMissing;
      warnMissing := enabled;
    }
  }

  /** A view, reduced to the pixel rectangle of the target it draws into. */
  datatype View = View(viewport: IntRect)

  /** What a draw submission asks for. */
  datatype RenderStates = RenderStates(
    blendMode: BlendMode,
    transform: Transform,
    texture: Option<Texture>,
    shader: Shader?,
    useVertexCache: bool)
}
