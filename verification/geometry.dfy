/**
 * Value types the render target works with: vectors, colors, vertices,
 * transforms, rectangles, blend modes and primitive types.
 * Floating-point components are modelled as reals.
 */
module Geometry {
  datatype Vec2 = Vec2(x: real, y: real)
  datatype Vec3 = Vec3(x: real, y: real, z: real)
  datatype Color = Color(r: bv8, g: bv8, b: bv8, a: bv8)

  /** A vertex: position, color, texture coordinates and normal, in that order in memory. */
  datatype Vertex = Vertex(position: Vec3, color: Color, texCoords: Vec2, normal: Vec3)

  // Byte offsets of the vertex components, as the attribute pointers use them.
  const PositionOffset: nat := 0
  const ColorOffset: nat := 12
  const TexCoordsOffset: nat := 16
  const NormalOffset: nat := 24

  /** A transform is known only through the map it applies to points. */
  datatype Transform = Transform(transformPoint: Vec3 -> Vec3)

  const Identity: Transform := Transform(p => p)

  function Apply(t: Transform, p: Vec3): Vec3
  {
    t.transformPoint(p)
  }

  /** The copy of `v` that the pre-transform cache holds: moved position, everything else kept. */
  function PreTransformed(t: Transform, v: Vertex): Vertex
  {
    v.(position := Apply(t, v.position))
  }

  /** An integer rectangle (left, top, width, height). */
  datatype IntRect = IntRect(left: int, top: int, width: int, height: int)

  datatype BlendMode = BlendAlpha | BlendAdd | BlendMultiply | BlendNone

  datatype PrimitiveType = Points | Lines | LineStrip | Triangles | TriangleStrip | TriangleFan | Quads
}
