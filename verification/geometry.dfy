/** Stand-ins for the Box2D value types the renderer consumes (b2Vec2, b2Color,
    b2Rot, b2Transform), over exact reals instead of float32. */
module Geometry {

  /** A 2D world-space position or direction (b2Vec2). */
  datatype Vec2 = Vec2(x: real, y: real)

  /** An RGBA colour (b2Color). */
  datatype Color = Color(r: real, g: real, b: real, a: real)

  /** A rotation stored as its sine and cosine (b2Rot). */
  datatype Rot = Rot(s: real, c: real)

  /** A rigid frame: an origin and a rotation (b2Transform). */
  datatype Transform = Transform(p: Vec2, q: Rot)

  /** One entry of a vertex batch: the line and triangle buffers carry a
      position and a colour, the point buffer also a point size. */
  datatype VertexData =
    | Colored(pos: Vec2, color: Color)
    | Sized(pos: Vec2, color: Color, size: real)

  function Add(u: Vec2, v: Vec2): (w: Vec2) { Vec2(u.x + v.x, u.y + v.y) }

  function Scale(k: real, v: Vec2): (w: Vec2) { Vec2(k * v.x, k * v.y) }

  /** The 2D rotation identity the circle loops apply to their radius vector. */
  function Rotate(q: Rot, v: Vec2): (w: Vec2) { Vec2(q.c * v.x - q.s * v.y, q.s * v.x + q.c * v.y) }

  /** b2Rot::GetXAxis and b2Rot::GetYAxis. */
  function XAxis(q: Rot): (axis: Vec2) { Vec2(q.c, q.s) }
  function YAxis(q: Rot): (axis: Vec2) { Vec2(-q.s, q.c) }

  /** The derived fill colour: outline RGB halved, alpha fixed at one half. */
  function FillColor(c: Color): (fill: Color) { Color(0.5 * c.r, 0.5 * c.g, 0.5 * c.b, 0.5) }

  /** b2Color(r, g, b) with Box2D's default alpha of 1. */
  const Red: Color := Color(1.0, 0.0, 0.0, 1.0)
  const Green: Color := Color(0.0, 1.0, 0.0, 1.0)
}
