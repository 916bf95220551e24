/** The camera and its orthographic projection (Camera in Display.h). */
module Projection {
  import opened Geometry

  /** Half the side of the visible square, in world units. */
  const HalfExtent: real := 25.0

  /** The camera: a view centre moved by the frame loop, and the window size,
      which only the window setup reads. */
  class Camera {
    var center: Vec2
    var width: int
    var height: int

    constructor ()
      ensures center == Vec2(0.0, 20.0)
      ensures width == 1280 && height == 800
    {
      center := Vec2(0.0, 20.0);
      width := 1280;
      height := 800;
    }
  }

  /** Camera::BuildProjectionMatrix: the 16 entries, column-major, of the
      orthographic projection of the square of half-side 25 around `center`. */
  function BuildProjectionMatrix(center: Vec2): (m: seq<real>)
    ensures |m| == 16
    ensures m[0] == m[5] == 1.0 / 25.0 && m[10] == m[15] == 1.0
    ensures m[12] == -center.x / 25.0 && m[13] == -center.y / 25.0
    ensures forall i :: 0 <= i < 16 && i !in {0, 5, 10, 12, 13, 15} ==> m[i] == 0.0
  {
    var lower := Vec2(center.x - HalfExtent, center.y - HalfExtent);
    var upper := Vec2(center.x + HalfExtent, center.y + HalfExtent);
    [ 2.0 / (upper.x - lower.x), 0.0, 0.0, 0.0,
      0.0, 2.0 / (upper.y - lower.y), 0.0, 0.0,
      0.0, 0.0, 1.0, 0.0,
      -(upper.x + lower.x) / (upper.x - lower.x), -(upper.y + lower.y) / (upper.y - lower.y), 0.0, 1.0 ]
  }

  /** A homogeneous point as the vertex shader sees it. */
  datatype Vec4 = Vec4(x: real, y: real, z: real, w: real)

  /** A column-major 4x4 matrix applied to a homogeneous point, as GL reads the
      uniform uploaded with transpose = GL_FALSE. */
  function Apply(m: seq<real>, v: Vec4): (w: Vec4)
    requires |m| == 16
  {
    Vec4(m[0] * v.x + m[4] * v.y + m[8] * v.z + m[12] * v.w,
         m[1] * v.x + m[5] * v.y + m[9] * v.z + m[13] * v.w,
         m[2] * v.x + m[6] * v.y + m[10] * v.z + m[14] * v.w,
         m[3] * v.x + m[7] * v.y + m[11] * v.z + m[15] * v.w)
  }

  /** A world point as the shaders feed it to the matrix: z = 0, w = 1. */
  function Homogeneous(p: Vec2): (h: Vec4) { Vec4(p.x, p.y, 0.0, 1.0) }

  /** The world point that the projection sends to normalised coordinates `n`. */
  function Unproject(center: Vec2, n: Vec2): (p: Vec2) {
    Vec2(center.x + HalfExtent * n.x, center.y + HalfExtent * n.y)
  }

  /** The visible world rectangle [cx-25, cx+25] x [cy-25, cy+25]. */
  predicate Visible(center: Vec2, p: Vec2) {
    center.x - HalfExtent <= p.x <= center.x + HalfExtent &&
    center.y - HalfExtent <= p.y <= center.y + HalfExtent
  }

  /** Every world point is moved to its offset from the centre divided by 25;
      z passes through and w stays 1. */
  lemma ProjectionMapsPoint(center: Vec2, p: Vec2, z: real)
    ensures Apply(BuildProjectionMatrix(center), Vec4(p.x, p.y, z, 1.0))
         == Vec4((p.x - center.x) / 25.0, (p.y - center.y) / 25.0, z, 1.0)
  {
    var m := BuildProjectionMatrix(center);
    assert m[0] * p.x == p.x / 25.0;
    assert m[5] * p.y == p.y / 25.0;
    assert m[4] * p.y == 0.0 && m[8] * z == 0.0;
    assert m[1] * p.x == 0.0 && m[9] * z == 0.0;
    assert m[2] * p.x == 0.0 && m[6] * p.y == 0.0 && m[10] * z == z;
    assert m[3] * p.x == 0.0 && m[7] * p.y == 0.0 && m[11] * z == 0.0;
  }

  /** The four corners of the visible rectangle land on the corners of [-1,1]^2. */
  lemma ProjectionCorners(center: Vec2)
    ensures Apply(BuildProjectionMatrix(center), Homogeneous(Vec2(center.x - 25.0, center.y - 25.0))) == Vec4(-1.0, -1.0, 0.0, 1.0)
    ensures Apply(BuildProjectionMatrix(center), Homogeneous(Vec2(center.x + 25.0, center.y - 25.0))) == Vec4(1.0, -1.0, 0.0, 1.0)
    ensures Apply(BuildProjectionMatrix(center), Homogeneous(Vec2(center.x + 25.0, center.y + 25.0))) == Vec4(1.0, 1.0, 0.0, 1.0)
    ensures Apply(BuildProjectionMatrix(center), Homogeneous(Vec2(center.x - 25.0, center.y + 25.0))) == Vec4(-1.0, 1.0, 0.0, 1.0)
  {
    ProjectionMapsPoint(center, Vec2(center.x - 25.0, center.y - 25.0), 0.0);
    ProjectionMapsPoint(center, Vec2(center.x + 25.0, center.y - 25.0), 0.0);
    ProjectionMapsPoint(center, Vec2(center.x + 25.0, center.y + 25.0), 0.0);
    ProjectionMapsPoint(center, Vec2(center.x - 25.0, center.y + 25.0), 0.0);
  }

  /** A point is in the visible rectangle exactly when its projection lies in
      the normalised square [-1,1]^2. */
  lemma VisibleIffInClipSquare(center: Vec2, p: Vec2)
    ensures var n := Apply(BuildProjectionMatrix(center), Homogeneous(p));
            Visible(center, p) <==> (-1.0 <= n.x <= 1.0 && -1.0 <= n.y <= 1.0)
  {
    ProjectionMapsPoint(center, p, 0.0);
  }

  /** Unproject inverts the projection in both directions. */
  lemma UnprojectRoundTrip(center: Vec2, p: Vec2, n: Vec2)
    ensures var q := Apply(BuildProjectionMatrix(center), Homogeneous(p));
            Unproject(center, Vec2(q.x, q.y)) == p
    ensures Apply(BuildProjectionMatrix(center), Homogeneous(Unproject(center, n))) == Vec4(n.x, n.y, 0.0, 1.0)
  {
    ProjectionMapsPoint(center, p, 0.0);
    ProjectionMapsPoint(center, Unproject(center, n), 0.0);
  }
}
