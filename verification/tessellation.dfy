/** The fixed tessellation rules of DebugDraw, as functions from a shape to
    the vertex sequence it hands to a buffer. */
module Tessellation {
  import opened Geometry

  /** Segments per circle (k_segments). */
  const Segments: nat := 16

  /** Length of each frame axis (k_axisScale). */
  const AxisScale: real := 0.4

  /** Consecutive pairs (p0,p1), (p1,p2), ...: what a loop that carries its
      previous point hands to the line buffer. */
  function Chain<T>(pts: seq<T>): (out: seq<T>)
    decreases |pts|
  {
    if |pts| < 2 then [] else Chain(pts[..|pts| - 1]) + [pts[|pts| - 2], pts[|pts| - 1]]
  }

  /** Triangles (apex, rim[j], rim[j+1]) in order: a fan triangulation. */
  function Fan<T>(apex: T, rim: seq<T>): (out: seq<T>)
    decreases |rim|
  {
    if |rim| < 2 then [] else Fan(apex, rim[..|rim| - 1]) + [apex, rim[|rim| - 2], rim[|rim| - 1]]
  }

  /** One more point adds one more pair. */
  lemma ChainExtend<T>(pts: seq<T>, i: nat)
    requires i + 1 < |pts|
    ensures Chain(pts[..i + 2]) == Chain(pts[..i + 1]) + [pts[i], pts[i + 1]]
  {
    assert pts[..i + 2][..i + 1] == pts[..i + 1];
  }

  /** One more rim point adds one more triangle. */
  lemma FanExtend<T>(apex: T, rim: seq<T>, i: nat)
    requires 1 <= i < |rim|
    ensures Fan(apex, rim[..i + 1]) == Fan(apex, rim[..i]) + [apex, rim[i - 1], rim[i]]
  {
    assert rim[..i + 1][..i] == rim[..i];
  }

  /** Positions given one colour. */
  function Paint(ps: seq<Vec2>, c: Color): (out: seq<VertexData>)
  {
    seq(|ps|, k requires 0 <= k < |ps| => Colored(ps[k], c))
  }

  lemma {:induction false} ChainLength<T>(pts: seq<T>)
    ensures |Chain(pts)| == if |pts| == 0 then 0 else 2 * (|pts| - 1)
    decreases |pts|
  {
    if |pts| >= 2 {
      ChainLength(pts[..|pts| - 1]);
    }
  }

  /** Pair k of a chain is (pts[k], pts[k+1]). */
  lemma {:induction false} ChainAt<T>(pts: seq<T>, k: nat)
    requires k + 1 < |pts|
    ensures |Chain(pts)| == 2 * (|pts| - 1)
    ensures Chain(pts)[2 * k] == pts[k] && Chain(pts)[2 * k + 1] == pts[k + 1]
    decreases |pts|
  {
    ChainLength(pts);
    var init := pts[..|pts| - 1];
    ChainLength(init);
    if k + 1 < |init| {
      ChainAt(init, k);
    }
  }

  /** Each segment of a chain starts where the previous one ended. */
  lemma ChainLinked<T>(pts: seq<T>, k: nat)
    requires k + 2 < |pts|
    ensures |Chain(pts)| == 2 * (|pts| - 1)
    ensures Chain(pts)[2 * k + 1] == Chain(pts)[2 * k + 2]
  {
    ChainAt(pts, k);
    ChainAt(pts, k + 1);
  }

  lemma {:induction false} FanLength<T>(apex: T, rim: seq<T>)
    ensures |Fan(apex, rim)| == if |rim| == 0 then 0 else 3 * (|rim| - 1)
    decreases |rim|
  {
    if |rim| >= 2 {
      FanLength(apex, rim[..|rim| - 1]);
    }
  }

  /** Triangle k of a fan is (apex, rim[k], rim[k+1]). */
  lemma {:induction false} FanAt<T>(apex: T, rim: seq<T>, k: nat)
    requires k + 1 < |rim|
    ensures |Fan(apex, rim)| == 3 * (|rim| - 1)
    ensures Fan(apex, rim)[3 * k] == apex
    ensures Fan(apex, rim)[3 * k + 1] == rim[k] && Fan(apex, rim)[3 * k + 2] == rim[k + 1]
    decreases |rim|
  {
    FanLength(apex, rim);
    var init := rim[..|rim| - 1];
    FanLength(apex, init);
    if k + 1 < |init| {
      FanAt(apex, init, k);
    }
  }

  /** DrawPolygon: the closed loop (v[n-1],v[0]), (v[0],v[1]), ..., (v[n-2],v[n-1]). */
  function PolygonOutline(vs: seq<Vec2>, c: Color): (out: seq<VertexData>)
    requires |vs| >= 1
  {
    Chain(Paint([vs[|vs| - 1]] + vs, c))
  }

  /** What DrawPolygon's loop has emitted after i iterations: segment j
      joins the previous vertex (v[n-1] for j = 0) to v[j]. */
  function PolygonOutlineUpTo(vs: seq<Vec2>, c: Color, i: nat): (out: seq<VertexData>)
    requires 1 <= |vs| && i <= |vs|
    decreases i
  {
    if i == 0 then []
    else
      var prev := if i == 1 then vs[|vs| - 1] else vs[i - 2];
      PolygonOutlineUpTo(vs, c, i - 1) + [Colored(prev, c), Colored(vs[i - 1], c)]
  }

  /** After its n iterations the loop has emitted exactly PolygonOutline. */
  lemma PolygonOutlineLoop(vs: seq<Vec2>, c: Color)
    requires |vs| >= 1
    ensures PolygonOutlineUpTo(vs, c, |vs|) == PolygonOutline(vs, c)
  {
    var loop := Paint([vs[|vs| - 1]] + vs, c);
    var i := 0;
    while i < |vs|
      invariant i <= |vs|
      invariant PolygonOutlineUpTo(vs, c, i) == Chain(loop[..i + 1])
    {
      ChainExtend(loop, i);
      i := i + 1;
    }
    assert loop[..|vs| + 1] == loop;
  }

  /** Segment k of a polygon outline joins the vertex before v[k] (cyclically) to v[k]. */
  lemma PolygonOutlineShape(vs: seq<Vec2>, c: Color, k: nat)
    requires k < |vs|
    ensures |PolygonOutline(vs, c)| == 2 * |vs|
    ensures PolygonOutline(vs, c)[2 * k] == Colored(if k == 0 then vs[|vs| - 1] else vs[k - 1], c)
    ensures PolygonOutline(vs, c)[2 * k + 1] == Colored(vs[k], c)
  {
    ChainAt(Paint([vs[|vs| - 1]] + vs, c), k);
  }

  /** The outline is a closed loop: it ends where it starts, and every segment
      starts where the previous one ended. */
  lemma PolygonOutlineClosed(vs: seq<Vec2>, c: Color)
    requires |vs| >= 1
    ensures |PolygonOutline(vs, c)| == 2 * |vs|
    ensures PolygonOutline(vs, c)[2 * |vs| - 1] == PolygonOutline(vs, c)[0]
    ensures forall k :: 0 < k < |vs| ==> PolygonOutline(vs, c)[2 * k] == PolygonOutline(vs, c)[2 * k - 1]
  {
    PolygonOutlineShape(vs, c, 0);
    PolygonOutlineShape(vs, c, |vs| - 1);
    forall k | 0 < k < |vs|
      ensures PolygonOutline(vs, c)[2 * k] == PolygonOutline(vs, c)[2 * k - 1]
    {
      PolygonOutlineShape(vs, c, k);
      PolygonOutlineShape(vs, c, k - 1);
    }
  }

  /** DrawSolidPolygon's fill: the fan (v[0], v[i], v[i+1]) for 1 <= i <= n-2, in the fill colour. */
  function PolygonFill(vs: seq<Vec2>, c: Color): (out: seq<VertexData>)
    requires |vs| >= 1
  {
    Fan(Colored(vs[0], FillColor(c)), Paint(vs[1..], FillColor(c)))
  }

  /** What DrawSolidPolygon's fill loop has emitted after k iterations:
      triangle j is (v0, v[j+1], v[j+2]) in the fill colour. */
  function PolygonFillUpTo(vs: seq<Vec2>, c: Color, k: nat): (out: seq<VertexData>)
    requires k == 0 || k + 1 < |vs|
    decreases k
  {
    if k == 0 then []
    else
      var fill := FillColor(c);
      PolygonFillUpTo(vs, c, k - 1) + [Colored(vs[0], fill), Colored(vs[k], fill), Colored(vs[k + 1], fill)]
  }

  /** After its last iteration the fill loop has emitted exactly PolygonFill:
      n - 2 triangles for n >= 3, none for n <= 2. */
  lemma PolygonFillLoop(vs: seq<Vec2>, c: Color)
    requires |vs| >= 1
    ensures PolygonFillUpTo(vs, c, if |vs| >= 2 then |vs| - 2 else 0) == PolygonFill(vs, c)
  {
    var fill := FillColor(c);
    var apex := Colored(vs[0], fill);
    var rim := Paint(vs[1..], fill);
    if |vs| >= 2 {
      var k := 0;
      while k < |vs| - 2
        invariant k <= |vs| - 2
        invariant PolygonFillUpTo(vs, c, k) == Fan(apex, rim[..k + 1])
      {
        FanExtend(apex, rim, k + 1);
        k := k + 1;
      }
      assert rim[..|vs| - 1] == rim;
    }
  }

  /** A filled n-gon makes n-2 triangles (none when n <= 2). */
  lemma PolygonFillLength(vs: seq<Vec2>, c: Color)
    requires |vs| >= 1
    ensures |PolygonFill(vs, c)| == if |vs| <= 2 then 0 else 3 * (|vs| - 2)
  {
    FanLength(Colored(vs[0], FillColor(c)), Paint(vs[1..], FillColor(c)));
  }

  /** Triangle k of the fill is (v[0], v[k+1], v[k+2]) in the fill colour. */
  lemma PolygonFillShape(vs: seq<Vec2>, c: Color, k: nat)
    requires k + 2 < |vs|
    ensures |PolygonFill(vs, c)| == 3 * (|vs| - 2)
    ensures PolygonFill(vs, c)[3 * k] == Colored(vs[0], FillColor(c))
    ensures PolygonFill(vs, c)[3 * k + 1] == Colored(vs[k + 1], FillColor(c))
    ensures PolygonFill(vs, c)[3 * k + 2] == Colored(vs[k + 2], FillColor(c))
  {
    FanAt(Colored(vs[0], FillColor(c)), Paint(vs[1..], FillColor(c)), k);
  }

  /** The unit square at (10,10)..(12,12) in opaque red: two fill triangles
      in translucent dark red, four outline segments in red. */
  lemma FilledSquareScenario()
    ensures var vs := [Vec2(10.0, 10.0), Vec2(12.0, 10.0), Vec2(12.0, 12.0), Vec2(10.0, 12.0)];
            var red, fill := Color(1.0, 0.0, 0.0, 1.0), Color(0.5, 0.0, 0.0, 0.5);
            PolygonFill(vs, red) == [Colored(vs[0], fill), Colored(vs[1], fill), Colored(vs[2], fill),
                                     Colored(vs[0], fill), Colored(vs[2], fill), Colored(vs[3], fill)] &&
            PolygonOutline(vs, red) == [Colored(vs[3], red), Colored(vs[0], red), Colored(vs[0], red), Colored(vs[1], red),
                                        Colored(vs[1], red), Colored(vs[2], red), Colored(vs[2], red), Colored(vs[3], red)]
  {
    var vs := [Vec2(10.0, 10.0), Vec2(12.0, 10.0), Vec2(12.0, 12.0), Vec2(10.0, 12.0)];
    var red := Color(1.0, 0.0, 0.0, 1.0);
    assert FillColor(red) == Color(0.5, 0.0, 0.0, 0.5);
    PolygonFillShape(vs, red, 0);
    PolygonFillShape(vs, red, 1);
    PolygonOutlineShape(vs, red, 0);
    PolygonOutlineShape(vs, red, 1);
    PolygonOutlineShape(vs, red, 2);
    PolygonOutlineShape(vs, red, 3);
  }

  /** The radius vector after k rotations by q. */
  function Turn(q: Rot, r: Vec2, k: nat): (t: Vec2)
  {
    if k == 0 then r else Rotate(q, Turn(q, r, k - 1))
  }

  /** center + radius * r. */
  function CirclePoint(center: Vec2, radius: real, r: Vec2): (p: Vec2)
  {
    Add(center, Scale(radius, r))
  }

  /** The 17 points center + radius * q^k(r0), k = 0..16, a circle loop walks. */
  function Ring(center: Vec2, radius: real, q: Rot, r0: Vec2): (ps: seq<Vec2>)
  {
    seq(Segments + 1, k requires 0 <= k <= Segments => CirclePoint(center, radius, Turn(q, r0, k)))
  }

  /** Points i and i+1 of a circle loop: one rotation by q apart. */
  lemma RingStep(center: Vec2, radius: real, q: Rot, r0: Vec2, c: Color, i: nat)
    requires i < Segments
    ensures Paint(Ring(center, radius, q, r0), c)[i] == Colored(CirclePoint(center, radius, Turn(q, r0, i)), c)
    ensures Paint(Ring(center, radius, q, r0), c)[i + 1]
         == Colored(CirclePoint(center, radius, Rotate(q, Turn(q, r0, i))), c)
  {
  }

  /** DrawCircle: 16 chained segments starting at center + radius * (1, 0). */
  function CircleOutline(center: Vec2, radius: real, q: Rot, c: Color): (out: seq<VertexData>)
  {
    Chain(Paint(Ring(center, radius, q, Vec2(1.0, 0.0)), c))
  }

  /** DrawSolidCircle's fill: 16 triangles about the centre, starting at
      center + radius * (cos, sin) of the step, in the fill colour. */
  function CircleFill(center: Vec2, radius: real, q: Rot, c: Color): (out: seq<VertexData>)
  {
    Fan(Colored(center, FillColor(c)), Paint(Ring(center, radius, q, XAxis(q)), FillColor(c)))
  }

  /** What DrawCircle's loop has emitted after i iterations: segment j joins
      rotation j to rotation j+1 of (1, 0). */
  function CircleOutlineUpTo(center: Vec2, radius: real, q: Rot, c: Color, i: nat): (out: seq<VertexData>)
    decreases i
  {
    if i == 0 then []
    else
      var r := Turn(q, Vec2(1.0, 0.0), i - 1);
      CircleOutlineUpTo(center, radius, q, c, i - 1)
        + [Colored(CirclePoint(center, radius, r), c), Colored(CirclePoint(center, radius, Rotate(q, r)), c)]
  }

  /** One more outline iteration, with radius vector r, adds one segment. */
  lemma CircleOutlineUpToStep(center: Vec2, radius: real, q: Rot, c: Color, i: nat, r: Vec2)
    requires r == Turn(q, Vec2(1.0, 0.0), i)
    ensures CircleOutlineUpTo(center, radius, q, c, i + 1)
         == CircleOutlineUpTo(center, radius, q, c, i)
            + [Colored(CirclePoint(center, radius, r), c), Colored(CirclePoint(center, radius, Rotate(q, r)), c)]
  {
  }

  /** After all 16 iterations the loop has emitted exactly CircleOutline. */
  lemma CircleOutlineLoop(center: Vec2, radius: real, q: Rot, c: Color)
    ensures CircleOutlineUpTo(center, radius, q, c, Segments) == CircleOutline(center, radius, q, c)
  {
    var ring := Paint(Ring(center, radius, q, Vec2(1.0, 0.0)), c);
    var i := 0;
    while i < Segments
      invariant i <= Segments
      invariant CircleOutlineUpTo(center, radius, q, c, i) == Chain(ring[..i + 1])
    {
      RingStep(center, radius, q, Vec2(1.0, 0.0), c, i);
      ChainExtend(ring, i);
      i := i + 1;
    }
    assert ring[..Segments + 1] == ring;
  }

  /** What DrawSolidCircle's fill loop has emitted after i iterations:
      triangle j is the centre with rotations j+1 and j+2 of (1, 0). */
  function CircleFillUpTo(center: Vec2, radius: real, q: Rot, c: Color, i: nat): (out: seq<VertexData>)
    decreases i
  {
    if i == 0 then []
    else
      var fill := FillColor(c);
      var r := Turn(q, XAxis(q), i - 1);
      CircleFillUpTo(center, radius, q, c, i - 1)
        + [Colored(center, fill), Colored(CirclePoint(center, radius, r), fill), Colored(CirclePoint(center, radius, Rotate(q, r)), fill)]
  }

  /** One more fill iteration, with radius vector r, adds one triangle. */
  lemma CircleFillUpToStep(center: Vec2, radius: real, q: Rot, c: Color, i: nat, r: Vec2)
    requires r == Turn(q, XAxis(q), i)
    ensures CircleFillUpTo(center, radius, q, c, i + 1)
         == CircleFillUpTo(center, radius, q, c, i)
            + [Colored(center, FillColor(c)), Colored(CirclePoint(center, radius, r), FillColor(c)),
               Colored(CirclePoint(center, radius, Rotate(q, r)), FillColor(c))]
  {
  }

  /** After all 16 iterations the fill loop has emitted exactly CircleFill. */
  lemma CircleFillLoop(center: Vec2, radius: real, q: Rot, c: Color)
    ensures CircleFillUpTo(center, radius, q, c, Segments) == CircleFill(center, radius, q, c)
  {
    var fill := FillColor(c);
    var apex := Colored(center, fill);
    var rim := Paint(Ring(center, radius, q, XAxis(q)), fill);
    var i := 0;
    while i < Segments
      invariant i <= Segments
      invariant CircleFillUpTo(center, radius, q, c, i) == Fan(apex, rim[..i + 1])
    {
      RingStep(center, radius, q, XAxis(q), fill, i);
      FanExtend(apex, rim, i + 1);
      i := i + 1;
    }
    assert rim[..Segments + 1] == rim;
  }

  /** DrawSolidCircle's heading line from the centre along the body axis. */
  function HeadingLine(center: Vec2, radius: real, axis: Vec2, c: Color): (out: seq<VertexData>)
  {
    [Colored(center, c), Colored(CirclePoint(center, radius, axis), c)]
  }

  /** A circle outline has 32 vertices; segment k runs from rotation k to
      rotation k+1 of (1, 0), and each starts where the previous one ended. */
  lemma CircleOutlineShape(center: Vec2, radius: real, q: Rot, c: Color, k: nat)
    requires k < Segments
    ensures |CircleOutline(center, radius, q, c)| == 2 * Segments
    ensures CircleOutline(center, radius, q, c)[2 * k] == Colored(CirclePoint(center, radius, Turn(q, Vec2(1.0, 0.0), k)), c)
    ensures CircleOutline(center, radius, q, c)[2 * k + 1] == Colored(CirclePoint(center, radius, Turn(q, Vec2(1.0, 0.0), k + 1)), c)
    ensures k + 1 < Segments ==> CircleOutline(center, radius, q, c)[2 * k + 1] == CircleOutline(center, radius, q, c)[2 * k + 2]
  {
    var pts := Paint(Ring(center, radius, q, Vec2(1.0, 0.0)), c);
    ChainAt(pts, k);
    if k + 1 < Segments {
      ChainLinked(pts, k);
    }
  }

  /** A filled circle has 48 fill vertices; every triangle starts at the centre. */
  lemma CircleFillShape(center: Vec2, radius: real, q: Rot, c: Color, k: nat)
    requires k < Segments
    ensures |CircleFill(center, radius, q, c)| == 3 * Segments
    ensures CircleFill(center, radius, q, c)[3 * k] == Colored(center, FillColor(c))
    ensures CircleFill(center, radius, q, c)[3 * k + 1] == Colored(CirclePoint(center, radius, Turn(q, XAxis(q), k)), FillColor(c))
    ensures CircleFill(center, radius, q, c)[3 * k + 2] == Colored(CirclePoint(center, radius, Turn(q, XAxis(q), k + 1)), FillColor(c))
  {
    FanAt(Colored(center, FillColor(c)), Paint(Ring(center, radius, q, XAxis(q)), FillColor(c)), k);
  }

  /** The fill starts one rotation step past the outline: its rim point k is
      the outline's point k+1. */
  lemma {:induction false} FillRimIsOutlineShifted(q: Rot, k: nat)
    ensures Turn(q, XAxis(q), k) == Turn(q, Vec2(1.0, 0.0), k + 1)
  {
    if k == 0 {
      assert Rotate(q, Vec2(1.0, 0.0)) == XAxis(q);
    } else {
      FillRimIsOutlineShifted(q, k - 1);
    }
  }

  /** DrawTransform: a red pair along the x axis, then a green pair along the
      y axis, both from the frame origin. */
  function FrameAxes(xf: Transform): (out: seq<VertexData>)
  {
    [Colored(xf.p, Red), Colored(Add(xf.p, Scale(AxisScale, XAxis(xf.q))), Red),
     Colored(xf.p, Green), Colored(Add(xf.p, Scale(AxisScale, YAxis(xf.q))), Green)]
  }

  /** The two frame axes are perpendicular and equally long, each 0.4 times
      the rotation's norm. */
  lemma FrameAxesOrthogonal(xf: Transform)
    ensures var a := FrameAxes(xf);
            var u := Vec2(a[1].pos.x - a[0].pos.x, a[1].pos.y - a[0].pos.y);
            var w := Vec2(a[3].pos.x - a[2].pos.x, a[3].pos.y - a[2].pos.y);
            u.x * w.x + u.y * w.y == 0.0 &&
            u.x * u.x + u.y * u.y == w.x * w.x + w.y * w.y ==
              AxisScale * AxisScale * (xf.q.s * xf.q.s + xf.q.c * xf.q.c)
  {
    var s, c := xf.q.s, xf.q.c;
    var a := FrameAxes(xf);
    assert a[1].pos.x - a[0].pos.x == AxisScale * c;
    assert a[1].pos.y - a[0].pos.y == AxisScale * s;
    assert a[3].pos.x - a[2].pos.x == AxisScale * -s;
    assert a[3].pos.y - a[2].pos.y == AxisScale * c;
  }
}
