/** DebugDraw: the Box2D debug-draw callbacks turned into vertices on the
    three batches it owns. */
module Drawing {
  import opened Geometry
  import opened Projection
  import opened Batching
  import opened Tessellation

  class DebugDraw {
    const points: Batch
    const lines: Batch
    const triangles: Batch
    /** The rotation by 2*pi/16 (sinf and cosf of k_increment) the circle loops apply. */
    const step: Rot

    /** The three batches have their topologies, separate storage, one camera
        and one GL context. All of it is fixed at creation. */
    predicate Wired()
    {
      points.mode == Points && lines.mode == Lines && triangles.mode == Triangles &&
      points.vbo != lines.vbo && lines.vbo != triangles.vbo && triangles.vbo != points.vbo &&
      points.cam == lines.cam == triangles.cam &&
      points.gpu == lines.gpu == triangles.gpu
    }

    /** Wired, and each batch keeps its own invariant. */
    ghost predicate Valid()
      reads points, lines, triangles, points.vbo, lines.vbo, triangles.vbo
    {
      Wired() && points.Valid() && lines.Valid() && triangles.Valid()
    }

    /** DebugDraw() followed by Create(): three empty batches. */
    constructor Create(cam: Camera, gpu: Gpu, step: Rot)
      ensures Valid()
      ensures fresh(points) && fresh(lines) && fresh(triangles)
      ensures fresh(points.vbo) && fresh(lines.vbo) && fresh(triangles.vbo)
      ensures lines.cam == cam && lines.gpu == gpu && this.step == step
      ensures points.count == 0 && lines.count == 0 && triangles.count == 0
      ensures points.appended == lines.appended == triangles.appended == []
    {
      points := new Batch.Create(Points, cam, gpu);
      lines := new Batch.Create(Lines, cam, gpu);
      triangles := new Batch.Create(Triangles, cam, gpu);
      this.step := step;
    }

    /** DrawPolygon: the closed outline, two line vertices per edge. */
    method DrawPolygon(vertices: seq<Vec2>, color: Color)
      requires Valid() && |vertices| >= 1
      modifies lines, lines.vbo, lines.gpu
      ensures Valid() && unchanged(points, triangles)
      ensures lines.appended == old(lines.appended) + PolygonOutline(vertices, color)
      ensures 1 <= lines.count
      ensures Extends(lines.gpu.log, old(lines.gpu.log), {Lines}, lines.cam.center)
      ensures Records(lines.gpu.log, old(lines.gpu.log), Lines, lines.drawn, old(lines.drawn))
    {
      var n := |vertices|;
      var p1 := vertices[n - 1];
      var i := 0;
      while i < n
        invariant 0 <= i <= n
        invariant Valid()
        invariant p1 == if i == 0 then vertices[n - 1] else vertices[i - 1]
        invariant i > 0 ==> 1 <= lines.count
        invariant lines.appended == old(lines.appended) + PolygonOutlineUpTo(vertices, color, i)
        invariant Extends(lines.gpu.log, old(lines.gpu.log), {Lines}, lines.cam.center)
        invariant Records(lines.gpu.log, old(lines.gpu.log), Lines, lines.drawn, old(lines.drawn))
      {
        var p2 := vertices[i];
        ghost var log, drawn := lines.gpu.log, lines.drawn;
        DrawSegment(p1, p2, color);
        ExtendsTrans(lines.gpu.log, log, old(lines.gpu.log), {Lines}, {Lines}, lines.cam.center);
        RecordsTrans(lines.gpu.log, log, old(lines.gpu.log), Lines, lines.drawn, drawn, old(lines.drawn));
        AppendAssoc(old(lines.appended), PolygonOutlineUpTo(vertices, color, i), [Colored(p1, color), Colored(p2, color)]);
        p1 := p2;
        i := i + 1;
      }
      PolygonOutlineLoop(vertices, color);
    }

    /** DrawSolidPolygon: the fill fan on the triangle batch, then the same
        outline as DrawPolygon (the source repeats that loop inline). */
    method DrawSolidPolygon(vertices: seq<Vec2>, color: Color)
      requires Valid() && |vertices| >= 1
      modifies lines, lines.vbo, triangles, triangles.vbo, lines.gpu
      ensures Valid() && unchanged(points)
      ensures triangles.appended == old(triangles.appended) + PolygonFill(vertices, color)
      ensures lines.appended == old(lines.appended) + PolygonOutline(vertices, color)
      ensures 1 <= lines.count
      ensures |vertices| >= 3 ==> 1 <= triangles.count
      ensures |vertices| <= 2 ==> unchanged(triangles)
      ensures Extends(lines.gpu.log, old(lines.gpu.log), {Triangles, Lines}, lines.cam.center)
      ensures TrianglesFirst(lines.gpu.log, old(lines.gpu.log))
      ensures Records(lines.gpu.log, old(lines.gpu.log), Triangles, triangles.drawn, old(triangles.drawn))
      ensures Records(lines.gpu.log, old(lines.gpu.log), Lines, lines.drawn, old(lines.drawn))
    {
      var n := |vertices|;
      var fill := FillColor(color);
      var i := 1;
      while i < n - 1
        invariant 1 <= i && (n == 1 ==> i == 1) && (n >= 2 ==> i <= n - 1)
        invariant Valid() && unchanged(lines, lines.vbo)
        invariant i > 1 ==> 1 <= triangles.count
        invariant i == 1 ==> unchanged(triangles)
        invariant triangles.appended == old(triangles.appended) + PolygonFillUpTo(vertices, color, i - 1)
        invariant Extends(lines.gpu.log, old(lines.gpu.log), {Triangles}, lines.cam.center)
        invariant Records(lines.gpu.log, old(lines.gpu.log), Triangles, triangles.drawn, old(triangles.drawn))
      {
        ghost var log, drawn := lines.gpu.log, triangles.drawn;
        FillTriangle(vertices[0], vertices[i], vertices[i + 1], fill);
        ExtendsTrans(lines.gpu.log, log, old(lines.gpu.log), {Triangles}, {Triangles}, lines.cam.center);
        RecordsTrans(lines.gpu.log, log, old(lines.gpu.log), Triangles, triangles.drawn, drawn, old(triangles.drawn));
        AppendAssoc(old(triangles.appended), PolygonFillUpTo(vertices, color, i - 1),
                    [Colored(vertices[0], fill), Colored(vertices[i], fill), Colored(vertices[i + 1], fill)]);
        i := i + 1;
      }
      PolygonFillLoop(vertices, color);
      ghost var log0 := lines.gpu.log;
      DrawPolygon(vertices, color);
      ExtendsTrans(lines.gpu.log, log0, old(lines.gpu.log), {Triangles}, {Triangles, Lines}, lines.cam.center);
      OtherTopologies(lines.gpu.log, log0, old(lines.gpu.log), lines.cam.center,
                      lines.drawn, old(lines.drawn), triangles.drawn, old(triangles.drawn));
    }

    /** DrawCircle: 16 chained segments, rotating the radius vector by `step`
        each time instead of calling sinf and cosf again. */
    method DrawCircle(center: Vec2, radius: real, color: Color)
      requires Valid()
      modifies lines, lines.vbo, lines.gpu
      ensures Valid() && unchanged(points, triangles)
      ensures lines.appended == old(lines.appended) + CircleOutline(center, radius, step, color)
      ensures 1 <= lines.count
      ensures Extends(lines.gpu.log, old(lines.gpu.log), {Lines}, lines.cam.center)
      ensures Records(lines.gpu.log, old(lines.gpu.log), Lines, lines.drawn, old(lines.drawn))
    {
      var r1 := Vec2(1.0, 0.0);
      var v1 := CirclePoint(center, radius, r1);
      var i := 0;
      while i < Segments
        invariant 0 <= i <= Segments
        invariant Valid()
        invariant r1 == Turn(step, Vec2(1.0, 0.0), i)
        invariant v1 == CirclePoint(center, radius, r1)
        invariant i > 0 ==> 1 <= lines.count
        invariant lines.appended == old(lines.appended) + CircleOutlineUpTo(center, radius, step, color, i)
        invariant Extends(lines.gpu.log, old(lines.gpu.log), {Lines}, lines.cam.center)
        invariant Records(lines.gpu.log, old(lines.gpu.log), Lines, lines.drawn, old(lines.drawn))
      {
        var r2 := Rotate(step, r1);
        var v2 := CirclePoint(center, radius, r2);
        ghost var log, drawn := lines.gpu.log, lines.drawn;
        DrawSegment(v1, v2, color);
        ExtendsTrans(lines.gpu.log, log, old(lines.gpu.log), {Lines}, {Lines}, lines.cam.center);
        RecordsTrans(lines.gpu.log, log, old(lines.gpu.log), Lines, lines.drawn, drawn, old(lines.drawn));
        ghost var pair := [Colored(v1, color), Colored(v2, color)];
        CircleOutlineUpToStep(center, radius, step, color, i, r1);
        AppendAssoc(old(lines.appended), CircleOutlineUpTo(center, radius, step, color, i), pair);
        r1 := r2;
        v1 := v2;
        i := i + 1;
      }
      CircleOutlineLoop(center, radius, step, color);
    }

    /** DrawSolidCircle: the 16-triangle fill fan, the outline of DrawCircle
        (the source repeats that loop inline) and the heading line. */
    method DrawSolidCircle(center: Vec2, radius: real, axis: Vec2, color: Color)
      requires Valid()
      modifies lines, lines.vbo, triangles, triangles.vbo, lines.gpu
      ensures Valid() && unchanged(points)
      ensures triangles.appended == old(triangles.appended) + CircleFill(center, radius, step, color)
      ensures lines.appended == old(lines.appended) + CircleOutline(center, radius, step, color)
                                + HeadingLine(center, radius, axis, color)
      ensures 1 <= triangles.count && 1 <= lines.count
      ensures Extends(lines.gpu.log, old(lines.gpu.log), {Triangles, Lines}, lines.cam.center)
      ensures TrianglesFirst(lines.gpu.log, old(lines.gpu.log))
      ensures Records(lines.gpu.log, old(lines.gpu.log), Triangles, triangles.drawn, old(triangles.drawn))
      ensures Records(lines.gpu.log, old(lines.gpu.log), Lines, lines.drawn, old(lines.drawn))
    {
      FillCircle(center, radius, color);
      ghost var log0 := lines.gpu.log;
      DrawCircle(center, radius, color);

      // A line fixed in the circle, to show its rotation.
      ghost var log1, drawn1 := lines.gpu.log, lines.drawn;
      var p := Add(center, Scale(radius, axis));
      DrawSegment(center, p, color);
      ExtendsTrans(lines.gpu.log, log1, log0, {Lines}, {Lines}, lines.cam.center);
      RecordsTrans(lines.gpu.log, log1, log0, Lines, lines.drawn, drawn1, old(lines.drawn));
      ExtendsTrans(lines.gpu.log, log0, old(lines.gpu.log), {Triangles}, {Triangles, Lines}, lines.cam.center);
      OtherTopologies(lines.gpu.log, log0, old(lines.gpu.log), lines.cam.center,
                      lines.drawn, old(lines.drawn), triangles.drawn, old(triangles.drawn));
    }

    /** The fill loop of DrawSolidCircle: 16 triangles from the centre, the
        rim starting one step past (1, 0) since r1 starts at (cos, sin). */
    method FillCircle(center: Vec2, radius: real, color: Color)
      requires Valid()
      modifies triangles, triangles.vbo, triangles.gpu
      ensures Valid() && unchanged(points, lines, lines.vbo)
      ensures triangles.appended == old(triangles.appended) + CircleFill(center, radius, step, color)
      ensures 1 <= triangles.count
      ensures Extends(triangles.gpu.log, old(triangles.gpu.log), {Triangles}, triangles.cam.center)
      ensures Records(triangles.gpu.log, old(triangles.gpu.log), Triangles, triangles.drawn, old(triangles.drawn))
    {
      var v0 := center;
      var r1 := XAxis(step);
      var v1 := CirclePoint(center, radius, r1);
      var fill := FillColor(color);
      var i := 0;
      while i < Segments
        invariant 0 <= i <= Segments
        invariant Valid()
        invariant r1 == Turn(step, XAxis(step), i)
        invariant v1 == CirclePoint(center, radius, r1)
        invariant i > 0 ==> 1 <= triangles.count
        invariant triangles.appended == old(triangles.appended) + CircleFillUpTo(center, radius, step, color, i)
        invariant Extends(triangles.gpu.log, old(triangles.gpu.log), {Triangles}, triangles.cam.center)
        invariant Records(triangles.gpu.log, old(triangles.gpu.log), Triangles, triangles.drawn, old(triangles.drawn))
      {
        var r2 := Rotate(step, r1);
        var v2 := CirclePoint(center, radius, r2);
        ghost var log, drawn := triangles.gpu.log, triangles.drawn;
        FillTriangle(v0, v1, v2, fill);
        ExtendsTrans(triangles.gpu.log, log, old(triangles.gpu.log), {Triangles}, {Triangles}, triangles.cam.center);
        RecordsTrans(triangles.gpu.log, log, old(triangles.gpu.log), Triangles, triangles.drawn, drawn, old(triangles.drawn));
        ghost var triangle := [Colored(v0, fill), Colored(v1, fill), Colored(v2, fill)];
        CircleFillUpToStep(center, radius, step, color, i, r1);
        AppendAssoc(old(triangles.appended), CircleFillUpTo(center, radius, step, color, i), triangle);
        r1 := r2;
        v1 := v2;
        i := i + 1;
      }
      CircleFillLoop(center, radius, step, color);
    }

    /** DrawSegment: exactly (p1, p2) on the line batch. */
    method DrawSegment(p1: Vec2, p2: Vec2, color: Color)
      requires Valid()
      modifies lines, lines.vbo, lines.gpu
      ensures Valid() && unchanged(points, triangles)
      ensures lines.appended == old(lines.appended) + [Colored(p1, color), Colored(p2, color)]
      ensures 1 <= lines.count
      ensures Extends(lines.gpu.log, old(lines.gpu.log), {Lines}, lines.cam.center)
      ensures Records(lines.gpu.log, old(lines.gpu.log), Lines, lines.drawn, old(lines.drawn))
    {
      lines.Vertex(Colored(p1, color));
      ghost var log1, drawn1 := lines.gpu.log, lines.drawn;
      lines.Vertex(Colored(p2, color));
      ExtendsTrans(lines.gpu.log, log1, old(lines.gpu.log), {Lines}, {Lines}, lines.cam.center);
      RecordsTrans(lines.gpu.log, log1, old(lines.gpu.log), Lines, lines.drawn, drawn1, old(lines.drawn));
      AppendAssoc(old(lines.appended), [Colored(p1, color)], [Colored(p2, color)]);
    }

    /** Three triangle vertices of one colour: the body of the fill loops. */
    method FillTriangle(a: Vec2, b: Vec2, c: Vec2, fill: Color)
      requires Valid()
      modifies triangles, triangles.vbo, triangles.gpu
      ensures Valid() && unchanged(points, lines, lines.vbo)
      ensures triangles.appended == old(triangles.appended) + [Colored(a, fill), Colored(b, fill), Colored(c, fill)]
      ensures 1 <= triangles.count
      ensures Extends(triangles.gpu.log, old(triangles.gpu.log), {Triangles}, triangles.cam.center)
      ensures Records(triangles.gpu.log, old(triangles.gpu.log), Triangles, triangles.drawn, old(triangles.drawn))
    {
      triangles.Vertex(Colored(a, fill));
      ghost var log1, drawn1 := triangles.gpu.log, triangles.drawn;
      triangles.Vertex(Colored(b, fill));
      ghost var log2, drawn2 := triangles.gpu.log, triangles.drawn;
      triangles.Vertex(Colored(c, fill));
      ExtendsTrans(log2, log1, old(triangles.gpu.log), {Triangles}, {Triangles}, triangles.cam.center);
      ExtendsTrans(triangles.gpu.log, log2, old(triangles.gpu.log), {Triangles}, {Triangles}, triangles.cam.center);
      RecordsTrans(log2, log1, old(triangles.gpu.log), Triangles, drawn2, drawn1, old(triangles.drawn));
      RecordsTrans(triangles.gpu.log, log2, old(triangles.gpu.log), Triangles, triangles.drawn, drawn2, old(triangles.drawn));
      Snoc3(old(triangles.appended), Colored(a, fill), Colored(b, fill), Colored(c, fill));
    }

    /** DrawTransform: the frame's two axes, red then green. */
    method DrawTransform(xf: Transform)
      requires Valid()
      modifies lines, lines.vbo, lines.gpu
      ensures Valid() && unchanged(points, triangles)
      ensures lines.appended == old(lines.appended) + FrameAxes(xf)
      ensures 1 <= lines.count
      ensures Extends(lines.gpu.log, old(lines.gpu.log), {Lines}, lines.cam.center)
      ensures Records(lines.gpu.log, old(lines.gpu.log), Lines, lines.drawn, old(lines.drawn))
    {
      var p1 := xf.p;
      var p2 := Add(p1, Scale(AxisScale, XAxis(xf.q)));
      DrawSegment(p1, p2, Red);
      ghost var log1, drawn1 := lines.gpu.log, lines.drawn;
      p2 := Add(p1, Scale(AxisScale, YAxis(xf.q)));
      DrawSegment(p1, p2, Green);
      ExtendsTrans(lines.gpu.log, log1, old(lines.gpu.log), {Lines}, {Lines}, lines.cam.center);
      RecordsTrans(lines.gpu.log, log1, old(lines.gpu.log), Lines, lines.drawn, drawn1, old(lines.drawn));
    }

    /** DrawPoint: one sized vertex on the point batch. */
    method DrawPoint(p: Vec2, size: real, color: Color)
      requires Valid()
      modifies points, points.vbo, points.gpu
      ensures Valid() && unchanged(lines, triangles)
      ensures points.appended == old(points.appended) + [Sized(p, color, size)]
      ensures 1 <= points.count
      ensures Extends(points.gpu.log, old(points.gpu.log), {Points}, points.cam.center)
      ensures Records(points.gpu.log, old(points.gpu.log), Points, points.drawn, old(points.drawn))
    {
      points.Vertex(Sized(p, color, size));
    }

    /** Flush: triangles, then lines, then points; all three end empty. */
    method Flush()
      requires Valid()
      modifies points, lines, triangles, lines.gpu
      ensures Valid()
      ensures points.count == 0 && lines.count == 0 && triangles.count == 0
      ensures lines.gpu.log == old(lines.gpu.log)
                               + FlushCalls(Triangles, old(triangles.Pending()), lines.cam.center)
                               + FlushCalls(Lines, old(lines.Pending()), lines.cam.center)
                               + FlushCalls(Points, old(points.Pending()), lines.cam.center)
      ensures points.appended == old(points.appended) && lines.appended == old(lines.appended)
      ensures triangles.appended == old(triangles.appended)
      ensures Records(lines.gpu.log, old(lines.gpu.log), Triangles, triangles.drawn, old(triangles.drawn))
      ensures Records(lines.gpu.log, old(lines.gpu.log), Lines, lines.drawn, old(lines.drawn))
      ensures Records(lines.gpu.log, old(lines.gpu.log), Points, points.drawn, old(points.drawn))
    {
      triangles.Flush();
      ghost var log1 := lines.gpu.log;
      lines.Flush();
      ghost var log2 := lines.gpu.log;
      points.Flush();
      FlushRecords(old(lines.gpu.log), log1, log2, lines.gpu.log,
                   old(triangles.drawn), triangles.drawn, old(lines.drawn), lines.drawn,
                   old(points.drawn), points.drawn);
    }
  }

  /** A segment that exactly fills the line buffer draws nothing: the 1024
      vertices wait for the next Vertex call or for Flush. */
  method SegmentFillsLineBuffer(d: DebugDraw, p1: Vec2, p2: Vec2, color: Color)
    requires d.Valid() && d.lines.count == Capacity(Lines) - 2
    modifies d.lines, d.lines.vbo, d.lines.gpu
    ensures d.Valid() && d.lines.count == Capacity(Lines)
    ensures d.lines.gpu.log == old(d.lines.gpu.log) && d.lines.drawn == old(d.lines.drawn)
    ensures d.lines.Pending() == old(d.lines.Pending()) + [Colored(p1, color), Colored(p2, color)]
  {
    d.DrawSegment(p1, p2, color);
    NoEagerDraw(d.lines.gpu.log, old(d.lines.gpu.log), Lines, d.lines.cam.center,
                d.lines.drawn, old(d.lines.drawn), d.lines.Pending(), old(d.lines.Pending()),
                [Colored(p1, color), Colored(p2, color)]);
  }

  /** Every triangle draw logged since log0 comes before every other draw:
      the fill loops run before the outline loops. */
  ghost predicate TrianglesFirst(log: seq<DrawCall>, log0: seq<DrawCall>)
  {
    forall j, k :: |log0| <= j < k < |log| && log[k].mode == Triangles ==> log[j].mode == Triangles
  }

  /** Triangle draws (log0 to log1) followed by line draws (log1 to log2):
      each of the two batches' records agrees with the whole log. */
  lemma OtherTopologies(log2: seq<DrawCall>, log1: seq<DrawCall>, log0: seq<DrawCall>, center: Vec2,
                        ldrawn: seq<VertexData>, ldrawn0: seq<VertexData>,
                        tdrawn: seq<VertexData>, tdrawn0: seq<VertexData>)
    requires Extends(log1, log0, {Triangles}, center) && Extends(log2, log1, {Lines}, center)
    requires Records(log1, log0, Triangles, tdrawn, tdrawn0)
    requires Records(log2, log1, Lines, ldrawn, ldrawn0)
    ensures Records(log2, log0, Triangles, tdrawn, tdrawn0)
    ensures Records(log2, log0, Lines, ldrawn, ldrawn0)
    ensures TrianglesFirst(log2, log0)
  {
    RecordsOther(log2, log1, Triangles, tdrawn);
    RecordsTrans(log2, log1, log0, Triangles, tdrawn, tdrawn, tdrawn0);
    RecordsOther(log1, log0, Lines, ldrawn0);
    RecordsTrans(log2, log1, log0, Lines, ldrawn, ldrawn0, ldrawn0);
  }

  /** The triangle, line and point flushes of DebugDraw::Flush, in that
      order: every batch's record agrees with the whole log. */
  lemma FlushRecords(log0: seq<DrawCall>, log1: seq<DrawCall>, log2: seq<DrawCall>, log3: seq<DrawCall>,
                     t0: seq<VertexData>, t1: seq<VertexData>, l0: seq<VertexData>, l1: seq<VertexData>,
                     p0: seq<VertexData>, p1: seq<VertexData>)
    requires Records(log1, log0, Triangles, t1, t0)
    requires Records(log2, log1, Lines, l1, l0)
    requires Records(log3, log2, Points, p1, p0)
    requires forall k :: |log0| <= k < |log1| ==> log1[k].mode == Triangles
    requires forall k :: |log1| <= k < |log2| ==> log2[k].mode == Lines
    requires forall k :: |log2| <= k < |log3| ==> log3[k].mode == Points
    ensures Records(log3, log0, Triangles, t1, t0)
    ensures Records(log3, log0, Lines, l1, l0)
    ensures Records(log3, log0, Points, p1, p0)
  {
    assert forall k :: |log1| <= k < |log2| ==> log3[k] == log2[k];
    assert forall k :: |log0| <= k < |log1| ==> log2[k] == log1[k];
    RecordsOther(log3, log1, Triangles, t1);
    RecordsTrans(log3, log1, log0, Triangles, t1, t1, t0);
    RecordsOther(log1, log0, Lines, l0);
    RecordsTrans(log2, log1, log0, Lines, l1, l0, l0);
    RecordsOther(log3, log2, Lines, l1);
    RecordsTrans(log3, log2, log0, Lines, l1, l1, l0);
    RecordsOther(log2, log0, Points, p0);
    RecordsTrans(log3, log2, log0, Points, p1, p0, p0);
  }

  lemma Snoc3<T>(s: seq<T>, a: T, b: T, c: T)
    ensures s + [a] + [b] + [c] == s + [a, b, c]
  {
  }
}
