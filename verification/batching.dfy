/** The three capacity-bounded vertex batches (GLRenderPoints, GLRenderLines,
    GLRenderTriangles). They share one discipline, so one class models all
    three; `mode` says which one an instance is. */
module Batching {
  import opened Geometry
  import opened Projection

  /** The primitive topology a batch draws with. */
  datatype Mode = Points | Lines | Triangles

  /** vNumMax of each batch. */
  function Capacity(mode: Mode): (n: nat)
  {
    match mode
    case Points => 512
    case Lines => 512 * 2
    case Triangles => 512 * 3
  }

  /** One glDrawArrays call: its topology, the vertices uploaded for it, and
      the camera centre its projection uniform was built from. */
  datatype DrawCall = DrawCall(mode: Mode, vertices: seq<VertexData>, center: Vec2)

  /** The GL context, reduced to the draws it has been asked to make. */
  class Gpu {
    ghost var log: seq<DrawCall>

    constructor ()
      ensures log == []
    {
      log := [];
    }
  }

  /** The concatenation of a sequence of batches. */
  function Concat<V>(ss: seq<seq<V>>): (s: seq<V>)
  {
    if ss == [] then [] else ss[0] + Concat(ss[1..])
  }

  lemma {:induction false} ConcatAppend<V>(a: seq<seq<V>>, b: seq<seq<V>>)
    ensures Concat(a + b) == Concat(a) + Concat(b)
  {
    if a == [] {
      assert a + b == b;
    } else {
      assert (a + b)[1..] == a[1..] + b;
      ConcatAppend(a[1..], b);
    }
  }

  /** The draw call an explicit Flush issues: none for an empty buffer. */
  function FlushCalls(mode: Mode, pending: seq<VertexData>, center: Vec2): (calls: seq<DrawCall>)
  {
    if pending == [] then [] else [DrawCall(mode, pending, center)]
  }

  /** The shape each batch stores: point vertices carry a size, line and
      triangle vertices do not. */
  predicate Fits(mode: Mode, v: VertexData)
  {
    v.Sized? <==> mode == Points
  }

  /** `log` is `log0` followed only by automatic flushes, that is draws of a
      full buffer, in one of `modes` under `center`. */
  ghost predicate Extends(log: seq<DrawCall>, log0: seq<DrawCall>, modes: set<Mode>, center: Vec2)
  {
    log0 <= log &&
    forall k :: |log0| <= k < |log| ==>
      log[k].mode in modes && log[k].center == center && |log[k].vertices| == Capacity(log[k].mode)
  }

  lemma ExtendsTrans(l2: seq<DrawCall>, l1: seq<DrawCall>, l0: seq<DrawCall>, m1: set<Mode>, m2: set<Mode>, center: Vec2)
    requires Extends(l2, l1, m2, center) && Extends(l1, l0, m1, center)
    requires m1 <= m2
    ensures Extends(l2, l0, m2, center)
  {
    forall k | |l0| <= k < |l2|
      ensures l2[k].mode in m2 && l2[k].center == center && |l2[k].vertices| == Capacity(l2[k].mode)
    {
      if k < |l1| {
        assert l2[k] == l1[k];
      }
    }
  }

  /** The vertex lists of the draws in `log` made with topology `mode`, in log order. */
  function Uploads(log: seq<DrawCall>, mode: Mode): (r: seq<seq<VertexData>>)
    ensures |r| <= |log|
  {
    if log == [] then []
    else
      var last := log[|log| - 1];
      Uploads(log[..|log| - 1], mode) + (if last.mode == mode then [last.vertices] else [])
  }

  lemma {:induction false} UploadsAppend(a: seq<DrawCall>, b: seq<DrawCall>, mode: Mode)
    ensures Uploads(a + b, mode) == Uploads(a, mode) + Uploads(b, mode)
    decreases |b|
  {
    if b == [] {
      assert a + b == a;
    } else {
      var b' := b[..|b| - 1];
      assert (a + b)[..|a + b| - 1] == a + b';
      assert (a + b)[|a + b| - 1] == b[|b| - 1];
      UploadsAppend(a, b', mode);
    }
  }

  /** The draws of topology `mode` logged since `log0` carry exactly the
      vertices added to `drawn` since `drawn0`, in the same order: the ghost
      record of a batch's draws agrees with the GL context's log. */
  ghost predicate Records(log: seq<DrawCall>, log0: seq<DrawCall>, mode: Mode,
                          drawn: seq<VertexData>, drawn0: seq<VertexData>)
  {
    log0 <= log && drawn == drawn0 + Concat(Uploads(log[|log0|..], mode))
  }

  lemma {:induction false} RecordsTrans(l2: seq<DrawCall>, l1: seq<DrawCall>, l0: seq<DrawCall>, mode: Mode,
                                        d2: seq<VertexData>, d1: seq<VertexData>, d0: seq<VertexData>)
    requires Records(l2, l1, mode, d2, d1) && Records(l1, l0, mode, d1, d0)
    ensures Records(l2, l0, mode, d2, d0)
  {
    var a, b := l1[|l0|..], l2[|l1|..];
    assert l2[|l0|..] == a + b;
    var ua, ub := Uploads(a, mode), Uploads(b, mode);
    UploadsAppend(a, b, mode);
    ConcatAppend(ua, ub);
    var ca, cb := Concat(ua), Concat(ub);
    assert d1 == d0 + ca && d2 == d1 + cb;
    AppendAssoc(d0, ca, cb);
  }

  lemma AppendAssoc<T>(x: seq<T>, y: seq<T>, z: seq<T>)
    ensures (x + y) + z == x + (y + z)
  {
  }

  /** What a record promises a caller: the drawn vertices only grow, and
      with no new draw nothing new was drawn. */
  lemma RecordsGrow(log: seq<DrawCall>, log0: seq<DrawCall>, mode: Mode, drawn: seq<VertexData>, drawn0: seq<VertexData>)
    requires Records(log, log0, mode, drawn, drawn0)
    ensures drawn0 <= drawn
    ensures log == log0 ==> drawn == drawn0
  {
    if log == log0 {
      assert log[|log0|..] == [];
    }
  }

  /** Draws of other topologies leave a batch's record untouched. */
  lemma {:induction false} RecordsOther(log: seq<DrawCall>, log0: seq<DrawCall>, mode: Mode, drawn: seq<VertexData>)
    requires log0 <= log && forall k :: |log0| <= k < |log| ==> log[k].mode != mode
    ensures Records(log, log0, mode, drawn, drawn)
  {
    var tail := log[|log0|..];
    assert forall k :: 0 <= k < |tail| ==> tail[k] == log[|log0| + k];
    NoUploads(tail, mode);
  }

  lemma {:induction false} NoUploads(log: seq<DrawCall>, mode: Mode)
    requires forall k :: 0 <= k < |log| ==> log[k].mode != mode
    ensures Uploads(log, mode) == []
    decreases |log|
  {
    if log != [] {
      NoUploads(log[..|log| - 1], mode);
    }
  }

  /** Logging one draw records exactly its vertices. */
  lemma {:induction false} RecordsOne(log0: seq<DrawCall>, call: DrawCall, drawn0: seq<VertexData>)
    ensures Records(log0 + [call], log0, call.mode, drawn0 + call.vertices, drawn0)
  {
    assert (log0 + [call])[|log0|..] == [call];
    assert [call][..0] == [];
    assert Concat([call.vertices]) == call.vertices + Concat([]);
  }

  /** The draw calls issued for a sequence of batches' worth of vertices. */
  function Calls(mode: Mode, draws: seq<seq<VertexData>>, center: Vec2): (calls: seq<DrawCall>)
    ensures |calls| == |draws|
    ensures forall k :: 0 <= k < |calls| ==> calls[k] == DrawCall(mode, draws[k], center)
  {
    seq(|draws|, k requires 0 <= k < |draws| => DrawCall(mode, draws[k], center))
  }

  /** Automatic draws are full, so any of them adds a whole buffer to the record. */
  lemma {:induction false} DrawsAreFull(log: seq<DrawCall>, log0: seq<DrawCall>, mode: Mode, center: Vec2,
                                        drawn: seq<VertexData>, drawn0: seq<VertexData>)
    requires Extends(log, log0, {mode}, center) && Records(log, log0, mode, drawn, drawn0)
    ensures log != log0 ==> |drawn| >= |drawn0| + Capacity(mode)
  {
    if log != log0 {
      var tail := log[|log0|..];
      var init, last := tail[..|tail| - 1], tail[|tail| - 1];
      assert last == log[|log| - 1];
      assert Uploads(tail, mode) == Uploads(init, mode) + [last.vertices];
      ConcatAppend(Uploads(init, mode), [last.vertices]);
      assert Concat([last.vertices]) == last.vertices + Concat([]);
    }
  }

  /** No eager flush: when the old pending vertices and the new ones fit in
      the buffer and the batch still holds a vertex, nothing was drawn and
      everything is pending. The flush waits for the call that finds the
      buffer full. */
  lemma NoEagerDraw(log: seq<DrawCall>, log0: seq<DrawCall>, mode: Mode, center: Vec2,
                    drawn: seq<VertexData>, drawn0: seq<VertexData>,
                    pending: seq<VertexData>, pending0: seq<VertexData>, added: seq<VertexData>)
    requires Extends(log, log0, {mode}, center) && Records(log, log0, mode, drawn, drawn0)
    requires drawn + pending == drawn0 + pending0 + added
    requires 1 <= |pending| && |pending0| + |added| <= Capacity(mode)
    ensures log == log0 && drawn == drawn0 && pending == pending0 + added
  {
    DrawsAreFull(log, log0, mode, center, drawn, drawn0);
    if log == log0 {
      assert log[|log0|..] == [];
      AppendAssoc(drawn0, pending0, added);
      assert pending == (drawn0 + pending)[|drawn0|..];
    }
  }

  /** Logging the draws of one topology records exactly their vertices, in order. */
  lemma {:induction false} RecordsCalls(log0: seq<DrawCall>, mode: Mode, ds: seq<seq<VertexData>>, center: Vec2,
                                        drawn0: seq<VertexData>)
    ensures Records(log0 + Calls(mode, ds, center), log0, mode, drawn0 + Concat(ds), drawn0)
  {
    assert (log0 + Calls(mode, ds, center))[|log0|..] == Calls(mode, ds, center);
    UploadsCalls(mode, ds, center);
  }

  lemma {:induction false} UploadsCalls(mode: Mode, ds: seq<seq<VertexData>>, center: Vec2)
    ensures Uploads(Calls(mode, ds, center), mode) == ds
    decreases |ds|
  {
    if ds != [] {
      var calls, init := Calls(mode, ds, center), ds[..|ds| - 1];
      assert calls[..|calls| - 1] == Calls(mode, init, center);
      UploadsCalls(mode, init, center);
      assert ds == init + [ds[|ds| - 1]];
    }
  }

  /** The draws a buffer issues for some Vertex or Flush calls, and what it holds afterwards. */
  datatype Outcome<V> = Outcome(draws: seq<seq<V>>, pending: seq<V>)

  /** One Vertex call on a buffer of capacity `cap` holding `pending`: a full
      buffer is drawn first, then the vertex is stored. */
  function Push<V>(cap: nat, pending: seq<V>, v: V): (o: Outcome<V>)
    requires 0 < cap && |pending| <= cap
    ensures Concat(o.draws) + o.pending == pending + [v]
    ensures 1 <= |o.pending| <= cap
    ensures |pending| == cap ==> o.draws == [pending] && o.pending == [v]
    ensures |pending| < cap ==> o.draws == [] && o.pending == pending + [v]
  {
    if |pending| == cap then Outcome([pending], [v]) else Outcome([], pending + [v])
  }

  /** A run of Vertex calls with no explicit Flush between them. */
  function Feed<V>(cap: nat, pending: seq<V>, vs: seq<V>): (o: Outcome<V>)
    requires 0 < cap && |pending| <= cap
    ensures Concat(o.draws) + o.pending == pending + vs
    ensures |o.pending| <= cap
    ensures vs != [] ==> 1 <= |o.pending|
    ensures forall i :: 0 <= i < |o.draws| ==> |o.draws[i]| == cap
    decreases |vs|
  {
    if vs == [] then Outcome([], pending)
    else
      var s := Push(cap, pending, vs[0]);
      var rest := Feed(cap, s.pending, vs[1..]);
      FeedStep(pending, vs, s.draws, s.pending, rest.draws, rest.pending);
      Outcome(s.draws + rest.draws, rest.pending)
  }

  /** The bookkeeping step of Feed: gluing one Push to the rest of the run. */
  lemma FeedStep<V>(pending: seq<V>, vs: seq<V>, d1: seq<seq<V>>, p1: seq<V>, d2: seq<seq<V>>, p2: seq<V>)
    requires vs != []
    requires Concat(d1) + p1 == pending + [vs[0]]
    requires Concat(d2) + p2 == p1 + vs[1..]
    ensures Concat(d1 + d2) + p2 == pending + vs
  {
    ConcatAppend(d1, d2);
    var c1, c2 := Concat(d1), Concat(d2);
    AppendAssoc(c1, c2, p2);
    AppendAssoc(c1, p1, vs[1..]);
    AppendAssoc(pending, [vs[0]], vs[1..]);
    assert [vs[0]] + vs[1..] == vs;
  }

  /** While the buffer has room, Vertex calls only accumulate. */
  lemma {:induction false} FeedWithinCapacity<V>(cap: nat, pending: seq<V>, vs: seq<V>)
    requires 0 < cap && |pending| + |vs| <= cap
    ensures Feed(cap, pending, vs) == Outcome([], pending + vs)
    decreases |vs|
  {
    if vs != [] {
      FeedWithinCapacity(cap, pending + [vs[0]], vs[1..]);
      AppendAssoc(pending, [vs[0]], vs[1..]);
      assert [vs[0]] + vs[1..] == vs;
    }
  }

  /** A run that overfills the buffer once, and by no more than its
      capacity, makes exactly one automatic draw: of the first cap vertices
      of what was pending followed by the run. */
  lemma {:induction false} FeedOverflowFrom<V>(cap: nat, pending: seq<V>, vs: seq<V>)
    requires 0 < cap && |pending| <= cap < |pending| + |vs| <= 2 * cap
    ensures Feed(cap, pending, vs) == Outcome([(pending + vs)[..cap]], (pending + vs)[cap..])
    decreases |vs|
  {
    if |pending| == cap {
      assert Feed(cap, pending, vs) == Outcome([pending], vs) by {
        FeedWithinCapacity(cap, [vs[0]], vs[1..]);
        assert [vs[0]] + vs[1..] == vs;
      }
      assert (pending + vs)[..cap] == pending && (pending + vs)[cap..] == vs;
    } else {
      assert Feed(cap, pending, vs) == Feed(cap, pending + [vs[0]], vs[1..]) by {
        var rest := Feed(cap, pending + [vs[0]], vs[1..]);
        assert [] + rest.draws == rest.draws;
      }
      FeedOverflowFrom(cap, pending + [vs[0]], vs[1..]);
      assert pending + [vs[0]] + vs[1..] == pending + vs;
    }
  }

  /** From an empty buffer, cap + k Vertex calls (1 <= k <= cap) make exactly
      one automatic draw, of the first cap vertices, and leave the last k pending. */
  lemma FeedOverflow<V>(cap: nat, vs: seq<V>)
    requires 0 < cap < |vs| <= 2 * cap
    ensures Feed(cap, [], vs) == Outcome([vs[..cap]], vs[cap..])
  {
    FeedOverflowFrom(cap, [], vs);
    assert [] + vs == vs;
  }

  /** 513 points into the 512-point buffer: one draw of the first 512, one left. */
  lemma PointOverflowScenario<V>(vs: seq<V>)
    requires |vs| == 513
    ensures Feed(Capacity(Points), [], vs) == Outcome([vs[..512]], [vs[512]])
  {
    FeedOverflow(Capacity(Points), vs);
    assert vs[512..] == [vs[512]];
  }

  /** A run followed by one more Vertex call: the last call is a Push on
      what the run left pending. This is how a loop of Vertex calls follows Feed. */
  lemma {:induction false} FeedSnoc<V>(cap: nat, pending: seq<V>, vs: seq<V>, v: V)
    requires 0 < cap && |pending| <= cap
    ensures var o := Feed(cap, pending, vs);
            var s := Push(cap, o.pending, v);
            Feed(cap, pending, vs + [v]) == Outcome(o.draws + s.draws, s.pending)
    decreases |vs|
  {
    if vs == [] {
      assert vs + [v] == [v];
      var s := Push(cap, pending, v);
      assert Feed(cap, s.pending, []) == Outcome([], s.pending);
      assert s.draws + [] == [] + s.draws;
    } else {
      var s := Push(cap, pending, vs[0]);
      assert (vs + [v])[0] == vs[0] && (vs + [v])[1..] == vs[1..] + [v];
      FeedSnoc(cap, s.pending, vs[1..], v);
      var r := Feed(cap, s.pending, vs[1..]);
      var t := Push(cap, r.pending, v);
      AppendAssoc(s.draws, r.draws, t.draws);
    }
  }

  /** A batch that started with `p0` pending, `drawn0` drawn and `log0` logged
      and then received `run` is where Feed says: `pending` is Feed's pending
      part, and its automatic draws were both recorded and logged. */
  ghost predicate Follows(cap: nat, p0: seq<VertexData>, run: seq<VertexData>, mode: Mode, center: Vec2,
                          log0: seq<DrawCall>, drawn0: seq<VertexData>,
                          pending: seq<VertexData>, log: seq<DrawCall>, drawn: seq<VertexData>)
    requires 0 < cap && |p0| <= cap
  {
    var o := Feed(cap, p0, run);
    pending == o.pending && drawn == drawn0 + Concat(o.draws) && log == log0 + Calls(mode, o.draws, center)
  }

  /** One more Vertex call keeps a batch in step with Feed: the bookkeeping
      of VertexAll's loop, stated on values. */
  lemma FeedLoopStep(cap: nat, p0: seq<VertexData>, vs: seq<VertexData>, i: nat, mode: Mode, center: Vec2,
                     log0: seq<DrawCall>, drawn0: seq<VertexData>,
                     pending: seq<VertexData>, log: seq<DrawCall>, drawn: seq<VertexData>,
                     pending': seq<VertexData>, log': seq<DrawCall>, drawn': seq<VertexData>)
    requires 0 < cap && |p0| <= cap && i < |vs|
    requires Follows(cap, p0, vs[..i], mode, center, log0, drawn0, pending, log, drawn)
    requires |pending| < cap ==> pending' == pending + [vs[i]] && drawn' == drawn && log' == log
    requires |pending| == cap ==>
               pending' == [vs[i]] && drawn' == drawn + pending && log' == log + [DrawCall(mode, pending, center)]
    ensures Follows(cap, p0, vs[..i + 1], mode, center, log0, drawn0, pending', log', drawn')
  {
    var o := Feed(cap, p0, vs[..i]);
    var step := Push(cap, o.pending, vs[i]);
    FeedSnoc(cap, p0, vs[..i], vs[i]);
    assert vs[..i + 1] == vs[..i] + [vs[i]];
    ConcatAppend(o.draws, step.draws);
    if |pending| == cap {
      assert Concat(step.draws) == pending + Concat([]);
      assert Calls(mode, o.draws + step.draws, center) == Calls(mode, o.draws, center) + [DrawCall(mode, pending, center)];
      AppendAssoc(drawn0, Concat(o.draws), pending);
      AppendAssoc(log0, Calls(mode, o.draws, center), [DrawCall(mode, pending, center)]);
    } else {
      assert o.draws + step.draws == o.draws;
    }
  }

  /** A vertex batch. `appended` is every vertex handed to Vertex since
      creation and `drawn` the concatenation of every batch this buffer has
      drawn; Valid says that nothing was dropped and order was kept. */
  class Batch {
    const mode: Mode
    const vbo: array<VertexData>
    var count: nat
    const cam: Camera
    const gpu: Gpu
    ghost var appended: seq<VertexData>
    ghost var drawn: seq<VertexData>

    ghost predicate Valid()
      reads this, vbo
    {
      vbo.Length == Capacity(mode) &&
      count <= vbo.Length &&
      appended == drawn + vbo[..count] &&
      forall k :: 0 <= k < |appended| ==> Fits(mode, appended[k])
    }

    /** The vertices waiting for the next draw. */
    ghost function Pending(): (pending: seq<VertexData>)
      reads this, vbo
      requires count <= vbo.Length
    {
      vbo[..count]
    }

    /** Create: storage for Capacity(mode) vertices, nothing pending. */
    constructor Create(mode: Mode, cam: Camera, gpu: Gpu)
      ensures Valid() && fresh(vbo)
      ensures this.mode == mode && this.cam == cam && this.gpu == gpu
      ensures count == 0 && appended == [] && drawn == []
    {
      this.mode := mode;
      this.cam := cam;
      this.gpu := gpu;
      vbo := new VertexData[Capacity(mode)](_ => Colored(Vec2(0.0, 0.0), Color(0.0, 0.0, 0.0, 0.0)));
      count := 0;
      appended := [];
      drawn := [];
    }

    /** Flush: nothing when empty; otherwise one draw of exactly the pending
        vertices under the current camera centre, and the buffer is empty. */
    method Flush()
      requires Valid()
      modifies this, gpu
      ensures Valid() && count == 0
      ensures gpu.log == old(gpu.log) + FlushCalls(mode, old(Pending()), cam.center)
      ensures drawn == old(drawn) + old(Pending()) && appended == old(appended)
      ensures Records(gpu.log, old(gpu.log), mode, drawn, old(drawn))
    {
      if count == 0 {
        assert gpu.log[|gpu.log|..] == [];
        return;
      }
      RecordsOne(gpu.log, DrawCall(mode, vbo[..count], cam.center), drawn);
      gpu.log := gpu.log + [DrawCall(mode, vbo[..count], cam.center)];
      drawn := drawn + vbo[..count];
      count := 0;
    }

    /** Vertex: a full buffer is flushed first, then `v` is stored at the end. */
    method Vertex(v: VertexData)
      requires Valid() && Fits(mode, v)
      modifies this, vbo, gpu
      ensures Valid() && 1 <= count
      ensures appended == old(appended) + [v]
      ensures old(count) < vbo.Length ==>
                Pending() == old(Pending()) + [v] && drawn == old(drawn) && gpu.log == old(gpu.log)
      ensures old(count) == vbo.Length ==>
                Pending() == [v] && drawn == old(drawn) + old(Pending()) &&
                gpu.log == old(gpu.log) + [DrawCall(mode, old(Pending()), cam.center)]
      ensures Extends(gpu.log, old(gpu.log), {mode}, cam.center)
      ensures Records(gpu.log, old(gpu.log), mode, drawn, old(drawn))
    {
      if count == vbo.Length {
        Flush();
      } else {
        assert gpu.log[|gpu.log|..] == [];
      }
      vbo[count] := v;
      count := count + 1;
      appended := appended + [v];
      assert vbo[..count] == old(vbo[..count]) + [v] || old(count) == vbo.Length;
    }

    /** A run of Vertex calls: the batch draws and keeps exactly what Feed
        says, and every automatic draw reaches the log under the current centre. */
    method VertexAll(vs: seq<VertexData>)
      requires Valid()
      requires forall k :: 0 <= k < |vs| ==> Fits(mode, vs[k])
      modifies this, vbo, gpu
      ensures Valid() && appended == old(appended) + vs
      ensures var o := Feed(vbo.Length, old(Pending()), vs);
              Pending() == o.pending &&
              drawn == old(drawn) + Concat(o.draws) &&
              gpu.log == old(gpu.log) + Calls(mode, o.draws, cam.center)
      ensures Records(gpu.log, old(gpu.log), mode, drawn, old(drawn))
    {
      ghost var p0 := Pending();
      var i := 0;
      assert Follows(vbo.Length, p0, vs[..0], mode, cam.center, gpu.log, drawn, Pending(), gpu.log, drawn) by {
        assert vs[..0] == [];
      }
      while i < |vs|
        invariant 0 <= i <= |vs|
        invariant Valid()
        invariant Follows(vbo.Length, p0, vs[..i], mode, cam.center, old(gpu.log), old(drawn), Pending(), gpu.log, drawn)
      {
        ghost var pending, log, drawn0 := Pending(), gpu.log, drawn;
        Vertex(vs[i]);
        FeedLoopStep(vbo.Length, p0, vs, i, mode, cam.center, old(gpu.log), old(drawn),
                     pending, log, drawn0, Pending(), gpu.log, drawn);
        i := i + 1;
      }
      assert vs[..i] == vs;
      assert Follows(vbo.Length, p0, vs, mode, cam.center, old(gpu.log), old(drawn), Pending(), gpu.log, drawn);
      // Nothing dropped: what was appended is what was drawn and what is pending.
      ghost var o := Feed(vbo.Length, p0, vs);
      AppendAssoc(old(drawn), Concat(o.draws), o.pending);
      AppendAssoc(old(drawn), p0, vs);
      RecordsCalls(old(gpu.log), mode, o.draws, cam.center, old(drawn));
    }
  }

  /** 513 points handed to a fresh point batch: one automatic draw of the
      first 512 reaches the log, and the 513th is left pending alone. */
  method PointOverflowRun(cam: Camera, gpu: Gpu, vs: seq<VertexData>) returns (b: Batch)
    requires |vs| == 513 && forall k :: 0 <= k < |vs| ==> vs[k].Sized?
    modifies gpu
    ensures b.mode == Points && b.gpu == gpu && b.cam == cam && b.Valid()
    ensures b.Pending() == [vs[512]] && b.drawn == vs[..512] && b.appended == vs
    ensures gpu.log == old(gpu.log) + [DrawCall(Points, vs[..512], cam.center)]
  {
    b := new Batch.Create(Points, cam, gpu);
    b.VertexAll(vs);
    PointOverflowScenario(vs);
    assert Concat([vs[..512]]) == vs[..512] + Concat([]);
  }
}
