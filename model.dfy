/** MonoWorks.Model sketch geometry: Sketchable (the base of every sketch entity) and Line.
    OpenGL is represented by the trace of calls it receives. */
module Model {

  datatype Vector = Vector(x: real, y: real, z: real)

  /** A sketch point; only its conversion to a vector matters here. */
  datatype Point = Point(x: real, y: real, z: real)
  {
    function ToVector(): Vector { Vector(x, y, z) }
  }

  datatype Primitive = LineStrip

  /** The OpenGL calls a sketchable issues. */
  datatype GlCall = Color3(r: real, g: real, b: real) | Begin(mode: Primitive) | Vertex3(x: real, y: real, z: real) | End

  /** The current OpenGL context, reduced to the calls it has received. */
  class GlTrace {
    var calls: seq<GlCall>

    constructor()
      ensures calls == []
    {
      calls := [];
    }
  }

  /** One glVertex3d per point, in order. */
  function VertexCalls(points: seq<Vector>): seq<GlCall>
  {
    if |points| == 0 then []
    else VertexCalls(points[..|points| - 1]) + [Vertex3(points[|points| - 1].x, points[|points| - 1].y, points[|points| - 1].z)]
  }

  /** Drawing emits exactly one vertex per point, with that point's coordinates, in order. */
  lemma {:induction false} VertexCallsAt(points: seq<Vector>, k: nat)
    requires k < |points|
    ensures |VertexCalls(points)| == |points|
    ensures VertexCalls(points)[k] == Vertex3(points[k].x, points[k].y, points[k].z)
  {
    var n := |points|;
    if k < n - 1 {
      VertexCallsAt(points[..n - 1], k);
    } else if n > 1 {
      VertexCallsAt(points[..n - 1], 0);
    }
  }

  /** What Render emits around the vertices: white, a line strip, the vertices, the end. */
  function RenderCalls(points: seq<Vector>): seq<GlCall>
  {
    [Color3(1.0, 1.0, 1.0), Begin(LineStrip)] + VertexCalls(points) + [End]
  }

  /** An axis-aligned bounding box, or none when nothing has been added yet. */
  datatype Bounds = Unset | Box(lo: Vector, hi: Vector)

  function Min(a: real, b: real): real { if a <= b then a else b }
  function Max(a: real, b: real): real { if a >= b then a else b }

  /** Bounds.Resize(v): grow the box so that it holds v. */
  function Resize(b: Bounds, v: Vector): (r: Bounds)
    ensures Holds(r, v)
    ensures Encloses(r, b)
  {
    match b
    case Unset => Box(v, v)
    case Box(lo, hi) =>
      Box(Vector(Min(lo.x, v.x), Min(lo.y, v.y), Min(lo.z, v.z)),
          Vector(Max(hi.x, v.x), Max(hi.y, v.y), Max(hi.z, v.z)))
  }

  predicate Holds(b: Bounds, v: Vector)
  {
    b.Box? && b.lo.x <= v.x <= b.hi.x && b.lo.y <= v.y <= b.hi.y && b.lo.z <= v.z <= b.hi.z
  }

  /** `outer` reaches at least as far as `inner` in every direction, so it holds every point
      that `inner` holds. */
  predicate Encloses(outer: Bounds, inner: Bounds)
  {
    inner.Unset? ||
    (outer.Box? &&
     outer.lo.x <= inner.lo.x && outer.lo.y <= inner.lo.y && outer.lo.z <= inner.lo.z &&
     inner.hi.x <= outer.hi.x && inner.hi.y <= outer.hi.y && inner.hi.z <= outer.hi.z)
  }

  lemma EnclosesHolds(outer: Bounds, inner: Bounds, v: Vector)
    requires Encloses(outer, inner) && Holds(inner, v)
    ensures Holds(outer, v)
  {
  }

  lemma EnclosesTransitive(a: Bounds, b: Bounds, c: Bounds)
    requires Encloses(a, b) && Encloses(b, c)
    ensures Encloses(a, c)
  {
  }

  function ToVectors(points: seq<Point>): (r: seq<Vector>)
    ensures |r| == |points|
    ensures forall i :: 0 <= i < |points| ==> r[i] == points[i].ToVector()
  {
    seq(|points|, i requires 0 <= i < |points| => points[i].ToVector())
  }

  /** The base of all sketch entities: the arrays of points to draw. */
  class Sketchable {
    var solidPoints: array<Vector>
    var wireframePoints: array<Vector>

    /** A new sketchable has nothing to draw. */
    constructor()
      ensures fresh(solidPoints) && fresh(wireframePoints)
      ensures solidPoints.Length == 0 && wireframePoints.Length == 0
    {
      solidPoints := new Vector[0];
      wireframePoints := new Vector[0];
    }

    /** The SolidPoints getter. */
    function SolidPoints(): array<Vector>
      reads this
    {
      solidPoints
    }

    /** The WireframePoints getter. */
    function WireframePoints(): array<Vector>
      reads this
    {
      wireframePoints
    }

    /** One vertex per solid point, in array order. */
    method DrawVertices(gl: GlTrace)
      modifies gl
      ensures gl.calls == old(gl.calls) + VertexCalls(solidPoints[..])
    {
      var i := 0;
      while i < solidPoints.Length
        invariant 0 <= i <= solidPoints.Length
        invariant gl.calls == old(gl.calls) + VertexCalls(solidPoints[..i])
      {
        var v := solidPoints[i];
        assert solidPoints[..i + 1][..i] == solidPoints[..i];
        gl.calls := gl.calls + [Vertex3(v.x, v.y, v.z)];
        i := i + 1;
      }
      assert solidPoints[..i] == solidPoints[..];
    }

    /** White, a line strip, the vertices, the end. */
    method Render(gl: GlTrace)
      modifies gl
      ensures gl.calls == old(gl.calls) + RenderCalls(solidPoints[..])
    {
      gl.calls := gl.calls + [Color3(1.0, 1.0, 1.0)];
      gl.calls := gl.calls + [Begin(LineStrip)];
      DrawVertices(gl);
      gl.calls := gl.calls + [End];
    }
  }

  /** A freshly constructed sketchable draws no vertices. */
  method FreshSketchableDrawsNothing() returns (calls: seq<GlCall>)
    ensures calls == []
  {
    var s := new Sketchable();
    var gl := new GlTrace();
    s.DrawVertices(gl);
    calls := gl.calls;
  }

  /** A line through a list of points. The Sketchable part is `shape`; each momento is
      reduced to its "points" entry, and `current` is the index of the current momento. */
  class Line {
    const shape: Sketchable
    var momentos: seq<seq<Point>>
    var current: nat
    var bounds: Bounds

    ghost predicate Valid()
      reads this
    {
      current < |momentos|
    }

    /** The points of the current momento. */
    function Points(): seq<Point>
      reads this
      requires Valid()
    {
      momentos[current]
    }

    /** A line with no points yet: the first momento, made through AddMomento, holds an empty
        list of points. */
    constructor Empty()
      ensures Valid() && fresh(shape) && fresh(shape.solidPoints) && fresh(shape.wireframePoints)
      ensures momentos == [[]] && Points() == [] && bounds == Unset
      ensures shape.solidPoints.Length == 0 && shape.wireframePoints.Length == 0
    {
      shape := new Sketchable();
      momentos := [[]];
      current := 0;
      bounds := Unset;
    }

    /** A line through p1 and p2, in that order. */
    constructor Through(p1: Point, p2: Point)
      ensures Valid() && fresh(shape) && fresh(shape.solidPoints) && fresh(shape.wireframePoints)
      ensures Points() == [p1, p2] && |momentos| == 1 && bounds == Unset
      ensures shape.solidPoints.Length == 0 && shape.wireframePoints.Length == 0
    {
      shape := new Sketchable();
      momentos := [[p1, p2]];
      current := 0;
      bounds := Unset;
    }

    /** Appends a momento whose points list is empty; the current momento stays the same. */
    method AddMomento()
      requires Valid()
      modifies this
      ensures Valid()
      ensures momentos == old(momentos) + [[]]
      ensures current == old(current) && bounds == old(bounds) && Points() == old(Points())
    {
      momentos := momentos + [[]];
    }

    /** Points.Add(p): appends a point to the current momento's list. */
    method AddPoint(p: Point)
      requires Valid()
      modifies this
      ensures Valid() && current == old(current) && bounds == old(bounds)
      ensures Points() == old(Points()) + [p]
      ensures |momentos| == |old(momentos)|
      ensures forall i :: 0 <= i < |momentos| && i != current ==> momentos[i] == old(momentos[i])
    {
      momentos := momentos[current := momentos[current] + [p]];
    }

    /** Fills a new solid array with the points' vectors, in order, growing the bounds so that
        every one lies inside; the wireframe array is the very same array. */
    method ComputeGeometry()
      requires Valid()
      modifies this`bounds, shape
      ensures fresh(shape.solidPoints)
      ensures shape.solidPoints[..] == ToVectors(Points())
      ensures shape.wireframePoints == shape.solidPoints
      ensures forall i :: 0 <= i < shape.solidPoints.Length ==> Holds(bounds, shape.solidPoints[i])
      ensures Encloses(bounds, old(bounds))
    {
      shape.solidPoints := new Vector[|Points()|];
      var i := 0;
      while i < |Points()|
        invariant 0 <= i <= |Points()| == shape.solidPoints.Length
        invariant fresh(shape.solidPoints)
        invariant forall k :: 0 <= k < i ==> shape.solidPoints[k] == Points()[k].ToVector()
        invariant forall k :: 0 <= k < i ==> Holds(bounds, shape.solidPoints[k])
        invariant Encloses(bounds, old(bounds))
      {
        shape.solidPoints[i] := Points()[i].ToVector();
        ghost var before := bounds;
        bounds := Resize(bounds, shape.solidPoints[i]);
        forall k | 0 <= k < i ensures Holds(bounds, shape.solidPoints[k]) {
          EnclosesHolds(bounds, before, shape.solidPoints[k]);
        }
        EnclosesTransitive(bounds, before, old(bounds));
        i := i + 1;
      }
      // a line's wireframe array is its solid array
      shape.wireframePoints := shape.solidPoints;
    }

    /** Recomputes the geometry only when the number of points differs from the size of the
        solid array, then draws the solid array's vertices. */
    method DrawVertices(gl: GlTrace)
      requires Valid()
      modifies this`bounds, shape, gl
      ensures shape.solidPoints.Length == |Points()|
      ensures old(shape.solidPoints.Length) == |Points()| ==>
        shape.solidPoints == old(shape.solidPoints) && shape.wireframePoints == old(shape.wireframePoints) &&
        bounds == old(bounds)
      ensures old(shape.solidPoints.Length) != |Points()| ==>
        fresh(shape.solidPoints) && shape.solidPoints[..] == ToVectors(Points()) &&
        shape.wireframePoints == shape.solidPoints
      ensures shape.solidPoints[..] == old(shape.solidPoints[..]) || fresh(shape.solidPoints)
      ensures gl.calls == old(gl.calls) + VertexCalls(shape.solidPoints[..])
    {
      if |Points()| != shape.solidPoints.Length {
        ComputeGeometry();
      }
      shape.DrawVertices(gl);
    }

    /** Sketchable.Render, dispatching to this line's DrawVertices. */
    method Render(gl: GlTrace)
      requires Valid()
      modifies this`bounds, shape, gl
      ensures shape.solidPoints.Length == |Points()|
      ensures gl.calls == old(gl.calls) + RenderCalls(shape.solidPoints[..])
    {
      gl.calls := gl.calls + [Color3(1.0, 1.0, 1.0)];
      gl.calls := gl.calls + [Begin(LineStrip)];
      DrawVertices(gl);
      gl.calls := gl.calls + [End];
    }
  }
}
