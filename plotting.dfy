/** MonoWorks.Plotting.AxesBox: the box that holds plots, their axes and grids, and decides
    how the plot ranges follow the user's navigation. */
module Plotting {

  import opened Outcomes

  datatype AxesArrangement = Origin | Outside

  datatype ResizeMode = Auto | Manual

  datatype ViewDirection = Standard | Front | Back | Left | Right | Top | Bottom

  /** The interactor's state; only Select2D is told apart by the axes box. */
  datatype InteractionState = Select2D | OtherState

  /** What the axes box reads from the viewport: the interactor's state and the camera's last
      view direction. */
  datatype ViewportState = ViewportState(state: InteractionState, lastDirection: ViewDirection)

  datatype Vec3 = Vec3(x: real, y: real, z: real)
  {
    function At(i: nat): real
      requires i < 3
    {
      if i == 0 then x else if i == 1 then y else z
    }

    function With(i: nat, v: real): (r: Vec3)
      requires i < 3
      ensures forall j :: 0 <= j < 3 ==> r.At(j) == if j == i then v else At(j)
    {
      if i == 0 then Vec3(v, y, z) else if i == 1 then Vec3(x, v, z) else Vec3(x, y, v)
    }
  }

  datatype Box = Box(minima: Vec3, maxima: Vec3)

  /** The box [-1, 1] in all three dimensions. */
  const UnitBox := Box(Vec3(-1.0, -1.0, -1.0), Vec3(1.0, 1.0, 1.0))

  /** A grid spans the plane of two axes. */
  datatype Grid = Grid(axis0: nat, axis1: nat, visible: bool, corner: Option<Vec3>)

  /** The kind of a plottable: not a plot, a plot (AbstractPlot), or a PointPlot with the names
      of its three columns. */
  datatype PlotKind = NonPlot | Plot | PointPlot(column0: string, column1: string, column2: string)
  {
    predicate IsPlot() { !NonPlot? }
  }

  /** A child of the axes box, reduced to what the box reads and writes. */
  class Plottable {
    const kind: PlotKind
    var parent: AxesBox?
    var isSelected: bool
    var selectionDescription: string

    constructor(kind: PlotKind, description: string)
      ensures this.kind == kind && parent == null && !isSelected && selectionDescription == description
    {
      this.kind := kind;
      parent := null;
      isSelected := false;
      selectionDescription := description;
    }
  }

  /** The OpenGL clip planes that are enabled. */
  class ClipPlanes {
    var enabled: set<int>

    constructor()
      ensures enabled == {}
    {
      enabled := {};
    }
  }

  /** The six clip planes of the box: 0 and 1 bound x, 2 and 3 bound y, 4 and 5 bound z. */
  const AllPlanes: set<int> := {0, 1, 2, 3, 4, 5}

  /** The planes numbered below n. */
  function PlanesBelow(n: int): set<int>
  {
    set i | i in AllPlanes && i < n
  }

  /** The clip planes that EnableClipping switches off again: in Select2D, the pair orthogonal
      to the view direction. */
  function DisabledPlanes(view: ViewportState): set<int>
  {
    if view.state != Select2D then {}
    else match view.lastDirection
      case Front | Back => {2, 3}
      case Left | Right => {0, 1}
      case Top | Bottom => {4, 5}
      case Standard => {}
  }

  /** The dimension across the screen in a side view direction, as OnViewportResized sizes it
      by the viewport's width: x from the front and the top, y from the side. */
  function WidthDim(direction: ViewDirection): nat
  {
    if direction.Left? || direction.Right? then 1 else 0
  }

  /** The dimension up the screen, sized by the viewport's height: z from the front and the
      side, y from the top. */
  function HeightDim(direction: ViewDirection): nat
  {
    if direction.Top? || direction.Bottom? then 1 else 2
  }

  /** The dimensions seen on screen; none in the standard (oblique) direction. */
  function VisibleDims(direction: ViewDirection): set<nat>
  {
    if direction == Standard then {} else {WidthDim(direction), HeightDim(direction)}
  }

  /** The dimension along the view direction, whose clip planes are switched off. */
  lemma DisabledPlanesAreDepth(view: ViewportState)
    requires view.state == Select2D && view.lastDirection != Standard
    ensures exists d :: 0 <= d < 3 && d !in VisibleDims(view.lastDirection) &&
                        DisabledPlanes(view) == {2 * d, 2 * d + 1}
  {
    match view.lastDirection
    case Front | Back => assert 1 !in VisibleDims(view.lastDirection);
    case Left | Right => assert 0 !in VisibleDims(view.lastDirection);
    case Top | Bottom => assert 2 !in VisibleDims(view.lastDirection);
  }

  /** The dimensions HandleZoom writes as the code is written: Top and Bottom write y and z,
      Left and Right write x and y. */
  function ZoomDimsAsWritten(direction: ViewDirection): set<nat>
  {
    match direction
    case Front | Back => {0, 2}
    case Top | Bottom => {1, 2}
    case Left | Right => {0, 1}
    case Standard => {}
  }

  /** As written, a zoom in the top view overwrites z, the dimension along the view (its clip
      planes 4 and 5 are the ones switched off), and leaves x, which is on screen, unchanged:
      the Top/Bottom and Left/Right branches hold each other's dimensions. */
  lemma ZoomAsWrittenWritesDepth()
    ensures DisabledPlanes(ViewportState(Select2D, Top)) == {4, 5}
    ensures 2 in ZoomDimsAsWritten(Top) && 2 !in VisibleDims(Top)
    ensures 0 !in ZoomDimsAsWritten(Top) && 0 in VisibleDims(Top)
    ensures ZoomDimsAsWritten(Top) == VisibleDims(Left) && ZoomDimsAsWritten(Left) == VisibleDims(Top)
  {
  }

  /** A point on screen. */
  datatype ScreenCoord = ScreenCoord(x: real, y: real)

  /** RenderTitle: the title sits horizontally centred over the projected corners of the box,
      32 above the highest of them. */
  method TitlePosition(corners: seq<ScreenCoord>) returns (position: ScreenCoord)
    requires |corners| > 0
    ensures exists i, j, k :: 0 <= i < |corners| && 0 <= j < |corners| && 0 <= k < |corners| &&
              position.y == corners[i].y + 32.0 &&
              position.x == (corners[j].x + corners[k].x) / 2.0 &&
              (forall m :: 0 <= m < |corners| ==> corners[m].y <= corners[i].y) &&
              (forall m :: 0 <= m < |corners| ==> corners[j].x <= corners[m].x <= corners[k].x)
  {
    var top, left, right := corners[0].y, corners[0].x, corners[0].x;
    ghost var ti, li, ri := 0, 0, 0;
    var n := 1;
    while n < |corners|
      invariant 1 <= n <= |corners|
      invariant 0 <= ti < n && 0 <= li < n && 0 <= ri < n
      invariant top == corners[ti].y && left == corners[li].x && right == corners[ri].x
      invariant forall m :: 0 <= m < n ==> corners[m].y <= top
      invariant forall m :: 0 <= m < n ==> left <= corners[m].x <= right
    {
      var coord := corners[n];
      if coord.y > top {
        top, ti := coord.y, n;
      }
      if coord.x < left {
        left, li := coord.x, n;
      }
      if coord.x > right {
        right, ri := coord.x, n;
      }
      n := n + 1;
    }
    position := ScreenCoord((left + right) / 2.0, top + 32.0);
  }

  /** The axes of the Origin arrangement: each runs from the lowest corner of the bounds along
      its own dimension, to the end of the bounds' range in that dimension. */
  function OriginAxes(bounds: Box): (axes: seq<(Vec3, Vec3)>)
    ensures |axes| == 3
    ensures forall i :: 0 <= i < 3 ==> axes[i].0 == bounds.minima
    ensures forall i :: 0 <= i < 3 ==> axes[i].1 == bounds.minima.With(i, bounds.maxima.At(i))
  {
    var lo, hi := bounds.minima, bounds.maxima;
    [(lo, Vec3(hi.x, lo.y, lo.z)), (lo, Vec3(lo.x, hi.y, lo.z)), (lo, Vec3(lo.x, lo.y, hi.z))]
  }

  /** `r` takes `lo`/`hi` in the dimensions `dims` and keeps `b` in the others. */
  ghost predicate ZoomedIn(r: Box, b: Box, dims: set<nat>, lo: Vec3, hi: Vec3)
  {
    forall i :: 0 <= i < 3 ==>
      r.minima.At(i) == (if i in dims then lo.At(i) else b.minima.At(i)) &&
      r.maxima.At(i) == (if i in dims then hi.At(i) else b.maxima.At(i))
  }

  /** List.Remove: drops the first occurrence of `x`, if any. */
  function RemoveFirst<T(==)>(s: seq<T>, x: T): seq<T>
  {
    if |s| == 0 then []
    else if s[0] == x then s[1..]
    else [s[0]] + RemoveFirst(s[1..], x)
  }

  lemma {:induction false} RemoveFirstAbsent<T>(s: seq<T>, x: T)
    requires x !in s
    ensures RemoveFirst(s, x) == s
  {
    if |s| > 0 {
      RemoveFirstAbsent(s[1..], x);
    }
  }

  /** Removing the first occurrence, at index i, keeps every other element in order. */
  lemma {:induction false} RemoveFirstAt<T>(s: seq<T>, x: T, i: nat)
    requires i < |s| && s[i] == x && forall j :: 0 <= j < i ==> s[j] != x
    ensures RemoveFirst(s, x) == s[..i] + s[i + 1..]
  {
    if i > 0 {
      RemoveFirstAt(s[1..], x, i - 1);
      assert s[1..][..i - 1] == s[1..i];
      assert s[1..][i..] == s[i + 1..];
      assert [s[0]] + s[1..i] == s[..i];
    }
  }

  /** The number of children that are plots. */
  function CountPlots(children: seq<Plottable>): nat
  {
    if |children| == 0 then 0
    else CountPlots(children[..|children| - 1]) + (if children[|children| - 1].kind.IsPlot() then 1 else 0)
  }

  lemma {:induction false} CountPlotsZero(children: seq<Plottable>)
    ensures CountPlots(children) == 0 <==> forall i :: 0 <= i < |children| ==> !children[i].kind.IsPlot()
  {
    if |children| > 0 {
      var front := children[..|children| - 1];
      CountPlotsZero(front);
      assert forall i :: 0 <= i < |front| ==> front[i] == children[i];
    }
  }

  /** The axis labels after UpdateAxisLabels: the column names of the last PointPlot child, or
      the labels as they were when there is none. */
  function LabelsAfter(children: seq<Plottable>, labels: seq<string>): seq<string>
  {
    if |children| == 0 then labels
    else
      var last := children[|children| - 1].kind;
      if last.PointPlot? then [last.column0, last.column1, last.column2]
      else LabelsAfter(children[..|children| - 1], labels)
  }

  lemma {:induction false} LabelsWithoutPointPlot(children: seq<Plottable>, labels: seq<string>)
    requires forall i :: 0 <= i < |children| ==> !children[i].kind.PointPlot?
    ensures LabelsAfter(children, labels) == labels
  {
    if |children| > 0 {
      LabelsWithoutPointPlot(children[..|children| - 1], labels);
    }
  }

  /** The last PointPlot child decides the labels. */
  lemma {:induction false} LastPointPlotLabels(children: seq<Plottable>, labels: seq<string>, i: nat)
    requires i < |children| && children[i].kind.PointPlot?
    requires forall j :: i < j < |children| ==> !children[j].kind.PointPlot?
    ensures var k := children[i].kind; LabelsAfter(children, labels) == [k.column0, k.column1, k.column2]
  {
    if i < |children| - 1 {
      LastPointPlotLabels(children[..|children| - 1], labels, i);
    }
  }

  class AxesBox {
    var children: seq<Plottable>
    var bounds: Box
    var plotBounds: Box
    var arrangement: AxesArrangement
    var resizeMode: ResizeMode
    /** The three grids, each spanning two of the axes 0, 1 and 2. */
    var grids: seq<Grid>
    var axisLabels: seq<string>
    /** Set by MakeDirty: the geometry must be recomputed. */
    var dirty: bool
    var isSelected: bool
    /** The corner of the bounds furthest from the camera, once known. */
    var furthestCorner: Option<Vec3>

    ghost predicate Valid()
      reads this
    {
      |grids| == 3 && |axisLabels| == 3
    }

    /** Bounds [-1, 1]^3, arranged outside, resized automatically, grids pairing axes (0, 1),
        (1, 2) and (0, 2); `gridsVisible` is the visibility a new grid starts with. */
    constructor(gridsVisible: bool)
      ensures Valid()
      ensures bounds == UnitBox && arrangement == Outside && resizeMode == Auto
      ensures grids == [Grid(0, 1, gridsVisible, None), Grid(1, 2, gridsVisible, None), Grid(0, 2, gridsVisible, None)]
      ensures children == [] && axisLabels == ["", "", ""] && furthestCorner == None && dirty
    {
      children := [];
      bounds := UnitBox;
      plotBounds := UnitBox;
      arrangement := Outside;
      resizeMode := Auto;
      grids := [Grid(0, 1, gridsVisible, None), Grid(1, 2, gridsVisible, None), Grid(0, 2, gridsVisible, None)];
      axisLabels := ["", "", ""];
      dirty := true;
      isSelected := false;
      furthestCorner := None;
    }

    /** Appends the plottable and makes this box its parent. */
    method AddChild(plottable: Plottable)
      modifies this`children, plottable`parent
      ensures children == old(children) + [plottable]
      ensures plottable.parent == this
    {
      children := children + [plottable];
      plottable.parent := this;
    }

    /** Removes the first occurrence of the plottable, if any, and clears its parent. */
    method RemoveChild(plottable: Plottable)
      modifies this`children, plottable`parent
      ensures children == RemoveFirst(old(children), plottable)
      ensures plottable.parent == null
    {
      children := RemoveFirst(children, plottable);
      plottable.parent := null;
    }

    method ResetBounds()
      modifies this`bounds
      ensures bounds == UnitBox
    {
      bounds := UnitBox;
    }

    method SetArrangement(value: AxesArrangement)
      modifies this`arrangement, this`dirty
      ensures arrangement == value && dirty
    {
      arrangement := value;
      dirty := true;
    }

    /** In Select2D the bounds are refitted to the viewport in the two dimensions on screen:
        centred on the camera's center, `halfWidth` either side across and `halfHeight` either
        side up (the viewport's size times the camera's scaling). The dimension along the view
        keeps its range. The box is dirty afterwards. */
    method OnViewportResized(view: ViewportState, center: Vec3, halfWidth: real, halfHeight: real)
      modifies this`bounds, this`dirty
      ensures dirty
      ensures view.state == Select2D && view.lastDirection != Standard ==>
                var w, h := WidthDim(view.lastDirection), HeightDim(view.lastDirection);
                bounds.minima.At(w) == center.At(w) - halfWidth && bounds.maxima.At(w) == center.At(w) + halfWidth &&
                bounds.minima.At(h) == center.At(h) - halfHeight && bounds.maxima.At(h) == center.At(h) + halfHeight
      ensures view.state == Select2D ==>
                forall i :: 0 <= i < 3 && i !in VisibleDims(view.lastDirection) ==>
                  bounds.minima.At(i) == old(bounds).minima.At(i) && bounds.maxima.At(i) == old(bounds).maxima.At(i)
      ensures view.state != Select2D || view.lastDirection == Standard ==> bounds == old(bounds)
    {
      var direction := view.lastDirection;
      if view.state == Select2D && direction != Standard {
        var w, h := WidthDim(direction), HeightDim(direction);
        var mn := bounds.minima.With(w, center.At(w) - halfWidth).With(h, center.At(h) - halfHeight);
        var mx := bounds.maxima.With(w, center.At(w) + halfWidth).With(h, center.At(h) + halfHeight);
        bounds := Box(mn, mx);
      }
      dirty := true;
    }

    /** A change of view direction returns the box to automatic resizing, then refits it as
        OnViewportResized does. */
    method OnViewDirectionChanged(view: ViewportState, center: Vec3, halfWidth: real, halfHeight: real)
      modifies this`resizeMode, this`bounds, this`dirty
      ensures resizeMode == Auto && dirty
      ensures view.state == Select2D && view.lastDirection != Standard ==>
                var w, h := WidthDim(view.lastDirection), HeightDim(view.lastDirection);
                bounds.minima.At(w) == center.At(w) - halfWidth && bounds.maxima.At(w) == center.At(w) + halfWidth &&
                bounds.minima.At(h) == center.At(h) - halfHeight && bounds.maxima.At(h) == center.At(h) + halfHeight
      ensures view.state == Select2D ==>
                forall i :: 0 <= i < 3 && i !in VisibleDims(view.lastDirection) ==>
                  bounds.minima.At(i) == old(bounds).minima.At(i) && bounds.maxima.At(i) == old(bounds).maxima.At(i)
      ensures view.state != Select2D || view.lastDirection == Standard ==> bounds == old(bounds)
    {
      resizeMode := Auto;
      OnViewportResized(view, center, halfWidth, halfHeight);
    }

    /** Remembers the furthest corner; every grid is moved to it when it is new or has changed. */
    method UpdateGrids(corner: Vec3)
      requires Valid()
      modifies this`furthestCorner, this`grids
      ensures Valid() && furthestCorner == Some(corner)
      ensures old(furthestCorner) == Some(corner) ==> grids == old(grids)
      ensures old(furthestCorner) != Some(corner) ==>
                forall i :: 0 <= i < 3 ==> grids[i] == old(grids[i]).(corner := Some(corner))
    {
      if furthestCorner.None? || furthestCorner.value != corner {
        furthestCorner := Some(corner);
        var i := 0;
        while i < |grids|
          invariant 0 <= i <= |grids| == 3 && furthestCorner == Some(corner)
          invariant forall j :: 0 <= j < i ==> grids[j] == old(grids[j]).(corner := Some(corner))
          invariant forall j :: i <= j < 3 ==> grids[j] == old(grids[j])
        {
          grids := grids[i := grids[i].(corner := Some(corner))];
          i := i + 1;
        }
      }
    }

    /** Deselects the box and every child. */
    method Deselect()
      modifies this`isSelected, children
      ensures !isSelected
      ensures forall i :: 0 <= i < |children| ==> !children[i].isSelected
      ensures forall i :: 0 <= i < |children| ==> children[i].selectionDescription == old(children[i].selectionDescription)
      ensures forall i :: 0 <= i < |children| ==> children[i].parent == old(children[i].parent)
    {
      isSelected := false;
      var i := 0;
      while i < |children|
        invariant 0 <= i <= |children| && !isSelected
        invariant forall j :: 0 <= j < i ==> !children[j].isSelected
        invariant forall j :: 0 <= j < |children| ==> children[j].selectionDescription == old(children[j].selectionDescription)
        invariant forall j :: 0 <= j < |children| ==> children[j].parent == old(children[j].parent)
      {
        children[i].isSelected := false;
        i := i + 1;
      }
    }

    /** In Select2D the pan is taken by the box: resizing becomes manual and the plot bounds
        become `panned` (the bounds translated by the pan). Otherwise the viewport handles it. */
    method HandlePan(view: ViewportState, panned: Box) returns (handled: bool)
      modifies this`resizeMode, this`plotBounds, this`dirty
      ensures handled <==> view.state == Select2D
      ensures resizeMode == if handled then Manual else old(resizeMode)
      ensures plotBounds == if handled then panned else old(plotBounds)
      ensures dirty == (handled || old(dirty))
    {
      if view.state == Select2D {
        resizeMode := Manual;
        plotBounds := panned;
        dirty := true;
        return true;
      } else {
        return false;
      }
    }

    /** As HandlePan, with `expanded` the plot bounds expanded by the dolly factor. */
    method HandleDolly(view: ViewportState, expanded: Box) returns (handled: bool)
      modifies this`resizeMode, this`plotBounds, this`dirty
      ensures handled <==> view.state == Select2D
      ensures resizeMode == if handled then Manual else old(resizeMode)
      ensures plotBounds == if handled then expanded else old(plotBounds)
      ensures dirty == (handled || old(dirty))
    {
      if view.state == Select2D {
        resizeMode := Manual;
        plotBounds := expanded;
        dirty := true;
        return true;
      } else {
        return false;
      }
    }

    /** In Select2D the rubber band's corners, `lo` and `hi` in plot space, become the plot
        bounds in the two dimensions seen in the view direction; the others are kept. */
    method HandleZoom(view: ViewportState, lo: Vec3, hi: Vec3) returns (handled: bool)
      modifies this`resizeMode, this`plotBounds, this`dirty
      ensures handled <==> view.state == Select2D
      ensures resizeMode == if handled then Manual else old(resizeMode)
      ensures handled ==> ZoomedIn(plotBounds, old(plotBounds), VisibleDims(view.lastDirection), lo, hi)
      ensures !handled ==> plotBounds == old(plotBounds)
      ensures dirty == (handled || old(dirty))
    {
      if view.state == Select2D {
        resizeMode := Manual;
        var mn, mx := plotBounds.minima, plotBounds.maxima;
        var direction := view.lastDirection;
        if direction != Standard {
          var w, h := WidthDim(direction), HeightDim(direction);
          mn, mx := mn.With(w, lo.At(w)).With(h, lo.At(h)), mx.With(w, hi.At(w)).With(h, hi.At(h));
        }
        plotBounds := Box(mn, mx);
        dirty := true;
        return true;
      }
      return false;
    }

    /** Enables all six clip planes, then in Select2D disables the pair orthogonal to the view
        direction. */
    method EnableClipping(view: ViewportState, gl: ClipPlanes)
      modifies gl
      ensures gl.enabled == (old(gl.enabled) + AllPlanes) - DisabledPlanes(view)
    {
      var i := 0;
      while i < 6
        invariant 0 <= i <= 6
        invariant gl.enabled == old(gl.enabled) + PlanesBelow(i)
      {
        assert PlanesBelow(i + 1) == PlanesBelow(i) + {i};
        gl.enabled := gl.enabled + {i};
        i := i + 1;
      }
      assert PlanesBelow(6) == AllPlanes;
      // Select2D: the planes bounding the depth dimension are switched off
      if view.state == Select2D {
        match view.lastDirection {
          case Front | Back =>
            gl.enabled := gl.enabled - {2};
            gl.enabled := gl.enabled - {3};
          case Left | Right =>
            gl.enabled := gl.enabled - {0};
            gl.enabled := gl.enabled - {1};
          case Top | Bottom =>
            gl.enabled := gl.enabled - {4};
            gl.enabled := gl.enabled - {5};
          case Standard =>
        }
      }
    }

    /** Disables all six clip planes. */
    method DisableClipping(gl: ClipPlanes)
      modifies gl
      ensures gl.enabled == old(gl.enabled) - AllPlanes
    {
      var i := 0;
      while i < 6
        invariant 0 <= i <= 6
        invariant gl.enabled == old(gl.enabled) - PlanesBelow(i)
      {
        assert PlanesBelow(i + 1) == PlanesBelow(i) + {i};
        gl.enabled := gl.enabled - {i};
        i := i + 1;
      }
      assert PlanesBelow(6) == AllPlanes;
    }

    /** True iff some child that is a plot is hit; `hit` is the set of plottables whose own
        hit test succeeds for the hit line. Children that are not plots are ignored. */
    method HitTest(hit: set<Plottable>) returns (r: bool)
      ensures r <==> exists i :: 0 <= i < |children| && children[i].kind.IsPlot() && children[i] in hit
    {
      var i := 0;
      while i < |children|
        invariant 0 <= i <= |children|
        invariant forall j :: 0 <= j < i ==> !(children[j].kind.IsPlot() && children[j] in hit)
      {
        var child := children[i];
        if child.kind.IsPlot() && child in hit {
          return true;
        }
        i := i + 1;
      }
      return false;
    }

    /** The description of the first selected child, or "" when no child is selected. */
    method SelectionDescription() returns (d: string)
      ensures (forall i :: 0 <= i < |children| ==> !children[i].isSelected) ==> d == ""
      ensures forall i :: 0 <= i < |children| && children[i].isSelected ==>
                (forall j :: 0 <= j < i ==> !children[j].isSelected) ==>
                  d == children[i].selectionDescription
    {
      var i := 0;
      while i < |children|
        invariant 0 <= i <= |children|
        invariant forall j :: 0 <= j < i ==> !children[j].isSelected
      {
        var child := children[i];
        if child.isSelected {
          return child.selectionDescription;
        }
        i := i + 1;
      }
      return "";
    }

    /** The labels take the column names of every PointPlot child in turn, so the last one wins. */
    method UpdateAxisLabels()
      requires Valid()
      modifies this`axisLabels
      ensures Valid()
      ensures axisLabels == LabelsAfter(children, old(axisLabels))
    {
      var i := 0;
      while i < |children|
        invariant 0 <= i <= |children| && |axisLabels| == 3
        invariant axisLabels == LabelsAfter(children[..i], old(axisLabels))
      {
        var kind := children[i].kind;
        assert children[..i + 1][..i] == children[..i];
        if kind.PointPlot? {
          var names := [kind.column0, kind.column1, kind.column2];
          var k := 0;
          while k < 3
            invariant 0 <= k <= 3 && |axisLabels| == 3
            invariant forall j :: 0 <= j < k ==> axisLabels[j] == names[j]
          {
            axisLabels := axisLabels[k := names[k]];
            k := k + 1;
          }
          assert axisLabels == names;
        }
        i := i + 1;
      }
      assert children[..i] == children;
    }

    /** Without plot children the plot bounds become [-1, 1]^3; with plot children they become
        `fitted` (the children's bounds combined and made pretty) when resizing automatically,
        and stay as they are when resizing manually. The axis labels are then updated. */
    method ComputeGeometry(fitted: Box)
      requires Valid()
      modifies this`plotBounds, this`axisLabels
      ensures Valid()
      ensures (forall i :: 0 <= i < |children| ==> !children[i].kind.IsPlot()) ==> plotBounds == UnitBox
      ensures (exists i :: 0 <= i < |children| && children[i].kind.IsPlot()) ==>
                plotBounds == if resizeMode == Auto then fitted else old(plotBounds)
      ensures axisLabels == LabelsAfter(children, old(axisLabels))
    {
      // childCount: the plot children among the first i
      var childCount := 0;
      var i := 0;
      while i < |children|
        invariant 0 <= i <= |children|
        invariant childCount == CountPlots(children[..i])
      {
        assert children[..i + 1][..i] == children[..i];
        if children[i].kind.IsPlot() {
          childCount := childCount + 1;
        }
        i := i + 1;
      }
      assert children[..i] == children;
      CountPlotsZero(children);
      if childCount > 0 {
        // Auto: take the fitted bounds
        if resizeMode == Auto {
          plotBounds := fitted;
        }
      } else {
        plotBounds := UnitBox;
      }
      UpdateAxisLabels();
    }

    /** The GridVisible getter: the first grid's visibility. */
    function GridVisible(): bool
      reads this
      requires Valid()
    {
      grids[0].visible
    }

    /** The GridVisible setter: every grid takes the value; their axes stay. */
    method SetGridVisible(value: bool)
      requires Valid()
      modifies this`grids
      ensures Valid() && GridVisible() == value
      ensures forall i :: 0 <= i < |grids| ==> grids[i] == old(grids[i]).(visible := value)
    {
      var i := 0;
      while i < |grids|
        invariant 0 <= i <= |grids| == 3
        invariant forall j :: 0 <= j < i ==> grids[j] == old(grids[j]).(visible := value)
        invariant forall j :: i <= j < 3 ==> grids[j] == old(grids[j])
      {
        grids := grids[i := grids[i].(visible := value)];
        i := i + 1;
      }
    }
  }
}
