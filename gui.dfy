/** MonoWorks.Gui.Viewport: the Qt OpenGL widget that turns mouse and wheel events into camera
    operations, through a mouse map and a scroll map. */
module Gui {

  import opened Outcomes
  import opened Plotting

  /** The viewport's mouse interaction actions. */
  datatype MouseAction = NoAction | Pan | Zoom | Dolly | Rotate | Spin

  datatype ScrollAction = NoScroll | ScrollDolly | VerticalPan | HorizontalPan

  /** The buttons a Qt mouse event can carry, the two extra (side) buttons included. */
  datatype MouseButton = LeftButton | RightButton | MidButton | XButton1 | XButton2

  /** Qt's values: the buttons are single bits; the keyboard modifiers sit far above them. */
  function ButtonMask(button: MouseButton): int
  {
    match button
    case LeftButton => 1
    case RightButton => 2
    case MidButton => 4
    case XButton1 => 8
    case XButton2 => 16
  }

  const CtrlModifier: int := 0x0400_0000
  const ShiftModifier: int := 0x0200_0000

  /** Left rotates, middle zooms, right pans, control and middle dollies. */
  function DefaultMouseMap(): map<int, MouseAction>
  {
    map[ButtonMask(LeftButton) := Rotate, ButtonMask(MidButton) := Zoom,
        ButtonMask(RightButton) := Pan, ButtonMask(MidButton) + CtrlModifier := Dolly]
  }

  /** The wheel dollies; with control it pans vertically, with shift horizontally. */
  function DefaultScrollMap(): map<int, ScrollAction>
  {
    map[0 := ScrollDolly, CtrlModifier := VerticalPan, ShiftModifier := HorizontalPan]
  }

  datatype CursorShape = OpenHandCursor | ClosedHandCursor | ArrowCursor
                       | ZoomCursor | DollyCursor | SpinCursor

  /** The cursor map: every action but NoAction has a cursor. */
  function CursorFor(action: MouseAction): (r: Option<CursorShape>)
    ensures r.None? <==> action == NoAction
  {
    match action
    case Pan => Some(OpenHandCursor)
    case Zoom => Some(ZoomCursor)
    case Dolly => Some(DollyCursor)
    case Rotate => Some(ClosedHandCursor)
    case Spin => Some(SpinCursor)
    case NoAction => None
  }

  /** What the viewport asks of Qt and of its camera, in order. CameraDolly(dy, height) is
      camera.Dolly(dy / height * 5). */
  datatype Request =
    | SetOverrideCursor(shape: CursorShape)
    | CameraZoom(x0: int, y0: int, x1: int, y1: int)
    | CameraDolly(dy: int, height: int)
    | CameraPan(dx: int, dy: int)
    | CameraRotate(dx: int, dy: int)
    | CameraDollyIn | CameraDollyOut
    | CameraPanUp | CameraPanDown | CameraPanLeft | CameraPanRight
    | CameraReset
    | CameraView(direction: ViewDirection)
    | CameraConfigure
    | UpdateGL

  /** The rectangle dragged out while zooming. */
  class RubberBand {
    var enabled: bool
    var startX: int
    var startY: int
    var stopX: int
    var stopY: int

    constructor()
    {
      enabled := false;
      startX, startY, stopX, stopY := 0, 0, 0, 0;
    }
  }

  datatype Pos = Pos(x: int, y: int)

  class Viewport {
    var mouseAction: MouseAction
    var lastX: int
    var lastY: int
    var currentX: int
    var currentY: int
    var mouseMap: map<int, MouseAction>
    var scrollMap: map<int, ScrollAction>
    var rubberBand: RubberBand
    /** The widget's height, which Qt sets. */
    var height: int
    var requests: seq<Request>

    constructor(height: int)
      ensures mouseAction == NoAction && lastX == lastY == currentX == currentY == 0
      ensures mouseMap == DefaultMouseMap() && scrollMap == DefaultScrollMap()
      ensures fresh(rubberBand) && this.height == height && requests == []
    {
      mouseAction := NoAction;
      lastX, lastY, currentX, currentY := 0, 0, 0, 0;
      rubberBand := new RubberBand();
      mouseMap := DefaultMouseMap();
      scrollMap := DefaultScrollMap();
      this.height := height;
      requests := [];
    }

    /** A button press: remembers the position; when the button's mask is mapped, takes the
        mapped action, sets its cursor and, for a zoom, starts the rubber band at the press.
        The mask is the button alone: the keyboard modifiers are not part of it. */
    method Press(button: MouseButton, x: int, y: int)
      modifies this`lastX, this`lastY, this`mouseAction, this`requests, rubberBand
      ensures lastX == x && lastY == y
      ensures var mask := ButtonMask(button);
              mouseAction == if mask in mouseMap then mouseMap[mask] else old(mouseAction)
      ensures ButtonMask(button) in mouseMap && CursorFor(mouseAction).Some? ==>
                requests == old(requests) + [SetOverrideCursor(CursorFor(mouseAction).value), UpdateGL]
      ensures !(ButtonMask(button) in mouseMap && CursorFor(mouseAction).Some?) ==>
                requests == old(requests) + [UpdateGL]
      ensures ButtonMask(button) in mouseMap && mouseAction == Zoom ==>
                rubberBand.enabled && rubberBand.startX == x && rubberBand.startY == y
      ensures !(ButtonMask(button) in mouseMap && mouseAction == Zoom) ==>
                rubberBand.enabled == old(rubberBand.enabled) &&
                rubberBand.startX == old(rubberBand.startX) && rubberBand.startY == old(rubberBand.startY)
      ensures rubberBand.stopX == old(rubberBand.stopX) && rubberBand.stopY == old(rubberBand.stopY)
    {
      lastX, lastY := x, y;
      var mask := ButtonMask(button);
      if mask in mouseMap {
        mouseAction := mouseMap[mask];
        var cursor := CursorFor(mouseAction);
        if cursor.Some? {
          requests := requests + [SetOverrideCursor(cursor.value)];
        }
        if mouseAction == Zoom {
          rubberBand.startX := lastX;
          rubberBand.startY := lastY;
          rubberBand.enabled := true;
        }
      }
      requests := requests + [UpdateGL];
    }

    /** A double click resets the camera. */
    method DoubleClick()
      modifies this`requests
      ensures requests == old(requests) + [CameraReset, UpdateGL]
    {
      requests := requests + [CameraReset, UpdateGL];
    }

    /** A release ends the interaction: a zoom zooms the camera to the rubber band, the action
        returns to NoAction, the band is hidden and the arrow cursor is set. */
    method Release()
      modifies this`mouseAction, this`requests, rubberBand`enabled
      ensures mouseAction == NoAction && !rubberBand.enabled
      ensures var band := rubberBand;
              requests == old(requests) +
                (if old(mouseAction) == Zoom then [CameraZoom(band.startX, band.startY, band.stopX, band.stopY)] else []) +
                [SetOverrideCursor(ArrowCursor), UpdateGL]
    {
      if mouseAction == Zoom {
        requests := requests + [CameraZoom(rubberBand.startX, rubberBand.startY, rubberBand.stopX, rubberBand.stopY)];
      }
      mouseAction := NoAction;
      rubberBand.enabled := false;
      requests := requests + [SetOverrideCursor(ArrowCursor), UpdateGL];
    }

    /** The camera request a motion to (x, y) makes from the last position, if any. */
    function MotionRequests(x: int, y: int): seq<Request>
      reads this
    {
      match mouseAction
      case Dolly => [CameraDolly(y - lastY, height)]
      case Pan => [CameraPan(x - lastX, y - lastY)]
      case Rotate => [CameraRotate(x - lastX, y - lastY)]
      case _ => []
    }

    /** A motion: dollies, pans or rotates by the offset from the last position, or drags the
        rubber band's far corner while zooming; it redraws unless no action is under way.
        The position becomes the last one. */
    method Move(x: int, y: int)
      modifies this`currentX, this`currentY, this`lastX, this`lastY, this`requests, rubberBand
      ensures currentX == lastX == x && currentY == lastY == y
      ensures requests == old(requests) + old(MotionRequests(x, y)) +
                (if mouseAction == NoAction then [] else [UpdateGL])
      ensures mouseAction == Zoom ==> rubberBand.stopX == x && rubberBand.stopY == y
      ensures mouseAction != Zoom ==> rubberBand.stopX == old(rubberBand.stopX) && rubberBand.stopY == old(rubberBand.stopY)
      ensures rubberBand.enabled == old(rubberBand.enabled)
      ensures rubberBand.startX == old(rubberBand.startX) && rubberBand.startY == old(rubberBand.startY)
    {
      currentX, currentY := x, y;
      var queueDraw := true;
      match mouseAction {
        case Dolly =>
          requests := requests + [CameraDolly(currentY - lastY, height)];
        case Pan =>
          requests := requests + [CameraPan(currentX - lastX, currentY - lastY)];
        case Rotate =>
          requests := requests + [CameraRotate(currentX - lastX, currentY - lastY)];
        case Zoom =>
          rubberBand.stopX := currentX;
          rubberBand.stopY := currentY;
        case NoAction =>
          queueDraw := false;
        case Spin =>
      }
      lastX, lastY := currentX, currentY;
      if queueDraw {
        requests := requests + [UpdateGL];
      }
    }

    /** The wheel takes the action mapped to the empty mask: a negative delta dollies out, pans
        down or pans right, any other dollies in, pans up or pans left. Fails, as the
        dictionary lookup throws, when the empty mask is not mapped. */
    method Wheel(delta: int) returns (o: Outcome)
      modifies this`requests
      ensures o.Pass? <==> 0 in scrollMap
      ensures o.Pass? ==> requests == old(requests) + WheelRequests(scrollMap[0], delta) + [UpdateGL]
      ensures o.Fail? ==> requests == old(requests)
    {
      if 0 !in scrollMap {
        return Fail("the given key was not present in the dictionary");
      }
      var action := scrollMap[0];
      match action {
        case ScrollDolly =>
          if delta < 0 {
            requests := requests + [CameraDollyOut];
          } else {
            requests := requests + [CameraDollyIn];
          }
        case VerticalPan =>
          if delta < 0 {
            requests := requests + [CameraPanDown];
          } else {
            requests := requests + [CameraPanUp];
          }
        case HorizontalPan =>
          if delta < 0 {
            requests := requests + [CameraPanRight];
          } else {
            requests := requests + [CameraPanLeft];
          }
        case NoScroll =>
      }
      requests := requests + [UpdateGL];
      return Pass;
    }

    /** The view slots (StandardView, FrontView, ...) set the camera's view. */
    method ChangeView(direction: ViewDirection)
      modifies this`requests
      ensures requests == old(requests) + [CameraView(direction)]
    {
      requests := requests + [CameraView(direction)];
    }

    /** ResizeGL reconfigures the camera. */
    method Resize()
      modifies this`requests
      ensures requests == old(requests) + [CameraConfigure]
    {
      requests := requests + [CameraConfigure];
    }

    /** Paint redraws. */
    method Paint()
      modifies this`requests
      ensures requests == old(requests) + [UpdateGL]
    {
      requests := requests + [UpdateGL];
    }
  }

  /** The camera request of a wheel turn with the given action. */
  function WheelRequests(action: ScrollAction, delta: int): (r: seq<Request>)
    ensures action == NoScroll <==> r == []
    ensures action == ScrollDolly ==> r == [if delta < 0 then CameraDollyOut else CameraDollyIn]
    ensures action == VerticalPan ==> r == [if delta < 0 then CameraPanDown else CameraPanUp]
    ensures action == HorizontalPan ==> r == [if delta < 0 then CameraPanRight else CameraPanLeft]
  {
    match action
    case ScrollDolly => [if delta < 0 then CameraDollyOut else CameraDollyIn]
    case VerticalPan => [if delta < 0 then CameraPanDown else CameraPanUp]
    case HorizontalPan => [if delta < 0 then CameraPanRight else CameraPanLeft]
    case NoScroll => []
  }

  /** The mouse mask is the button alone, so no press reaches the control-middle entry of the
      default map: a press never starts a dolly. The left, middle and right buttons are mapped;
      the two extra buttons are not, so pressing them keeps the action. */
  lemma PressNeverDollies(button: MouseButton)
    ensures var m := DefaultMouseMap(); ButtonMask(button) in m ==> m[ButtonMask(button)] != Dolly
    ensures ButtonMask(button) in DefaultMouseMap() <==> !(button.XButton1? || button.XButton2?)
  {
  }

  /** Under the default map, a press of an extra button changes nothing but the last position
      and the redraw it requests. */
  method ExtraButtonPress(viewport: Viewport, button: MouseButton, x: int, y: int)
    requires viewport.mouseMap == DefaultMouseMap() && (button.XButton1? || button.XButton2?)
    modifies viewport, viewport.rubberBand
    ensures viewport.mouseAction == old(viewport.mouseAction)
    ensures viewport.lastX == x && viewport.lastY == y
    ensures viewport.requests == old(viewport.requests) + [UpdateGL]
    ensures viewport.rubberBand.enabled == old(viewport.rubberBand.enabled)
  {
    PressNeverDollies(button);
    viewport.Press(button, x, y);
  }

  /** The point a drag along `path` moves from to reach its i-th point. */
  function PrevPos(start: Pos, path: seq<Pos>, i: nat): Pos
    requires i < |path|
  {
    if i == 0 then start else path[i - 1]
  }

  /** The requests of a pan drag from `start` through the points of `path`. */
  function PanRequests(start: Pos, path: seq<Pos>): seq<Request>
  {
    if |path| == 0 then []
    else
      var n := |path| - 1;
      var prev := PrevPos(start, path, n);
      PanRequests(start, path[..n]) + [CameraPan(path[n].x - prev.x, path[n].y - prev.y), UpdateGL]
  }

  /** The horizontal and vertical distances panned by the requests. */
  function PannedX(requests: seq<Request>): int
  {
    if |requests| == 0 then 0
    else
      var last := requests[|requests| - 1];
      PannedX(requests[..|requests| - 1]) + (if last.CameraPan? then last.dx else 0)
  }

  function PannedY(requests: seq<Request>): int
  {
    if |requests| == 0 then 0
    else
      var last := requests[|requests| - 1];
      PannedY(requests[..|requests| - 1]) + (if last.CameraPan? then last.dy else 0)
  }

  lemma {:induction false} PannedAppend(a: seq<Request>, b: seq<Request>)
    ensures PannedX(a + b) == PannedX(a) + PannedX(b)
    ensures PannedY(a + b) == PannedY(a) + PannedY(b)
  {
    if |b| == 0 {
      assert a + b == a;
    } else {
      assert (a + b)[..|a + b| - 1] == a + b[..|b| - 1];
      PannedAppend(a, b[..|b| - 1]);
    }
  }

  /** Each motion pans by the offset from the previous position, so a drag pans, in total,
      exactly the distance from where it started to where it ends. */
  lemma {:induction false} PanDragTelescopes(start: Pos, path: seq<Pos>)
    requires |path| > 0
    ensures PannedX(PanRequests(start, path)) == path[|path| - 1].x - start.x
    ensures PannedY(PanRequests(start, path)) == path[|path| - 1].y - start.y
  {
    var n := |path| - 1;
    var prev := PrevPos(start, path, n);
    var step := [CameraPan(path[n].x - prev.x, path[n].y - prev.y), UpdateGL];
    PannedAppend(PanRequests(start, path[..n]), step);
    assert step[..|step| - 1] == [step[0]];
    assert [step[0]][..0] == [];
    assert PannedX([step[0]]) == step[0].dx && PannedY([step[0]]) == step[0].dy;
    assert PannedX(step) == path[n].x - prev.x && PannedY(step) == path[n].y - prev.y;
    if n > 0 {
      PanDragTelescopes(start, path[..n]);
    }
  }

  /** A drag along `path` while panning. */
  method PanDrag(viewport: Viewport, path: seq<Pos>)
    requires viewport.mouseAction == Pan
    modifies viewport, viewport.rubberBand
    ensures viewport.requests == old(viewport.requests) + PanRequests(Pos(old(viewport.lastX), old(viewport.lastY)), path)
    ensures viewport.mouseAction == Pan
  {
    ghost var start := Pos(viewport.lastX, viewport.lastY);
    var i := 0;
    while i < |path|
      invariant 0 <= i <= |path| && viewport.mouseAction == Pan
      invariant Pos(viewport.lastX, viewport.lastY) == if i == 0 then start else path[i - 1]
      invariant viewport.requests == old(viewport.requests) + PanRequests(start, path[..i])
      invariant viewport.rubberBand == old(viewport.rubberBand)
    {
      assert path[..i + 1][..i] == path[..i];
      viewport.Move(path[i].x, path[i].y);
      i := i + 1;
    }
    assert path[..i] == path;
  }

  /** A zoom gesture under the default map: press the middle button at (x0, y0), drag to
      (x1, y1), release. The camera zooms to exactly that rectangle. */
  method ZoomGesture(viewport: Viewport, x0: int, y0: int, x1: int, y1: int)
    requires viewport.mouseMap == DefaultMouseMap()
    modifies viewport, viewport.rubberBand
    ensures viewport.requests == old(viewport.requests) +
              [SetOverrideCursor(ZoomCursor), UpdateGL, UpdateGL,
               CameraZoom(x0, y0, x1, y1), SetOverrideCursor(ArrowCursor), UpdateGL]
    ensures viewport.mouseAction == NoAction && !viewport.rubberBand.enabled
  {
    viewport.Press(MidButton, x0, y0);
    viewport.Move(x1, y1);
    viewport.Release();
  }
}
