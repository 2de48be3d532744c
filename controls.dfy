/** MonoWorks.Controls.ActorPane: a plane in the 3D scene that shows a 2D control, forwards
    input to it and uploads the control's image as a texture when it is dirty. */
module Controls {

  datatype Coord = Coord(x: real, y: real)

  /** What a control receives from the pane: the point in control space and whether the
      forwarded event already started out handled, or the key pressed. */
  datatype ControlEvent =
    | ButtonPress(point: Coord, startedHandled: bool)
    | ButtonRelease(point: Coord, startedHandled: bool)
    | Motion(point: Coord, startedHandled: bool)
    | KeyPress(key: int)

  /** The 2D control shown on a pane, reduced to what the pane reads and writes. */
  class Control2D {
    var isFocused: bool
    var pane: ActorPane?
    var renderSize: Coord
    var isDirty: bool
    /** The events forwarded to this control, oldest first. */
    var received: seq<ControlEvent>

    constructor(size: Coord)
      ensures !isFocused && pane == null && renderSize == size && !isDirty && received == []
    {
      isFocused := false;
      pane := null;
      renderSize := size;
      isDirty := false;
      received := [];
    }
  }

  /** A mouse event arriving at the pane: its handled flag and the point where its hit line
      meets the pane, already projected onto the plane and divided by the scaling. */
  class MouseEvent {
    var handled: bool
    const projected: Coord

    constructor(handled: bool, projected: Coord)
      ensures this.handled == handled && this.projected == projected
    {
      this.handled := handled;
      this.projected := projected;
    }
  }

  class ActorPane {
    var control: Control2D?
    var inFocus: Control2D?
    /** Set when the control's image must be uploaded on the next render. */
    var wasDirty: bool
    /** Whether the texture has been generated. */
    var hasTexture: bool
    /** The number of times the control's image has been uploaded to the texture. */
    var uploads: nat

    constructor()
      ensures control == null && inFocus == null && !wasDirty && !hasTexture && uploads == 0
    {
      control := null;
      inFocus := null;
      wasDirty := false;
      hasTexture := false;
      uploads := 0;
    }

    /** A pane showing `c`, which gets this pane as its own. */
    constructor WithControl(c: Control2D)
      modifies c
      ensures control == c && c.pane == this && inFocus == null && !wasDirty && !hasTexture && uploads == 0
      ensures c.renderSize == old(c.renderSize) && c.received == old(c.received) && c.isFocused == old(c.isFocused)
    {
      control := null;
      inFocus := null;
      wasDirty := false;
      hasTexture := false;
      uploads := 0;
      new;
      SetControl(c);
    }

    /** The size of the pane: the control's size, or the zero coordinate without a control. */
    function RenderSize(): (r: Coord)
      reads this, control
      ensures control == null ==> r == Coord(0.0, 0.0)
      ensures control != null ==> r == control.renderSize
    {
      if control != null then control.renderSize else Coord(0.0, 0.0)
    }

    function RenderHeight(): real
      reads this, control
    {
      RenderSize().y
    }

    /** The Control setter: the old control loses its pane; a non-null value becomes the
        control with this pane; null leaves the field pointing at the old control. */
    method SetControl(value: Control2D?)
      modifies this`control, control, value
      ensures value != null ==> control == value && value.pane == this
      ensures value == null ==> control == old(control)
      ensures old(control) != null && old(control) != value ==> old(control).pane == null
      ensures old(control) != null ==>
                old(control).renderSize == old(control.renderSize) &&
                old(control).received == old(control.received) &&
                old(control).isFocused == old(control.isFocused)
      ensures value != null ==>
                value.renderSize == old(value.renderSize) &&
                value.received == old(value.received) &&
                value.isFocused == old(value.isFocused)
    {
      if control != null {
        control.pane := null;
      }
      if value != null {
        control := value;
        control.pane := this;
      }
    }

    /** The InFocus setter. Setting the control already in focus changes nothing; otherwise
        the old focus loses its focus and a non-null new focus gains it. */
    method SetInFocus(value: Control2D?)
      modifies this`inFocus, inFocus, value
      ensures inFocus == value
      ensures old(inFocus) == value ==> value == null || value.isFocused == old(value.isFocused)
      ensures old(inFocus) != value && old(inFocus) != null ==> !old(inFocus).isFocused
      ensures old(inFocus) != value && value != null ==> value.isFocused
      ensures old(inFocus) != null ==> old(inFocus).pane == old(inFocus.pane) && old(inFocus).received == old(inFocus.received)
      ensures value != null ==> value.pane == old(value.pane) && value.received == old(value.received)
    {
      if inFocus == value {
        return;
      }
      if inFocus != null {
        inFocus.isFocused := false;
      }
      inFocus := value;
      if inFocus == null {
        return;
      }
      if !inFocus.isFocused {
        inFocus.isFocused := true;
      }
    }

    /** The point in control space: x as projected, y flipped against the pane's height. */
    function ControlPoint(projected: Coord): (r: Coord)
      reads this, control
      ensures r.x == projected.x && r.y + projected.y == RenderHeight()
    {
      Coord(projected.x, RenderHeight() - projected.y)
    }

    /** The forwarding common to OnButtonPress, OnButtonRelease and OnMouseMotion: the control
        event starts handled when the outer event is handled; `controlHandles` says whether the
        control's own handler marks it handled; the outer event becomes handled when the control
        event ends handled. Without a control nothing is forwarded. */
    method Forward(evt: MouseEvent, kind: ControlEvent, controlHandles: bool)
      requires kind.Motion? || kind.ButtonPress? || kind.ButtonRelease?
      modifies evt, control
      ensures control == null ==> evt.handled == old(evt.handled)
      ensures control != null ==> evt.handled == (old(evt.handled) || controlHandles)
      ensures old(evt.handled) ==> evt.handled
      ensures control != null ==>
        control.received == old(control.received) + [Forwarded(kind, old(ControlPoint(evt.projected)), old(evt.handled))]
      ensures control != null ==>
                control.isFocused == old(control.isFocused) &&
                control.pane == old(control.pane) &&
                control.renderSize == old(control.renderSize)
    {
      if control != null {
        var point := ControlPoint(evt.projected);
        var started := evt.handled;
        var ended := started || controlHandles;
        control.received := control.received + [Forwarded(kind, point, started)];
        if ended {
          evt.handled := true;
        }
      }
    }

    method OnButtonPress(evt: MouseEvent, controlHandles: bool)
      modifies evt, control
      ensures control == null ==> evt.handled == old(evt.handled)
      ensures control != null ==> evt.handled == (old(evt.handled) || controlHandles)
      ensures control != null ==>
        control.received == old(control.received) + [ButtonPress(old(ControlPoint(evt.projected)), old(evt.handled))]
      ensures control != null ==>
                control.isFocused == old(control.isFocused) &&
                control.pane == old(control.pane) &&
                control.renderSize == old(control.renderSize)
    {
      Forward(evt, ButtonPress(Coord(0.0, 0.0), false), controlHandles);
    }

    method OnButtonRelease(evt: MouseEvent, controlHandles: bool)
      modifies evt, control
      ensures control == null ==> evt.handled == old(evt.handled)
      ensures control != null ==> evt.handled == (old(evt.handled) || controlHandles)
      ensures control != null ==>
        control.received == old(control.received) + [ButtonRelease(old(ControlPoint(evt.projected)), old(evt.handled))]
      ensures control != null ==>
                control.isFocused == old(control.isFocused) &&
                control.pane == old(control.pane) &&
                control.renderSize == old(control.renderSize)
    {
      Forward(evt, ButtonRelease(Coord(0.0, 0.0), false), controlHandles);
    }

    method OnMouseMotion(evt: MouseEvent, controlHandles: bool)
      modifies evt, control
      ensures control == null ==> evt.handled == old(evt.handled)
      ensures control != null ==> evt.handled == (old(evt.handled) || controlHandles)
      ensures control != null ==>
        control.received == old(control.received) + [Motion(old(ControlPoint(evt.projected)), old(evt.handled))]
      ensures control != null ==>
                control.isFocused == old(control.isFocused) &&
                control.pane == old(control.pane) &&
                control.renderSize == old(control.renderSize)
    {
      Forward(evt, Motion(Coord(0.0, 0.0), false), controlHandles);
    }

    /** Key presses go to the control in focus only, and only when there is one. */
    method OnKeyPress(key: int)
      modifies inFocus
      ensures inFocus != null ==> inFocus.received == old(inFocus.received) + [KeyPress(key)]
      ensures inFocus != null ==> inFocus.isFocused == old(inFocus.isFocused) && inFocus.pane == old(inFocus.pane)
    {
      if inFocus != null {
        inFocus.received := inFocus.received + [KeyPress(key)];
      }
    }

    method QueueRender()
      modifies this`wasDirty
      ensures wasDirty
    {
      wasDirty := true;
    }

    /** With a control: generate the texture once and mark the image for upload. */
    method ComputeGeometry()
      modifies this`wasDirty, this`hasTexture
      ensures control == null ==> wasDirty == old(wasDirty) && hasTexture == old(hasTexture)
      ensures control != null ==> wasDirty && hasTexture
    {
      if control == null {
        return;
      }
      if !hasTexture {
        hasTexture := true;
      }
      wasDirty := true;
    }

    /** With a control: a dirty control recomputes the geometry; the image is uploaded exactly
        when the pane is then dirty, which clears the flag. Without a control nothing happens. */
    method RenderTransparent()
      modifies this`wasDirty, this`hasTexture, this`uploads
      ensures control == null ==> wasDirty == old(wasDirty) && hasTexture == old(hasTexture) && uploads == old(uploads)
      ensures control != null ==> !wasDirty
      ensures control != null ==> uploads == old(uploads) + (if old(wasDirty) || control.isDirty then 1 else 0)
      ensures control != null && control.isDirty ==> hasTexture
    {
      if control == null {
        return;
      }
      if control.isDirty {
        ComputeGeometry();
      }
      // a dirty pane uploads the control's image to the texture
      if wasDirty {
        uploads := uploads + 1;
        wasDirty := false;
      }
    }
  }

  /** The control event of the given kind at `point`. */
  function Forwarded(kind: ControlEvent, point: Coord, startedHandled: bool): ControlEvent
    requires kind.Motion? || kind.ButtonPress? || kind.ButtonRelease?
  {
    match kind
    case ButtonPress(_, _) => ButtonPress(point, startedHandled)
    case ButtonRelease(_, _) => ButtonRelease(point, startedHandled)
    case Motion(_, _) => Motion(point, startedHandled)
  }

  /** Whether `p` lies on the pane: within its render size in both directions. */
  predicate OnPane(pane: ActorPane, p: Coord)
    reads pane, pane.control
  {
    0.0 <= p.x <= pane.RenderSize().x && 0.0 <= p.y <= pane.RenderHeight()
  }

  /** ControlPoint maps the pane's rectangle onto itself: a point is on the pane iff its
      control point is, and flipping twice gives the point back, so every point of the
      control is the control point of exactly one point of the pane. */
  lemma ControlPointMapsPaneOntoItself(pane: ActorPane, p: Coord)
    ensures OnPane(pane, p) <==> OnPane(pane, pane.ControlPoint(p))
    ensures pane.ControlPoint(pane.ControlPoint(p)) == p
    ensures OnPane(pane, p) ==> exists q :: OnPane(pane, q) && pane.ControlPoint(q) == p
  {
    var q := pane.ControlPoint(p);
    assert pane.ControlPoint(q) == p;
  }

  /** With a clean control, the first render uploads the image only if the pane was dirty,
      and a second render uploads nothing. */
  method RenderTwice(pane: ActorPane) returns (first: nat, second: nat)
    requires pane.control != null && !pane.control.isDirty
    modifies pane
    ensures first == (if old(pane.wasDirty) then 1 else 0)
    ensures second == 0
  {
    var before := pane.uploads;
    pane.RenderTransparent();
    first := pane.uploads - before;
    before := pane.uploads;
    pane.RenderTransparent();
    second := pane.uploads - before;
  }
}
