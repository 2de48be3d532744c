/** MonoWorks.Controls.Dock: a dock book shows one of its scenes at a time and a row of buttons,
    one per scene, to choose it; dragging a scene over the row finds the slot it would go in. */
module Dock {

  import opened Outcomes
  import opened Base

  /** A scene of the book; only its identity matters here. */
  class Scene {
    constructor()
    {
    }
  }

  /** The calls the book makes on its scenes. */
  datatype SceneEvent =
    | ButtonPress | ButtonRelease | MouseMotion | MouseWheel | KeyPress | KeyRelease
    | Render
    | Resize(width: real, height: real)

  datatype SceneCall = SceneCall(scene: Scene, event: SceneEvent)

  /** The button of one scene: its selection state, its position along the row and its size. */
  class DockButton {
    const scene: Scene
    var isSelected: bool
    var originX: real
    var renderWidth: real
    var renderHeight: real

    constructor(scene: Scene)
      ensures this.scene == scene
    {
      this.scene := scene;
      isSelected := false;
      originX, renderWidth, renderHeight := 0.0, 0.0, 0.0;
    }
  }

  /** The middle of a button along the row. */
  function Middle(button: DockButton): real
    reads button
  {
    button.originX + button.renderWidth / 2.0
  }

  /** Where a dragged scene would be inserted: `index` among the buttons, and the rectangle
      that shows it. */
  class DockSlot {
    const index: int
    var originX: real
    var originY: real
    var sizeX: real
    var sizeY: real

    constructor(index: int)
      ensures this.index == index
    {
      this.index := index;
      originX, originY, sizeX, sizeY := 0.0, 0.0, 0.0, 0.0;
    }
  }

  /** `i` is the first button whose middle lies right of `x`, or the number of buttons when
      there is none. */
  ghost predicate IsNearest(buttons: seq<DockButton>, x: real, i: int)
    reads buttons
  {
    0 <= i <= |buttons| &&
    (forall j :: 0 <= j < i ==> x >= Middle(buttons[j])) &&
    (i < |buttons| ==> x < Middle(buttons[i]))
  }

  /** The slot is placed at its button: half a button left of it when the index is inside the
      row, half a button right of the last button when it is past the end; it takes the button's
      size and sits at the bottom of the book. */
  ghost predicate Placed(slot: DockSlot, buttons: seq<DockButton>, bookHeight: real, offsetY: real)
    reads slot, buttons
  {
    0 <= slot.index && (slot.index < |buttons| || |buttons| > 0) &&
    var button := if slot.index < |buttons| then buttons[slot.index] else Last(buttons);
    slot.originX == (if slot.index < |buttons| then button.originX - button.renderWidth / 2.0
                     else button.originX + button.renderWidth / 2.0) &&
    slot.sizeX == button.renderWidth && slot.sizeY == button.renderHeight &&
    slot.originY == bookHeight - button.renderHeight + offsetY
  }

  /** There is one nearest index for every x. */
  lemma NearestUnique(buttons: seq<DockButton>, x: real, i: int, k: int)
    requires IsNearest(buttons, x, i) && IsNearest(buttons, x, k)
    ensures i == k
  {
  }

  /** The row of buttons of a book. The book's scenes and current scene are passed in; the
      selector reads them from its book. */
  class DockBookSelector {
    var buttons: seq<DockButton>

    constructor()
      ensures buttons == []
    {
      buttons := [];
    }

    /** A button is selected exactly when its scene is the current one. */
    ghost predicate SelectionShows(current: Scene?)
      reads this, buttons
    {
      forall i :: 0 <= i < |buttons| ==> buttons[i].isSelected == (current != null && buttons[i].scene == current)
    }

    /** Makes one new button per scene, in the scenes' order, then updates their selection. */
    method RemakeButtons(scenes: seq<Scene>, current: Scene?)
      modifies this`buttons
      ensures |buttons| == |scenes|
      ensures forall i :: 0 <= i < |buttons| ==> fresh(buttons[i]) && buttons[i].scene == scenes[i]
      ensures forall i, j :: 0 <= i < j < |buttons| ==> buttons[i] != buttons[j]
      ensures SelectionShows(current)
    {
      buttons := [];
      var i := 0;
      while i < |scenes|
        invariant 0 <= i <= |scenes| && |buttons| == i
        invariant forall k :: 0 <= k < i ==> fresh(buttons[k]) && buttons[k].scene == scenes[k]
        invariant forall k, j :: 0 <= k < j < i ==> buttons[k] != buttons[j]
      {
        var button := new DockButton(scenes[i]);
        buttons := buttons + [button];
        i := i + 1;
      }
      UpdateButtons(current);
    }

    /** Selects the buttons of the current scene and deselects every other. */
    method UpdateButtons(current: Scene?)
      modifies buttons
      ensures SelectionShows(current)
      ensures forall i :: 0 <= i < |buttons| ==>
                buttons[i].originX == old(buttons[i].originX) &&
                buttons[i].renderWidth == old(buttons[i].renderWidth) &&
                buttons[i].renderHeight == old(buttons[i].renderHeight)
    {
      var i := 0;
      while i < |buttons|
        invariant 0 <= i <= |buttons|
        invariant forall k :: 0 <= k < i ==> buttons[k].isSelected == (current != null && buttons[k].scene == current)
        invariant forall k :: 0 <= k < |buttons| ==>
                    buttons[k].originX == old(buttons[k].originX) &&
                    buttons[k].renderWidth == old(buttons[k].renderWidth) &&
                    buttons[k].renderHeight == old(buttons[k].renderHeight)
      {
        var button := buttons[i];
        if current != null && button.scene == current {
          button.isSelected := true;
        } else {
          button.isSelected := false;
        }
        i := i + 1;
      }
    }

    /** Selects the deselected buttons of the current scene and deselects the selected buttons
        of the others; a button already in the right state is not touched. */
    method RefreshButtons(current: Scene?)
      modifies buttons
      ensures SelectionShows(current)
      ensures old(SelectionShows(current)) ==>
                forall i :: 0 <= i < |buttons| ==> buttons[i].isSelected == old(buttons[i].isSelected)
      ensures forall i :: 0 <= i < |buttons| ==>
                buttons[i].originX == old(buttons[i].originX) &&
                buttons[i].renderWidth == old(buttons[i].renderWidth) &&
                buttons[i].renderHeight == old(buttons[i].renderHeight)
    {
      var i := 0;
      while i < |buttons|
        invariant 0 <= i <= |buttons|
        invariant forall k :: 0 <= k < i ==> buttons[k].isSelected == (current != null && buttons[k].scene == current)
        invariant forall k :: 0 <= k < |buttons| ==>
                    buttons[k].originX == old(buttons[k].originX) &&
                    buttons[k].renderWidth == old(buttons[k].renderWidth) &&
                    buttons[k].renderHeight == old(buttons[k].renderHeight)
      {
        var button := buttons[i];
        // scenes are never null, so comparing with a null current deselects
        if button.scene == current && !button.isSelected {
          button.isSelected := true;
        } else if button.scene != current && button.isSelected {
          button.isSelected := false;
        }
        i := i + 1;
      }
    }

    /** The index of the first button whose middle is right of `x`, or the number of buttons. */
    method NearestIndex(x: real) returns (i: int)
      ensures IsNearest(buttons, x, i)
    {
      i := 0;
      while i < |buttons|
        invariant 0 <= i <= |buttons|
        invariant forall j :: 0 <= j < i ==> x >= Middle(buttons[j])
      {
        var button := buttons[i];
        if x < button.originX + button.renderWidth / 2.0 {
          return i;
        }
        i := i + 1;
      }
      return |buttons|;
    }

    /** Puts the slot half a button left of its button, or half a button right of the last
        one when it is past the end, with the button's size, at the bottom of the book.
        Fails, as the list access throws, for a negative index or a slot past the end of an
        empty row. */
    method PositionSlot(slot: DockSlot, bookHeight: real, offsetY: real) returns (o: Outcome)
      modifies slot
      ensures o.Pass? <==> 0 <= slot.index && (slot.index < |buttons| || |buttons| > 0)
      ensures o.Fail? ==> unchanged(slot)
      ensures o.Pass? ==> Placed(slot, buttons, bookHeight, offsetY)
    {
      var button: DockButton;
      if slot.index < |buttons| {
        if slot.index < 0 {
          return Fail("index out of range");
        }
        button := buttons[slot.index];
        slot.originX := button.originX - button.renderWidth / 2.0;
      } else {
        if |buttons| == 0 {
          return Fail("index out of range");
        }
        button := Last(buttons);
        slot.originX := button.originX + button.renderWidth / 2.0;
      }
      slot.sizeX := button.renderWidth;
      slot.sizeY := button.renderHeight;
      slot.originY := bookHeight - button.renderHeight + offsetY;
      return Pass;
    }
  }

  /** The calls a resize makes: every scene, in order, is resized to the book's area above the
      selector. */
  function ResizeCalls(scenes: seq<Scene>, width: real, height: real): (r: seq<SceneCall>)
    ensures |r| == |scenes|
    ensures forall i :: 0 <= i < |r| ==> r[i] == SceneCall(scenes[i], Resize(width, height))
  {
    if |scenes| == 0 then []
    else ResizeCalls(scenes[..|scenes| - 1], width, height) + [SceneCall(scenes[|scenes| - 1], Resize(width, height))]
  }

  class DockBook {
    const selector: DockBookSelector
    var children: seq<Scene>
    var current: Scene?
    var width: real
    var height: real
    /** The origin of the overlay pane that holds the selector. */
    var paneOriginX: real
    var paneOriginY: real
    var viewportOffsetY: real
    /** The calls made on the scenes, in order. */
    var calls: seq<SceneCall>

    constructor(width: real, height: real)
      ensures fresh(selector) && selector.buttons == []
      ensures children == [] && current == null && calls == []
      ensures this.width == width && this.height == height
    {
      selector := new DockBookSelector();
      children := [];
      current := null;
      this.width, this.height := width, height;
      paneOriginX, paneOriginY, viewportOffsetY := 0.0, 0.0, 0.0;
      calls := [];
    }

    /** A change of the scenes remakes the selector's buttons. */
    method OnChildrenChanged()
      modifies selector
      ensures |selector.buttons| == |children|
      ensures forall i :: 0 <= i < |children| ==> fresh(selector.buttons[i]) && selector.buttons[i].scene == children[i]
      ensures selector.SelectionShows(current)
    {
      selector.RemakeButtons(children, current);
    }

    /** Setting the current scene refreshes the buttons. */
    method SetCurrent(value: Scene?)
      modifies this`current, selector.buttons
      ensures current == value
      ensures selector.SelectionShows(value)
    {
      current := value;
      selector.RefreshButtons(current);
    }

    /** Clicking the i-th button makes its scene the current one and updates the buttons. */
    method ClickButton(i: nat)
      requires i < |selector.buttons|
      modifies this`current, selector.buttons
      ensures current == old(selector.buttons[i].scene)
      ensures selector.SelectionShows(current)
      ensures selector.buttons[i].isSelected
    {
      var scene := selector.buttons[i].scene;
      SetCurrent(scene);
      selector.UpdateButtons(current);
    }

    /** The pane sits at the bottom of the book and every scene is resized to the area above
        it; `paneHeight` is the pane's height once its geometry is computed. */
    method ResizeBook(paneHeight: real)
      modifies this`paneOriginX, this`paneOriginY, this`calls
      ensures paneOriginX == 0.0 && paneOriginY == height - paneHeight
      ensures calls == old(calls) + ResizeCalls(children, width, height - paneHeight)
    {
      paneOriginX := 0.0;
      paneOriginY := height - paneHeight;
      var i := 0;
      while i < |children|
        invariant 0 <= i <= |children| && paneOriginX == 0.0 && paneOriginY == height - paneHeight
        invariant calls == old(calls) + ResizeCalls(children[..i], width, height - paneHeight)
      {
        assert children[..i + 1][..i] == children[..i];
        calls := calls + [SceneCall(children[i], Resize(width, height - paneHeight))];
        i := i + 1;
      }
      assert children[..i] == children;
    }

    /** Rendering and the mouse and key events go on to the current scene, if any. */
    method Forward(event: SceneEvent)
      requires !event.Resize?
      modifies this`calls
      ensures calls == old(calls) + if current != null then [SceneCall(current, event)] else []
    {
      if current != null {
        calls := calls + [SceneCall(current, event)];
      }
    }

    /** A drag that hits the book gets the slot nearest its x position; one that misses gets
        none. Fails when the book has no buttons, since no slot can be placed. */
    method SlotTest(hit: bool, x: real) returns (r: Result<Option<DockSlot>>)
      ensures r.Err? <==> hit && |selector.buttons| == 0
      ensures !hit ==> r == Ok(None)
      ensures r.Ok? && r.value.Some? ==>
                var slot := r.value.value;
                fresh(slot) && IsNearest(selector.buttons, x, slot.index) &&
                Placed(slot, selector.buttons, height, viewportOffsetY) &&
                (slot.index < |selector.buttons| ==>
                   slot.originX == Middle(selector.buttons[slot.index]) - selector.buttons[slot.index].renderWidth) &&
                (slot.index == |selector.buttons| ==> slot.originX == Middle(Last(selector.buttons)))
    {
      if hit {
        var index := selector.NearestIndex(x);
        var slot := new DockSlot(index);
        var o := selector.PositionSlot(slot, height, viewportOffsetY);
        if o.Fail? {
          return Err(o.message);
        }
        return Ok(Some(slot));
      }
      return Ok(None);
    }
  }
}
