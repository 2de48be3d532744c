/** MonoWorks.Modeling.SceneControls.DrawingController: the toolbars offered for the current
    selection of a drawing, the sketching mode, the shading toolbar and the feature actions. */
module SceneControls {

  import opened Outcomes

  datatype SolidMode = NoSolid | Flat | Smooth

  /** The label of the shading button of each solid mode. */
  function SolidModeName(mode: SolidMode): string
  {
    match mode
    case NoSolid => "No Solid"
    case Flat => "Flat Shaded"
    case Smooth => "Smooth Shaded"
  }

  /** The names tell the modes apart, and none is the wireframe button's. */
  lemma SolidModeNamesDistinct(a: SolidMode, b: SolidMode)
    ensures SolidModeName(a) == SolidModeName(b) <==> a == b
    ensures SolidModeName(a) != "Wireframe"
  {
    match a {
      case NoSolid => assert SolidModeName(a)[0] == 'N';
      case Flat => assert SolidModeName(a)[0] == 'F';
      case Smooth => assert SolidModeName(a)[1] == 'm';
    }
    match b {
      case NoSolid => assert SolidModeName(b)[0] == 'N';
      case Flat => assert SolidModeName(b)[0] == 'F';
      case Smooth => assert SolidModeName(b)[1] == 'm';
    }
  }

  datatype EntityKind = RefPlane | Sketch | Extrusion | Revolution | OtherEntity

  /** An entity of a drawing, reduced to its kind, its lock and what it is built on (the plane
      of a sketch, the sketch of a feature). */
  class Entity {
    const kind: EntityKind
    const isLocked: bool
    const base: Entity?

    constructor(kind: EntityKind, isLocked: bool, base: Entity?)
      ensures this.kind == kind && this.isLocked == isLocked && this.base == base
    {
      this.kind, this.isLocked, this.base := kind, isLocked, base;
    }
  }

  /** A drawing with its entity manager's selection. */
  class Drawing {
    var sketches: seq<Entity>
    var features: seq<Entity>
    var selected: seq<Entity>
    var referencesDirty: bool

    constructor()
      ensures sketches == [] && features == [] && selected == [] && !referencesDirty
    {
      sketches, features, selected := [], [], [];
      referencesDirty := false;
    }

    method AddSketch(sketch: Entity)
      modifies this`sketches
      ensures sketches == old(sketches) + [sketch]
    {
      sketches := sketches + [sketch];
    }

    method AddFeature(feature: Entity)
      modifies this`features
      ensures features == old(features) + [feature]
    {
      features := features + [feature];
    }

    method DeselectAll()
      modifies this`selected
      ensures selected == []
    {
      selected := [];
    }

    method Select(entity: Entity)
      modifies this`selected
      ensures selected == old(selected) + [entity]
    {
      selected := selected + [entity];
    }

    method MakeReferencesDirty()
      modifies this`referencesDirty
      ensures referencesDirty
    {
      referencesDirty := true;
    }
  }

  class ToolButton {
    const labelString: string
    var isSelected: bool

    constructor(labelString: string, isSelected: bool)
      ensures this.labelString == labelString && this.isSelected == isSelected
    {
      this.labelString, this.isSelected := labelString, isSelected;
    }
  }

  datatype Side = North | East | South | West

  /** Contexts go to the east side. */
  const PrimaryLocation := East

  /** The toolbars offered for one selected entity. */
  function EntityContexts(entity: Entity, sketching: bool): seq<string>
  {
    if entity.kind == RefPlane && !sketching then ["AddSketchToolbar"]
    else if entity.kind == Sketch then ["EditSketchToolbar", "FeaturesToolbar"]
    else if !entity.isLocked then ["EditToolbar", "DeleteToolbar"]
    else []
  }

  /** The toolbars offered at the primary location for a selection. */
  function PrimaryContexts(selected: seq<Entity>, sketching: bool): seq<string>
  {
    if |selected| == 0 then [if sketching then "SketchToolbar" else "AddRefToolbar"]
    else if |selected| == 1 then EntityContexts(selected[0], sketching)
    else []
  }

  /** The features toolbar is offered exactly when the feature actions can succeed: one sketch
      selected. */
  lemma FeaturesOfferedIffOneSketch(selected: seq<Entity>, sketching: bool)
    ensures "FeaturesToolbar" in PrimaryContexts(selected, sketching) <==>
              |selected| == 1 && selected[0].kind == Sketch
  {
    if |selected| == 1 && selected[0].kind != Sketch {
      var e := selected[0];
      assert "FeaturesToolbar" != "AddSketchToolbar" && "FeaturesToolbar" != "EditToolbar" &&
             "FeaturesToolbar" != "DeleteToolbar";
    }
    if |selected| == 0 {
      assert PrimaryContexts(selected, sketching)[0] != "FeaturesToolbar";
    }
  }

  /** The add-sketch toolbar is offered exactly for one selected plane while not sketching. */
  lemma AddSketchOfferedIffOnePlane(selected: seq<Entity>, sketching: bool)
    ensures "AddSketchToolbar" in PrimaryContexts(selected, sketching) <==>
              |selected| == 1 && selected[0].kind == RefPlane && !sketching
  {
    if |selected| == 1 && !(selected[0].kind == RefPlane && !sketching) {
      assert "AddSketchToolbar" != "EditSketchToolbar" && "AddSketchToolbar" != "FeaturesToolbar" &&
             "AddSketchToolbar" != "EditToolbar" && "AddSketchToolbar" != "DeleteToolbar";
    }
    if |selected| == 0 {
      assert PrimaryContexts(selected, sketching)[0] != "AddSketchToolbar";
    }
  }

  /** The requests the controller makes of the scene, its camera and its interactor. */
  datatype ControllerCall =
    | Paint
    | AnimateToPlane(plane: Entity?)
    | AnimateToStandard
    | BeginSketching(sketch: Entity)
    | ApplySketching
    | CancelSketching

  /** The selection states of the shading buttons. */
  ghost function ShadingState(buttons: seq<ToolButton>): seq<bool>
    reads buttons
  {
    seq(|buttons|, i requires 0 <= i < |buttons| reads buttons => buttons[i].isSelected)
  }

  class DrawingController {
    var drawing: Drawing?
    /** The last entity to be selected alone. */
    var entity: Entity?
    /** Whether the apply/cancel corner buttons are visible, that is, whether the user is
        sketching. */
    var sketching: bool
    var contexts: map<Side, seq<string>>
    var solidMode: SolidMode
    var showWireframe: bool
    /** The shading toolbar's buttons, when the toolbar is loaded. */
    var hasShadingToolbar: bool
    var shadingButtons: seq<ToolButton>
    var calls: seq<ControllerCall>

    /** The scene's solid mode and the loaded shading toolbar are given; the default toolbars
        go to the north side and sketching is off. */
    constructor(solidMode: SolidMode, hasShadingToolbar: bool, shadingButtons: seq<ToolButton>)
      modifies shadingButtons
      ensures this.solidMode == solidMode && this.hasShadingToolbar == hasShadingToolbar
      ensures this.shadingButtons == shadingButtons
      ensures drawing == null && entity == null && !sketching && calls == []
      ensures contexts == map[North := ["FullViewToolbar", "ExportToolbar", "ShadingToolbar"]]
      ensures hasShadingToolbar ==> ShadingShows(solidMode, old(ShadingState(shadingButtons)))
    {
      drawing := null;
      entity := null;
      this.solidMode := solidMode;
      showWireframe := false;
      this.hasShadingToolbar := hasShadingToolbar;
      this.shadingButtons := shadingButtons;
      calls := [];
      contexts := map[];
      new;
      OnSolidModeChanged();
      sketching := false;
      AddContext(North, "FullViewToolbar");
      assert contexts[North] == ["FullViewToolbar"];
      assert contexts == map[North := ["FullViewToolbar"]];
      AddContext(North, "ExportToolbar");
      assert contexts[North] == ["FullViewToolbar", "ExportToolbar"];
      assert contexts == map[North := ["FullViewToolbar", "ExportToolbar"]];
      AddContext(North, "ShadingToolbar");
      assert contexts[North] == ["FullViewToolbar", "ExportToolbar", "ShadingToolbar"];
    }

    /** After a shading update: the current mode's button is selected, the wireframe button
        keeps its state `before`, every other button is deselected. */
    ghost predicate ShadingShows(mode: SolidMode, before: seq<bool>)
      reads this, shadingButtons
    {
      |before| == |shadingButtons| &&
      forall i :: 0 <= i < |shadingButtons| ==>
        shadingButtons[i].isSelected ==
          if shadingButtons[i].labelString == SolidModeName(mode) then true
          else if shadingButtons[i].labelString == "Wireframe" then before[i]
          else false
    }

    method AddContext(side: Side, context: string)
      modifies this`contexts
      ensures contexts == old(contexts)[side := (if side in old(contexts) then old(contexts)[side] else []) + [context]]
    {
      contexts := contexts[side := (if side in contexts then contexts[side] else []) + [context]];
    }

    /** Selects the button of the solid mode and deselects the others, except the wireframe
        button; does nothing when the shading toolbar is not loaded. */
    method OnSolidModeChanged()
      modifies shadingButtons
      ensures hasShadingToolbar ==> ShadingShows(solidMode, old(ShadingState(shadingButtons)))
      ensures !hasShadingToolbar ==> forall i :: 0 <= i < |shadingButtons| ==>
                shadingButtons[i].isSelected == old(shadingButtons[i].isSelected)
    {
      if hasShadingToolbar {
        var solidString := SolidModeName(solidMode);
        var i := 0;
        while i < |shadingButtons|
          invariant 0 <= i <= |shadingButtons|
          invariant forall k :: 0 <= k < i ==>
                      shadingButtons[k].isSelected ==
                        if shadingButtons[k].labelString == solidString then true
                        else if shadingButtons[k].labelString == "Wireframe" then old(shadingButtons[k].isSelected)
                        else false
          invariant forall k :: i <= k < |shadingButtons| && shadingButtons[k] !in shadingButtons[..i] ==>
                      shadingButtons[k].isSelected == old(shadingButtons[k].isSelected)
        {
          var button := shadingButtons[i];
          if button.labelString == solidString {
            button.isSelected := true;
          } else if button.labelString != "Wireframe" {
            button.isSelected := false;
          }
          assert forall k :: i < k < |shadingButtons| && shadingButtons[k] !in shadingButtons[..i + 1] ==>
                   shadingButtons[k] != button;
          i := i + 1;
        }
      }
    }

    /** The No Solid, Flat Shaded and Smooth Shaded actions. */
    method SetSolidMode(mode: SolidMode)
      modifies this`solidMode, shadingButtons
      ensures solidMode == mode
      ensures hasShadingToolbar ==> ShadingShows(mode, old(ShadingState(shadingButtons)))
    {
      solidMode := mode;
      OnSolidModeChanged();
    }

    /** The Wireframe action follows its button's selection. */
    method OnWireframe(buttonSelected: bool)
      modifies this`showWireframe
      ensures showWireframe == buttonSelected
    {
      showWireframe := buttonSelected;
    }

    /** Clears the primary location and offers the toolbars for the drawing's selection; an
        entity selected alone becomes the last entity. Fails, after clearing, without a
        drawing. */
    method OnContextChanged() returns (o: Outcome)
      modifies this`contexts, this`entity, this`calls
      ensures o.Pass? <==> drawing != null
      ensures o.Fail? ==> contexts == old(contexts)[PrimaryLocation := []] && entity == old(entity) &&
                           calls == old(calls)
      ensures o.Pass? ==> contexts == old(contexts)[PrimaryLocation := PrimaryContexts(drawing.selected, sketching)]
      ensures o.Pass? ==> entity == if |drawing.selected| == 1 then drawing.selected[0] else old(entity)
      ensures o.Pass? ==> calls == old(calls) + [Paint]
    {
      contexts := contexts[PrimaryLocation := []];
      if drawing == null {
        return Fail("object reference not set to an instance of an object");
      }
      var selected := drawing.selected;
      if |selected| == 0 {
        if sketching {
          AddContext(PrimaryLocation, "SketchToolbar");
        } else {
          AddContext(PrimaryLocation, "AddRefToolbar");
        }
      } else if |selected| == 1 {
        entity := selected[0];
        if entity.kind == RefPlane && !sketching {
          AddContext(PrimaryLocation, "AddSketchToolbar");
        } else if entity.kind == Sketch {
          AddContext(PrimaryLocation, "EditSketchToolbar");
          AddContext(PrimaryLocation, "FeaturesToolbar");
        } else if !entity.isLocked {
          AddContext(PrimaryLocation, "EditToolbar");
          AddContext(PrimaryLocation, "DeleteToolbar");
        }
      }
      assert contexts[PrimaryLocation] == PrimaryContexts(selected, sketching);
      assert contexts == old(contexts)[PrimaryLocation := PrimaryContexts(selected, sketching)];
      calls := calls + [Paint];
      return Pass;
    }

    /** A new selection in a drawing: the drawing becomes the controller's. */
    method OnSelectionChanged(newDrawing: Drawing) returns (o: Outcome)
      modifies this`drawing, this`contexts, this`entity, this`calls
      ensures drawing == newDrawing && o.Pass?
      ensures contexts == old(contexts)[PrimaryLocation := PrimaryContexts(newDrawing.selected, sketching)]
      ensures entity == if |newDrawing.selected| == 1 then newDrawing.selected[0] else old(entity)
      ensures calls == old(calls) + [Paint]
    {
      drawing := newDrawing;
      o := OnContextChanged();
    }

    /** Edit fails unless an entity has been selected. */
    method Edit() returns (o: Outcome)
      ensures o.Pass? <==> entity != null
    {
      if entity == null {
        return Fail("The Edit action should never be called without lastEntity set.");
      }
      return Pass;
    }

    /** Starts a new sketch on the selected plane: adds it to the drawing, turns the camera to
        the plane, begins sketching it and clears the selection. Fails unless the last entity is
        a plane. */
    method OnAddSketch() returns (o: Outcome)
      modifies this`sketching, this`contexts, this`entity, this`calls, drawing
      ensures o.Pass? <==> entity != null && entity.kind == RefPlane && drawing != null
      ensures drawing == old(drawing) && entity == old(entity)
      ensures o.Pass? ==>
                sketching && drawing.selected == [] &&
                |drawing.sketches| == |old(drawing.sketches)| + 1 &&
                drawing.sketches[..|drawing.sketches| - 1] == old(drawing.sketches) &&
                var sketch := drawing.sketches[|drawing.sketches| - 1];
                fresh(sketch) && sketch.kind == Sketch && sketch.base == entity &&
                calls == old(calls) + [AnimateToPlane(entity), BeginSketching(sketch), Paint] &&
                contexts == old(contexts)[PrimaryLocation := ["SketchToolbar"]]
      ensures drawing != null ==>
                drawing.features == old(drawing.features) && drawing.referencesDirty == old(drawing.referencesDirty)
      ensures o.Fail? ==> unchanged(this) && (drawing != null ==> unchanged(drawing))
    {
      if entity != null && entity.kind == RefPlane {
        if drawing == null {
          return Fail("object reference not set to an instance of an object");
        }
        var sketch := new Entity(Sketch, false, entity);
        drawing.AddSketch(sketch);
        calls := calls + [AnimateToPlane(entity), BeginSketching(sketch)];
        drawing.DeselectAll();
        sketching := true;
        o := OnContextChanged();
      } else {
        return Fail("Trying to sketch an entity that isn't a plane. This should never happen.");
      }
    }

    /** Edits the selected sketch: turns the camera to its plane, begins sketching it and
        clears the selection. Fails unless the last entity is a sketch; without a drawing it
        fails once the camera and the interactor have been told. */
    method OnEditSketch() returns (o: Outcome)
      modifies this`sketching, this`contexts, this`entity, this`calls, drawing
      ensures o.Pass? <==> entity != null && entity.kind == Sketch && drawing != null
      ensures drawing == old(drawing) && entity == old(entity)
      ensures o.Pass? ==>
                sketching && drawing.selected == [] && drawing.sketches == old(drawing.sketches) &&
                calls == old(calls) + [AnimateToPlane(entity.base), BeginSketching(entity), Paint] &&
                contexts == old(contexts)[PrimaryLocation := ["SketchToolbar"]]
      ensures drawing != null ==>
                drawing.sketches == old(drawing.sketches) && drawing.features == old(drawing.features) &&
                drawing.referencesDirty == old(drawing.referencesDirty)
      ensures entity == null || entity.kind != Sketch ==> unchanged(this) && (drawing != null ==> unchanged(drawing))
      ensures entity != null && entity.kind == Sketch && drawing == null ==>
                calls == old(calls) + [AnimateToPlane(entity.base), BeginSketching(entity)] &&
                sketching == old(sketching) && contexts == old(contexts)
    {
      if entity != null && entity.kind == Sketch {
        var sketch := entity;
        calls := calls + [AnimateToPlane(sketch.base), BeginSketching(sketch)];
        if drawing == null {
          return Fail("object reference not set to an instance of an object");
        }
        drawing.DeselectAll();
        sketching := true;
        o := OnContextChanged();
      } else {
        return Fail("Trying to sketch an entity that isn't a Sketch. This should never happen.");
      }
    }

    /** Ends sketching, applied or cancelled: the drawing's references are made dirty, the
        apply/cancel buttons are hidden and the contexts are offered again. */
    method OnEndSketch() returns (o: Outcome)
      modifies this`sketching, this`contexts, this`entity, this`calls, drawing
      ensures o.Pass? <==> drawing != null
      ensures o.Pass? ==>
                !sketching && drawing.referencesDirty &&
                drawing.selected == old(drawing.selected) && drawing.sketches == old(drawing.sketches) &&
                drawing.features == old(drawing.features) &&
                contexts == old(contexts)[PrimaryLocation := PrimaryContexts(drawing.selected, false)] &&
                entity == (if |drawing.selected| == 1 then drawing.selected[0] else old(entity)) &&
                calls == old(calls) + [Paint]
      ensures o.Fail? ==> sketching == old(sketching) && contexts == old(contexts) && entity == old(entity) &&
                          calls == old(calls)
    {
      if drawing == null {
        return Fail("object reference not set to an instance of an object");
      }
      drawing.MakeReferencesDirty();
      sketching := false;
      o := OnContextChanged();
    }

    method OnApplySketch() returns (o: Outcome)
      modifies this`sketching, this`contexts, this`entity, this`calls, drawing
      ensures o.Pass? <==> drawing != null
      ensures o.Pass? ==>
                !sketching && drawing.referencesDirty &&
                drawing.selected == old(drawing.selected) && drawing.sketches == old(drawing.sketches) &&
                drawing.features == old(drawing.features) &&
                contexts == old(contexts)[PrimaryLocation := PrimaryContexts(drawing.selected, false)] &&
                entity == (if |drawing.selected| == 1 then drawing.selected[0] else old(entity)) &&
                calls == old(calls) + [ApplySketching, Paint]
      ensures o.Fail? ==> sketching == old(sketching) && contexts == old(contexts) && entity == old(entity) &&
                          calls == old(calls) + [ApplySketching]
    {
      calls := calls + [ApplySketching];
      o := OnEndSketch();
    }

    method OnCancelSketch() returns (o: Outcome)
      modifies this`sketching, this`contexts, this`entity, this`calls, drawing
      ensures o.Pass? <==> drawing != null
      ensures o.Pass? ==>
                !sketching && drawing.referencesDirty &&
                drawing.selected == old(drawing.selected) && drawing.sketches == old(drawing.sketches) &&
                drawing.features == old(drawing.features) &&
                contexts == old(contexts)[PrimaryLocation := PrimaryContexts(drawing.selected, false)] &&
                entity == (if |drawing.selected| == 1 then drawing.selected[0] else old(entity)) &&
                calls == old(calls) + [CancelSketching, Paint]
      ensures o.Fail? ==> sketching == old(sketching) && contexts == old(contexts) && entity == old(entity) &&
                          calls == old(calls) + [CancelSketching]
    {
      calls := calls + [CancelSketching];
      o := OnEndSketch();
    }

    /** Adds a feature of the given kind built on the one selected sketch, and selects it alone.
        Fails unless exactly one sketch is selected. */
    method AddFeature(kind: EntityKind) returns (o: Outcome)
      requires kind == Extrusion || kind == Revolution
      modifies this`entity, this`calls, drawing
      ensures o.Pass? <==> drawing != null && |old(drawing.selected)| == 1 && old(drawing.selected)[0].kind == Sketch
      ensures o.Pass? ==>
                |drawing.selected| == 1 && entity == drawing.selected[0] &&
                fresh(entity) && entity.kind == kind && entity.base == old(drawing.selected)[0] &&
                drawing.features == old(drawing.features) + [entity] &&
                drawing.sketches == old(drawing.sketches) && drawing.referencesDirty == old(drawing.referencesDirty) &&
                calls == old(calls) + [AnimateToStandard]
      ensures o.Fail? ==> entity == old(entity) && calls == old(calls) && (drawing == null || unchanged(drawing))
    {
      if drawing == null {
        return Fail("object reference not set to an instance of an object");
      }
      if |drawing.selected| != 1 || drawing.selected[0].kind != Sketch {
        return Fail("Attempting to add a feature to something other than a sketch. This should never happen.");
      }
      var sketch := drawing.selected[0];
      var feature := new Entity(kind, false, sketch);
      drawing.AddFeature(feature);
      drawing.DeselectAll();
      drawing.Select(feature);
      entity := feature;
      o := Edit();
      calls := calls + [AnimateToStandard];
    }

    /** The Extrusion action. */
    method OnAddExtrusion() returns (o: Outcome)
      modifies this`entity, this`calls, drawing
      ensures o.Pass? <==> drawing != null && |old(drawing.selected)| == 1 && old(drawing.selected)[0].kind == Sketch
      ensures o.Pass? ==>
                drawing.selected == [entity] && fresh(entity) && entity.kind == Extrusion &&
                entity.base == old(drawing.selected)[0] && drawing.features == old(drawing.features) + [entity] &&
                calls == old(calls) + [AnimateToStandard]
      ensures o.Fail? ==> entity == old(entity) && calls == old(calls) && (drawing == null || unchanged(drawing))
    {
      o := AddFeature(Extrusion);
    }

    /** The Revolution action. */
    method OnAddRevolution() returns (o: Outcome)
      modifies this`entity, this`calls, drawing
      ensures o.Pass? <==> drawing != null && |old(drawing.selected)| == 1 && old(drawing.selected)[0].kind == Sketch
      ensures o.Pass? ==>
                drawing.selected == [entity] && fresh(entity) && entity.kind == Revolution &&
                entity.base == old(drawing.selected)[0] && drawing.features == old(drawing.features) + [entity] &&
                calls == old(calls) + [AnimateToStandard]
      ensures o.Fail? ==> entity == old(entity) && calls == old(calls) && (drawing == null || unchanged(drawing))
    {
      o := AddFeature(Revolution);
    }
  }

  /** A sketching session on the selected plane: add a sketch, then apply it. Sketching is off
      afterwards, the drawing holds one more sketch and, as nothing is selected, the reference
      toolbar is offered again. */
  method SketchSession(controller: DrawingController) returns (o: Outcome)
    requires controller.drawing != null && controller.entity != null && controller.entity.kind == RefPlane
    modifies controller, controller.drawing
    ensures o.Pass? && controller.drawing == old(controller.drawing)
    ensures !controller.sketching && controller.drawing.referencesDirty
    ensures |controller.drawing.sketches| == |old(controller.drawing.sketches)| + 1
    ensures PrimaryLocation in controller.contexts && controller.contexts[PrimaryLocation] == ["AddRefToolbar"]
  {
    o := controller.OnAddSketch();
    o := controller.OnApplySketch();
  }
}
